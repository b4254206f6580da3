/** How much a pull-deposit pulls, and from whom (approval-watcher.ts:142-170):
    the announced amount, or else what an Approval event of the owner said. */
module PullAmounts {
  import opened Chain
  import opened Amounts
  import opened PullWatcher
  import opened PullSafety

  /** The logs a poll has fetched are logs of its contract. */
  ghost predicate Batched(blocks: Blocks, poll: Poll) {
    forall k :: k in poll.batch ==> k < |blocks.logs| && blocks.logs[k].contract == Lower(poll.contract)
  }

  predicate Committed(at: Await) { at.Gas? || at.Mining? || at.Pulled? || at.Abandoned? }

  function AmountOf(at: Await): int
    requires Committed(at)
  {
    if at.Gas? then at.desired else at.amount
  }

  /** From the allowance check on, the amount is what the log in hand calls for. */
  ghost predicate Decided(blocks: Blocks, poll: Poll) {
    Committed(poll.at) ==>
      && poll.next < |poll.batch| && poll.batch[poll.next] < |blocks.logs|
      && !poll.at.d.expected.Unreadable?
      && AmountOf(poll.at) == Desired(poll.at.d, blocks.logs[poll.batch[poll.next]].value)
  }

  /** An Approval event of the owner, on the deposit's contract, that calls for this pull. */
  predicate CalledFor(log: Approval, pull: Pull) {
    && log.contract == Lower(pull.d.contract) && log.owner == pull.owner
    && !pull.d.expected.Unreadable? && pull.amount == Desired(pull.d, log.value)
  }

  ghost predicate Justified(blocks: Blocks, pull: Pull) { exists i :: 0 <= i < |blocks.logs| && CalledFor(blocks.logs[i], pull) }

  ghost predicate AmountsOk(s: State) {
    && (forall p :: 0 <= p < |s.polls| ==> Batched(s.blocks, s.polls[p]) && Decided(s.blocks, s.polls[p]))
    && (forall i :: 0 <= i < |s.log.pulls| ==> Justified(s.blocks, s.log.pulls[i]))
  }

  /** Activation `p` goes on, no block comes, and pulls are at most told of. */
  ghost predicate Moves(s: State, s': State, p: nat) {
    && s'.blocks == s.blocks && p < |s.polls| == |s'.polls| && s'.polls == s.polls[p := s'.polls[p]]
    && Batched(s.blocks, s'.polls[p]) && Decided(s.blocks, s'.polls[p])
    && |s'.log.pulls| == |s.log.pulls|
    && forall i :: 0 <= i < |s.log.pulls| ==> s'.log.pulls[i].(told := false) == s.log.pulls[i].(told := false)
  }

  lemma MovesKeep(s: State, s': State, p: nat)
    requires AmountsOk(s) && Moves(s, s', p)
    ensures AmountsOk(s')
  {
    forall i | 0 <= i < |s'.log.pulls| ensures Justified(s'.blocks, s'.log.pulls[i]) {
      assert Justified(s.blocks, s.log.pulls[i]);
      var k :| 0 <= k < |s.blocks.logs| && CalledFor(s.blocks.logs[k], s.log.pulls[i]);
      assert CalledFor(s.blocks.logs[k], s'.log.pulls[i]);
    }
  }

  lemma FetchMovesOn(s: State, e: Event)
    requires Enabled(s, e) && (e.ServeHead? || e.OnHead? || e.ServeLogs? || e.OnLogs?)
    requires Batched(s.blocks, s.polls[e.p])
    ensures Moves(s, Step(s, e), e.p)
  {
  }

  lemma HandleMovesOn(s: State, e: Event)
    requires Enabled(s, e) && (e.OnNextLog? || e.ServeAllowance? || e.OnAllowance? || e.OnGas?)
    requires Batched(s.blocks, s.polls[e.p]) && Decided(s.blocks, s.polls[e.p])
    ensures Moves(s, Step(s, e), e.p)
  {
    if e.OnNextLog? || e.ServeAllowance? {
      AskMovesOn(s, e);
    }
  }

  lemma AskMovesOn(s: State, e: Event)
    requires Enabled(s, e) && (e.OnNextLog? || e.ServeAllowance?)
    requires Batched(s.blocks, s.polls[e.p])
    ensures Moves(s, Step(s, e), e.p)
  {
  }

  lemma SettlingMovesOn(s: State, e: Event)
    requires Enabled(s, e) && (e.OnReceipt? || e.OnCallback?)
    requires Batched(s.blocks, s.polls[e.p]) && Decided(s.blocks, s.polls[e.p])
    ensures Moves(s, Step(s, e), e.p)
  {
  }

  lemma FailMovesOn(s: State, p: nat)
    requires Enabled(s, Fail(p)) && Batched(s.blocks, s.polls[p]) && Decided(s.blocks, s.polls[p])
    ensures Moves(s, Step(s, Fail(p)), p)
  {
  }

  lemma MineKeeps(s: State, p: nat, accepted: bool)
    requires AmountsOk(s) && InMempool(s, p) && PollOk(s.log, s.polls[p])
    ensures AmountsOk(DoMine(s, p, accepted))
  {
    var s', poll := DoMine(s, p, accepted), s.polls[p];
    assert Batched(s.blocks, poll) && Decided(s.blocks, poll);
    if |s'.log.pulls| == |s.log.pulls| {
      MovesKeep(s, s', p);
    } else {
      var k := poll.batch[poll.next];
      assert k in poll.batch;
      assert CalledFor(s.blocks.logs[k], s'.log.pulls[|s.log.pulls|]);
      forall i | 0 <= i < |s'.log.pulls| ensures Justified(s'.blocks, s'.log.pulls[i]) {
        assert i < |s.log.pulls| ==> Justified(s.blocks, s'.log.pulls[i]);
      }
    }
  }

  lemma BlockKeeps(s: State, logs: seq<Approval>)
    requires AmountsOk(s)
    ensures AmountsOk(s.(blocks := Blocks(s.blocks.head + 1, s.blocks.logs + logs)))
  {
    var blocks' := Blocks(s.blocks.head + 1, s.blocks.logs + logs);
    forall i | 0 <= i < |s.log.pulls| ensures Justified(blocks', s.log.pulls[i]) {
      assert Justified(s.blocks, s.log.pulls[i]);
      var k :| 0 <= k < |s.blocks.logs| && CalledFor(s.blocks.logs[k], s.log.pulls[i]);
      assert blocks'.logs[k] == s.blocks.logs[k];
    }
    forall p | 0 <= p < |s.polls| ensures Batched(blocks', s.polls[p]) && Decided(blocks', s.polls[p]) {
      assert Batched(s.blocks, s.polls[p]) && Decided(s.blocks, s.polls[p]);
    }
  }

  lemma AsideKeeps(s: State, e: Event)
    requires AmountsOk(s) && Enabled(s, e)
    requires e.AddDeposit? || e.ServeSeed? || e.OnSeed? || e.FailSeed? || e.Tick? || e.Move?
    ensures AmountsOk(Step(s, e))
  {
    var s' := Step(s, e);
    forall p | 0 <= p < |s'.polls| ensures Batched(s'.blocks, s'.polls[p]) && Decided(s'.blocks, s'.polls[p]) {
      assert p < |s.polls| ==> Batched(s.blocks, s.polls[p]) && Decided(s.blocks, s.polls[p]);
    }
  }

  lemma StepKeepsAmounts(s: State, e: Event)
    requires AmountsOk(s) && PollsOk(s)
    ensures AmountsOk(Step(s, e))
  {
    if Enabled(s, e) {
      if e.NewBlock? {
        BlockKeeps(s, e.logs);
      } else if e.AddDeposit? || e.ServeSeed? || e.OnSeed? || e.FailSeed? || e.Tick? || e.Move? {
        AsideKeeps(s, e);
      } else {
        assert Batched(s.blocks, s.polls[e.p]) && Decided(s.blocks, s.polls[e.p]) && PollOk(s.log, s.polls[e.p]);
        if e.Mine? {
          MineKeeps(s, e.p, e.accepted);
        } else {
          if e.ServeHead? || e.OnHead? || e.ServeLogs? || e.OnLogs? {
            FetchMovesOn(s, e);
          } else if e.Fail? {
            FailMovesOn(s, e.p);
          } else if e.OnReceipt? || e.OnCallback? {
            SettlingMovesOn(s, e);
          } else {
            HandleMovesOn(s, e);
          }
          MovesKeep(s, Step(s, e), e.p);
        }
      }
    }
  }

  lemma {:induction false} RunKeepsAmounts(balances: Balances, events: seq<Event>)
    ensures AmountsOk(Run(Start(balances), events))
    decreases |events|
  {
    if events != [] {
      RunKeepsAmounts(balances, events[..|events| - 1]);
      Reachable(balances, events[..|events| - 1]);
      StepKeepsAmounts(Run(Start(balances), events[..|events| - 1]), events[|events| - 1]);
    }
  }

  /** Under every interleaving each confirmed transferFrom is of exactly the
      amount announced for its deposit -- of what an Approval event says if none
      was -- and takes it from the owner of such an event on that contract. */
  lemma PullsAreCalledFor(balances: Balances, events: seq<Event>, i: nat)
    ensures var s := Run(Start(balances), events);
            i < |s.log.pulls| ==>
              && (s.log.pulls[i].d.expected.Units? ==> s.log.pulls[i].amount == s.log.pulls[i].d.expected.units)
              && exists k :: 0 <= k < |s.blocks.logs| && CalledFor(s.blocks.logs[k], s.log.pulls[i])
  {
    RunKeepsAmounts(balances, events);
    var s := Run(Start(balances), events);
    if i < |s.log.pulls| {
      assert Justified(s.blocks, s.log.pulls[i]);
    }
  }
}
