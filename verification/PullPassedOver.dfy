/** From which states a deposit can be passed over (approval-watcher.ts:49-83):
    from every one in which an earlier addDeposit on its contract is still waiting
    for the node when the deposit is accepted. */
module PullPassedOver {
  import opened Wrappers
  import opened Chain
  import opened Amounts
  import opened PullWatcher
  import opened PullSafety
  import opened PullAmounts
  import opened PullStranded
  import opened PullRuns

  /* ---- what has been handled is a log ---- */

  ghost predicate KnownLogs(s: State) { forall k :: k in s.log.handled ==> k < |s.blocks.logs| }

  /** One more log is handled at most, the one activation `p` has in hand. */
  predicate HandlesOne(s: State, s': State, p: nat) {
    p < |s.polls| && s'.blocks == s.blocks
    && (s'.log.handled == s.log.handled
        || (s.polls[p].next < |s.polls[p].batch| && s'.log.handled == s.log.handled + {s.polls[p].batch[s.polls[p].next]}))
  }

  lemma NextLogHandles(s: State, p: nat)
    requires Enabled(s, OnNextLog(p))
    ensures HandlesOne(s, Step(s, OnNextLog(p)), p)
  {
  }

  lemma AnswersHandle(s: State, e: Event)
    requires Enabled(s, e) && (e.OnAllowance? || e.OnReceipt? || e.OnCallback?)
    ensures HandlesOne(s, Step(s, e), e.p)
  {
  }

  lemma OthersHandleNothing(s: State, e: Event)
    requires !e.OnNextLog? && !e.OnAllowance? && !e.OnReceipt? && !e.OnCallback?
    ensures Step(s, e).log.handled == s.log.handled && s.blocks.logs <= Step(s, e).blocks.logs
  {
    if e.Mine? || e.Fail? || e.ServeAllowance? || e.OnGas? {
      SettlingHandlesNothing(s, e);
    }
  }

  lemma SettlingHandlesNothing(s: State, e: Event)
    requires e.Mine? || e.Fail? || e.ServeAllowance? || e.OnGas?
    ensures Step(s, e).log.handled == s.log.handled && s.blocks.logs <= Step(s, e).blocks.logs
  {
  }

  lemma StepKeepsKnown(s: State, e: Event)
    requires KnownLogs(s) && forall p :: 0 <= p < |s.polls| ==> Batched(s.blocks, s.polls[p])
    ensures KnownLogs(Step(s, e))
  {
    if !Enabled(s, e) {
    } else if e.OnNextLog? || e.OnAllowance? || e.OnReceipt? || e.OnCallback? {
      if e.OnNextLog? {
        NextLogHandles(s, e.p);
      } else {
        AnswersHandle(s, e);
      }
      InHandIsKnown(s, e.p);
    } else {
      OthersHandleNothing(s, e);
    }
  }

  lemma InHandIsKnown(s: State, p: nat)
    requires p < |s.polls| && Batched(s.blocks, s.polls[p])
    ensures s.polls[p].next < |s.polls[p].batch| ==> s.polls[p].batch[s.polls[p].next] < |s.blocks.logs|
  {
    if s.polls[p].next < |s.polls[p].batch| {
      assert s.polls[p].batch[s.polls[p].next] in s.polls[p].batch;
    }
  }

  lemma {:induction false} HandledAreLogs(balances: Balances, events: seq<Event>)
    ensures KnownLogs(Run(Start(balances), events))
    decreases |events|
  {
    if events != [] {
      HandledAreLogs(balances, events[..|events| - 1]);
      RunKeepsAmounts(balances, events[..|events| - 1]);
      StepKeepsKnown(Run(Start(balances), events[..|events| - 1]), events[|events| - 1]);
    }
  }

  /* ---- passed over ---- */

  /** The deposit would be accepted, no timer runs for its contract, and the
      seeding `q` of an earlier addDeposit has not been answered. */
  predicate AddedTooEarly(s: State, d: PullDeposit, q: nat) {
    && d.cid !in s.log.known && !HasOpenDeposit(s.watch.deposits, d.contract) && Lower(d.contract) !in s.watch.timers
    && q < |s.seedings| && s.seedings[q].at.AskHead? && Lower(s.seedings[q].contract) == Lower(d.contract)
  }

  function SeededBy(s: State, q: nat): State
    requires q < |s.seedings| && s.seedings[q].at.AskHead?
  {
    DoSeed(s.(seedings := s.seedings[q := Seeding(s.seedings[q].contract, HeadSeen(s.blocks.head))]), q)
  }

  /** A seeding is answered and installed. */
  lemma Seeds(s: State, q: nat)
    requires q < |s.seedings| && s.seedings[q].at.AskHead?
    ensures Run(s, [ServeSeed(q), OnSeed(q)]) == SeededBy(s, q)
  {
    var s1 := s.(seedings := s.seedings[q := Seeding(s.seedings[q].contract, HeadSeen(s.blocks.head))]);
    assert Step(s, ServeSeed(q)) == s1;
    RunTwo(s, ServeSeed(q), OnSeed(q), s1);
  }

  lemma SeededIs(s: State, q: nat)
    requires q < |s.seedings| && s.seedings[q].at.AskHead?
    ensures var s', contract := SeededBy(s, q), s.seedings[q].contract;
            && s'.watch == SeedWatch(s.watch, contract, SeedFrom(s.blocks.head)) && s'.blocks == s.blocks && s'.log.handled == s.log.handled
            && |s'.seedings| == |s.seedings| && forall r :: 0 <= r < |s.seedings| && r != q ==> s'.seedings[r] == s.seedings[r]
  {
  }

  /** Two blocks come, with one approval, in the first of them. */
  lemma BlocksCome(s: State, log: Approval)
    requires log.block == s.blocks.head + 1
    ensures Run(s, [NewBlock([log]), NewBlock([])]) == s.(blocks := Blocks(s.blocks.head + 2, s.blocks.logs + [log]))
  {
    var s1 := s.(blocks := Blocks(s.blocks.head + 1, s.blocks.logs + [log]));
    assert Step(s, NewBlock([log])) == s1;
    assert s1.blocks.logs + [] == s1.blocks.logs;
    RunTwo(s, NewBlock([log]), NewBlock([]), s1);
  }

  /** The deposit is added and its own seeding installed, one block back. */
  function Added(s: State, d: PullDeposit): State
    requires !HasOpenDeposit(s.watch.deposits, d.contract) && Lower(d.contract) !in s.watch.timers
  {
    SeededBy(DoAdd(s, d), |s.seedings|)
  }

  lemma AddsAndSeeds(s: State, d: PullDeposit, q: nat)
    requires AddedTooEarly(s, d, q)
    ensures Run(s, [AddDeposit(d)] + [ServeSeed(|s.seedings|), OnSeed(|s.seedings|)]) == Added(s, d)
  {
    RunOne(s, AddDeposit(d));
    assert Step(s, AddDeposit(d)) == DoAdd(s, d);
    RunThen(s, [AddDeposit(d)], [ServeSeed(|s.seedings|), OnSeed(|s.seedings|)]);
    Seeds(DoAdd(s, d), |s.seedings|);
  }

  lemma AddedIs(s: State, d: PullDeposit, q: nat)
    requires AddedTooEarly(s, d, q)
    ensures var s' := Added(s, d);
            && d in s'.watch.deposits && s'.watch.lastSeen == s.watch.lastSeen[Lower(d.contract) := SeedFrom(s.blocks.head)]
            && s'.blocks == s.blocks && s'.log.handled == s.log.handled && q < |s'.seedings| && s'.seedings[q] == s.seedings[q]
  {
    SeededIs(DoAdd(s, d), |s.seedings|);
    assert DoAdd(s, d).seedings[q] == s.seedings[q];
  }

  /** From such a state: the deposit is accepted and seeded; an approval for its
      contract, by whomever and of whatever value, comes in the next block; and when
      the earlier addDeposit returns, the cursor is past that approval, which
      nobody has handled, and the deposit is still open. */
  lemma PassesOver(s: State, d: PullDeposit, q: nat, owner: Address, value: nat) returns (before: seq<Event>, after: seq<Event>)
    requires KnownLogs(s) && AddedTooEarly(s, d, q)
    ensures var key, n := Lower(d.contract), |s.blocks.logs|;
            var seeded, passed := Run(s, before), Run(Run(s, before), after);
            && d in seeded.watch.deposits && key in seeded.watch.lastSeen && seeded.watch.lastSeen[key] == SeedFrom(s.blocks.head)
            && seeded.blocks == s.blocks
            && d in passed.watch.deposits && |passed.blocks.logs| == n + 1
            && passed.blocks.logs[n] == Approval(key, s.blocks.head + 1, owner, value) && n !in passed.log.handled
            && key in passed.watch.lastSeen && passed.watch.lastSeen[key] == passed.blocks.logs[n].block
  {
    var log := Approval(Lower(d.contract), s.blocks.head + 1, owner, value);
    before := [AddDeposit(d)] + [ServeSeed(|s.seedings|), OnSeed(|s.seedings|)];
    after := [NewBlock([log]), NewBlock([])] + [ServeSeed(q), OnSeed(q)];
    AddsAndSeeds(s, d, q);
    AddedIs(s, d, q);
    Arrives(Added(s, d), q, log);
  }

  lemma Arrives(s: State, q: nat, log: Approval)
    requires log.block == s.blocks.head + 1 && q < |s.seedings| && s.seedings[q].at.AskHead?
    ensures var s' := Run(s, [NewBlock([log]), NewBlock([])] + [ServeSeed(q), OnSeed(q)]);
            && s'.watch.deposits == s.watch.deposits && s'.blocks.logs == s.blocks.logs + [log] && s'.log.handled == s.log.handled
            && s'.watch.lastSeen == s.watch.lastSeen[Lower(s.seedings[q].contract) := s.blocks.head + 1]
  {
    var blocks := s.(blocks := Blocks(s.blocks.head + 2, s.blocks.logs + [log]));
    BlocksCome(s, log);
    RunThen(s, [NewBlock([log]), NewBlock([])], [ServeSeed(q), OnSeed(q)]);
    Seeds(blocks, q);
    SeededIs(blocks, q);
  }

  /** From every reachable such state: the deposit is accepted and seeded; an
      approval for its contract, by whomever and of whatever value, comes in the
      next block; and when the earlier addDeposit returns, the cursor is past that
      approval, which nobody has handled, and the deposit is still open. */
  lemma AddedTooEarlyIsPassedOver(balances: Balances, events: seq<Event>, d: PullDeposit, q: nat, owner: Address, value: nat)
    returns (before: seq<Event>, after: seq<Event>)
    requires AddedTooEarly(Run(Start(balances), events), d, q)
    ensures var s, key := Run(Start(balances), events), Lower(d.contract);
            var seeded, passed, n := Run(s, before), Run(Run(s, before), after), |s.blocks.logs|;
            && d in seeded.watch.deposits && key in seeded.watch.lastSeen && seeded.watch.lastSeen[key] == SeedFrom(s.blocks.head)
            && d in passed.watch.deposits && |passed.blocks.logs| == n + 1
            && passed.blocks.logs[n] == Approval(key, s.blocks.head + 1, owner, value) && n !in passed.log.handled
            && key in passed.watch.lastSeen && passed.watch.lastSeen[key] == passed.blocks.logs[n].block
  {
    HandledAreLogs(balances, events);
    before, after := PassesOver(Run(Start(balances), events), d, q, owner, value);
  }
}
