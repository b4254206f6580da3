/** A pull needs an allowance (approval-watcher.ts:142-170): over whole runs no
    transferFrom is confirmed for more than the chain answered, to this very
    activation, for the owner it takes from; and an undisturbed poll pulls exactly
    if allowance and balance cover what is desired. */
module PullAllowance {
  import opened Wrappers
  import opened Chain
  import opened Amounts
  import opened PullWatcher
  import opened PullSafety
  import opened PullAmounts
  import opened PullRuns

  /** The chain's answer that is being acted on covers `amount` for this owner. */
  predicate Covers(s: State, p: nat, d: PullDeposit, owner: Address, amount: int) {
    LogInHand(s, p) && LogOf(s, p).owner == owner && s.polls[p].at.AllowanceInFlight? && s.polls[p].at.d == d && amount <= s.polls[p].at.allowance
  }

  /** At some point of the run the activation acted on such an answer. */
  ghost predicate Allowed(s: State, events: seq<Event>, p: nat, d: PullDeposit, owner: Address, amount: int) {
    exists k :: 0 <= k < |events| && events[k] == OnAllowance(p) && Covers(Run(s, events[..k]), p, d, owner, amount)
  }

  ghost predicate AllowedAnywhere(s: State, events: seq<Event>, pull: Pull) {
    exists p :: Allowed(s, events, p, pull.d, pull.owner, pull.amount)
  }

  ghost predicate OnlyAllowed(s: State, events: seq<Event>) {
    var now := Run(s, events);
    && (forall p :: 0 <= p < |now.polls| && Committed(now.polls[p].at) ==>
          LogInHand(now, p) && Allowed(s, events, p, now.polls[p].at.d, LogOf(now, p).owner, AmountOf(now.polls[p].at)))
    && (forall i :: 0 <= i < |now.log.pulls| ==> AllowedAnywhere(s, events, now.log.pulls[i]))
  }

  predicate KeepsTo(at: Await, at': Await) {
    Committed(at) && Committed(at') && at'.d == at.d && AmountOf(at') == AmountOf(at)
  }

  /** An activation is committed to an amount only by acting on an answer, and then keeps to it. */
  ghost predicate PollHeeds(s: State, s': State, e: Event, p: nat) {
    p < |s'.polls| && Committed(s'.polls[p].at) ==>
      && LogInHand(s, p) && LogInHand(s', p) && LogOf(s', p).owner == LogOf(s, p).owner
      && (KeepsTo(s.polls[p].at, s'.polls[p].at)
          || (e == OnAllowance(p) && Covers(s, p, s'.polls[p].at.d, LogOf(s, p).owner, AmountOf(s'.polls[p].at))))
  }

  predicate MinedBy(s: State, p: nat, pull: Pull) {
    LogInHand(s, p) && Committed(s.polls[p].at) && pull.d == s.polls[p].at.d && pull.amount == AmountOf(s.polls[p].at) && pull.owner == LogOf(s, p).owner
  }

  /** A pull was there before, or an activation committed to it. */
  ghost predicate PullHeeds(s: State, s': State, i: nat) {
    i < |s'.log.pulls| ==>
      || (i < |s.log.pulls| && s'.log.pulls[i].(told := false) == s.log.pulls[i].(told := false))
      || exists p :: MinedBy(s, p, s'.log.pulls[i])
  }

  ghost predicate Heeds(s: State, s': State, e: Event) {
    (forall p :: PollHeeds(s, s', e, p)) && (forall i :: PullHeeds(s, s', i))
  }

  /** Only activation `p` goes on, and pulls are at most told of. */
  ghost predicate OneHeeds(s: State, s': State, e: Event, p: nat) {
    && s'.blocks == s.blocks && p < |s.polls| == |s'.polls| && s'.polls == s.polls[p := s'.polls[p]]
    && PollHeeds(s, s', e, p)
    && |s'.log.pulls| == |s.log.pulls|
    && forall i :: 0 <= i < |s.log.pulls| ==> s'.log.pulls[i].(told := false) == s.log.pulls[i].(told := false)
  }

  ghost predicate InHand(s: State) {
    forall p :: 0 <= p < |s.polls| && Committed(s.polls[p].at) ==> LogInHand(s, p)
  }

  lemma AmountsInHand(s: State)
    requires AmountsOk(s)
    ensures InHand(s)
  {
    forall p | 0 <= p < |s.polls| && Committed(s.polls[p].at) ensures LogInHand(s, p) {
      assert Decided(s.blocks, s.polls[p]);
    }
  }

  lemma OneIsEnough(s: State, s': State, e: Event, p: nat)
    requires InHand(s) && OneHeeds(s, s', e, p)
    ensures Heeds(s, s', e)
  {
    forall q | 0 <= q < |s'.polls| && q != p ensures PollHeeds(s, s', e, q) {
      assert s'.polls[q] == s.polls[q];
    }
  }

  lemma AllowanceHeeds(s: State, p: nat)
    requires Enabled(s, OnAllowance(p))
    ensures OneHeeds(s, Step(s, OnAllowance(p)), OnAllowance(p), p)
  {
  }

  lemma FetchHeeds(s: State, e: Event)
    requires Enabled(s, e) && (e.ServeHead? || e.OnHead? || e.ServeLogs? || e.OnLogs? || e.OnNextLog? || e.ServeAllowance?)
    ensures OneHeeds(s, Step(s, e), e, e.p)
  {
  }

  lemma SettlingHeeds(s: State, e: Event)
    requires InHand(s) && Enabled(s, e) && (e.OnGas? || e.OnReceipt? || e.OnCallback?)
    ensures OneHeeds(s, Step(s, e), e, e.p)
  {
  }

  lemma FailHeeds(s: State, p: nat)
    requires InHand(s) && Enabled(s, Fail(p))
    ensures OneHeeds(s, Step(s, Fail(p)), Fail(p), p)
  {
  }

  lemma MineHeeds(s: State, p: nat, accepted: bool)
    requires InHand(s) && InMempool(s, p)
    ensures Heeds(s, DoMine(s, p, accepted), Mine(p, accepted))
  {
    var s' := DoMine(s, p, accepted);
    forall q | 0 <= q < |s'.polls| ensures PollHeeds(s, s', Mine(p, accepted), q) {
      assert q != p ==> s'.polls[q] == s.polls[q];
    }
    if |s'.log.pulls| > |s.log.pulls| {
      assert MinedBy(s, p, s'.log.pulls[|s.log.pulls|]);
    }
  }

  lemma AsideHeeds(s: State, e: Event)
    requires InHand(s) && Enabled(s, e)
    requires e.AddDeposit? || e.ServeSeed? || e.OnSeed? || e.FailSeed? || e.Tick? || e.NewBlock? || e.Move?
    ensures Heeds(s, Step(s, e), e)
  {
    AsideIs(s, e);
    AsideIsEnough(s, Step(s, e), e);
  }

  /** No activation goes on; one may start, and logs may come. */
  ghost predicate Aside(s: State, s': State) {
    && s'.log.pulls == s.log.pulls && s.blocks.logs <= s'.blocks.logs && s.polls <= s'.polls
    && forall q :: |s.polls| <= q < |s'.polls| ==> s'.polls[q].at.Head?
  }

  lemma AsideIs(s: State, e: Event)
    requires Enabled(s, e)
    requires e.AddDeposit? || e.ServeSeed? || e.OnSeed? || e.FailSeed? || e.Tick? || e.NewBlock? || e.Move?
    ensures Aside(s, Step(s, e))
  {
  }

  lemma AsideIsEnough(s: State, s': State, e: Event)
    requires InHand(s) && Aside(s, s')
    ensures Heeds(s, s', e)
  {
    forall q | 0 <= q < |s'.polls| && Committed(s'.polls[q].at) ensures PollHeeds(s, s', e, q) {
      assert q < |s.polls| && s'.polls[q] == s.polls[q];
    }
  }

  lemma StepHeeds(s: State, e: Event)
    requires InHand(s)
    ensures Heeds(s, Step(s, e), e)
  {
    if !Enabled(s, e) {
    } else if e.Mine? {
      MineHeeds(s, e.p, e.accepted);
    } else if e.AddDeposit? || e.ServeSeed? || e.OnSeed? || e.FailSeed? || e.Tick? || e.NewBlock? || e.Move? {
      AsideHeeds(s, e);
    } else {
      if e.OnAllowance? {
        AllowanceHeeds(s, e.p);
      } else if e.OnGas? || e.OnReceipt? || e.OnCallback? {
        SettlingHeeds(s, e);
      } else if e.Fail? {
        FailHeeds(s, e.p);
      } else {
        FetchHeeds(s, e);
      }
      OneIsEnough(s, Step(s, e), e, e.p);
    }
  }

  lemma AllowedLater(s: State, events: seq<Event>, e: Event, p: nat, d: PullDeposit, owner: Address, amount: int)
    requires Allowed(s, events, p, d, owner, amount)
    ensures Allowed(s, events + [e], p, d, owner, amount)
  {
    var k :| 0 <= k < |events| && events[k] == OnAllowance(p) && Covers(Run(s, events[..k]), p, d, owner, amount);
    assert (events + [e])[..k] == events[..k] && (events + [e])[k] == events[k];
  }

  lemma AllowedNow(s: State, events: seq<Event>, p: nat, d: PullDeposit, owner: Address, amount: int)
    requires Covers(Run(s, events), p, d, owner, amount)
    ensures Allowed(s, events + [OnAllowance(p)], p, d, owner, amount)
  {
    assert (events + [OnAllowance(p)])[..|events|] == events && (events + [OnAllowance(p)])[|events|] == OnAllowance(p);
  }

  lemma PollsStayAllowed(s: State, events: seq<Event>, e: Event, p: nat)
    requires OnlyAllowed(s, events) && PollHeeds(Run(s, events), Run(s, events + [e]), e, p)
    ensures var now := Run(s, events + [e]);
            p < |now.polls| && Committed(now.polls[p].at) ==>
              LogInHand(now, p) && Allowed(s, events + [e], p, now.polls[p].at.d, LogOf(now, p).owner, AmountOf(now.polls[p].at))
  {
    var before, now := Run(s, events), Run(s, events + [e]);
    if p < |now.polls| && Committed(now.polls[p].at) {
      if !KeepsTo(before.polls[p].at, now.polls[p].at) {
        AllowedNow(s, events, p, now.polls[p].at.d, LogOf(before, p).owner, AmountOf(now.polls[p].at));
      } else {
        AllowedLater(s, events, e, p, before.polls[p].at.d, LogOf(before, p).owner, AmountOf(before.polls[p].at));
      }
    }
  }

  lemma PullsStayAllowed(s: State, events: seq<Event>, e: Event, i: nat)
    requires OnlyAllowed(s, events) && PullHeeds(Run(s, events), Run(s, events + [e]), i) && i < |Run(s, events + [e]).log.pulls|
    ensures AllowedAnywhere(s, events + [e], Run(s, events + [e]).log.pulls[i])
  {
    var before, pull := Run(s, events), Run(s, events + [e]).log.pulls[i];
    if i < |before.log.pulls| && pull.(told := false) == before.log.pulls[i].(told := false) {
      assert AllowedAnywhere(s, events, before.log.pulls[i]);
      var p :| Allowed(s, events, p, pull.d, pull.owner, pull.amount);
      AllowedLater(s, events, e, p, pull.d, pull.owner, pull.amount);
    } else {
      var p :| MinedBy(before, p, pull);
      AllowedLater(s, events, e, p, pull.d, pull.owner, pull.amount);
    }
  }

  lemma {:induction false} RunIsAllowed(balances: Balances, events: seq<Event>)
    ensures OnlyAllowed(Start(balances), events)
    decreases |events|
  {
    if events != [] {
      var s, init, e := Start(balances), events[..|events| - 1], events[|events| - 1];
      assert events == init + [e];
      RunIsAllowed(balances, init);
      RunKeepsAmounts(balances, init);
      AmountsInHand(Run(s, init));
      StepHeeds(Run(s, init), e);
      RunSnoc(s, init, e);
      var now := Run(s, events);
      forall p | 0 <= p < |now.polls| && Committed(now.polls[p].at)
        ensures LogInHand(now, p) && Allowed(s, events, p, now.polls[p].at.d, LogOf(now, p).owner, AmountOf(now.polls[p].at))
      {
        PollsStayAllowed(s, init, e, p);
      }
      forall i | 0 <= i < |now.log.pulls| ensures AllowedAnywhere(s, events, now.log.pulls[i]) {
        PullsStayAllowed(s, init, e, i);
      }
    }
  }

  /** Under every interleaving each confirmed transferFrom goes back to an answer
      of the chain, to one activation, that the owner it takes from allowed at
      least its amount. */
  lemma PulledOnlyWhenAllowed(balances: Balances, events: seq<Event>, i: nat)
    requires i < |Run(Start(balances), events).log.pulls|
    ensures var pull := Run(Start(balances), events).log.pulls[i];
            exists p, k :: 0 <= k < |events| && events[k] == OnAllowance(p)
                           && Covers(Run(Start(balances), events[..k]), p, pull.d, pull.owner, pull.amount)
  {
    RunIsAllowed(balances, events);
    var pull := Run(Start(balances), events).log.pulls[i];
    assert AllowedAnywhere(Start(balances), events, pull);
    var p :| Allowed(Start(balances), events, p, pull.d, pull.owner, pull.amount);
  }

  /* ---- the undisturbed poll ---- */

  lemma NothingOpen(s: State, p: nat, allowance: nat)
    requires LogInHand(s, p) && s.polls[p].at.NextLog? && FindMatching(s.watch.deposits, s.polls[p].contract).NoMatch?
    ensures Run(s, Ask(p, allowance)) == Handled(s, p)
  {
    var s1 := Handled(s, p);
    assert Step(s, OnNextLog(p)) == s1;
    assert Step(s1, ServeAllowance(p, allowance)) == s1;
    RunTriple(s, OnNextLog(p), ServeAllowance(p, allowance), OnAllowance(p), s1, s1);
  }

  lemma Asked(s: State, p: nat, d: PullDeposit, allowance: nat)
    requires LogInHand(s, p) && s.polls[p].at.NextLog? && FindMatching(s.watch.deposits, s.polls[p].contract) == Found(d)
    ensures Run(s, Ask(p, allowance)) == Step(Put(s, p, AllowanceInFlight(d, allowance)), OnAllowance(p))
  {
    var s1, s2 := Put(s, p, Allowance(d)), Put(s, p, AllowanceInFlight(d, allowance));
    assert Step(s, OnNextLog(p)) == s1;
    PutTwice(s, p, Allowance(d), AllowanceInFlight(d, allowance));
    assert Step(s1, ServeAllowance(p, allowance)) == s2;
    RunTriple(s, OnNextLog(p), ServeAllowance(p, allowance), OnAllowance(p), s1, s2);
  }

  /** What the answer leads to: a transfer is prepared, or this log is over. */
  ghost predicate Answered(s: State, s': State, p: nat, d: PullDeposit, allowance: nat)
    requires LogInHand(s, p)
  {
    && s'.log.pulls == s.log.pulls && At(s', p)
    && if s'.polls[p].at.Gas? then
         && !d.expected.Unreadable? && Desired(d, LogOf(s, p).value) <= allowance
         && s' == Put(s, p, Gas(d, Desired(d, LogOf(s, p).value)))
       else s'.polls[p].at.NextLog? || s'.polls[p].at.Ended?
  }

  lemma Answers(s: State, p: nat, d: PullDeposit, allowance: nat)
    requires LogInHand(s, p)
    ensures Answered(s, Step(Put(s, p, AllowanceInFlight(d, allowance)), OnAllowance(p)), p, d, allowance)
  {
    var asked := Put(s, p, AllowanceInFlight(d, allowance));
    assert LogOf(asked, p) == LogOf(s, p) && Step(asked, OnAllowance(p)) == DoAllowance(asked, p);
    if !d.expected.Unreadable? {
      PutTwice(s, p, AllowanceInFlight(d, allowance), Gas(d, Desired(d, LogOf(s, p).value)));
    }
  }

  lemma NothingToSend(s: State, p: nat)
    requires At(s, p) && (s.polls[p].at.NextLog? || s.polls[p].at.Ended?)
    ensures Run(s, Send(p)) == s
  {
    assert Step(s, OnGas(p)) == s;
    RunTwo(s, OnGas(p), Mine(p, true), s);
  }

  lemma SendsNothing(s: State, p: nat)
    requires LogInHand(s, p) && s.polls[p].at.Gas?
    requires s.polls[p].at.desired < 0 || BalanceOf(s.balances, Lower(s.polls[p].at.d.contract), LogOf(s, p).owner) < s.polls[p].at.desired
    ensures Run(s, Send(p)).log.pulls == s.log.pulls
  {
    var s1 := if s.polls[p].at.desired < 0 then Leave(s, p, Ended) else Put(s, p, Mining(s.polls[p].at.d, s.polls[p].at.desired));
    assert Step(s, OnGas(p)) == s1;
    assert LogOf(s1, p) == LogOf(s, p);
    RunTwo(s, OnGas(p), Mine(p, true), s1);
  }

  /** Whatever the chain answers, an undisturbed poll pulls for the log in hand
      exactly if some open deposit matches, its expectation can be read, and
      both the allowance and the owner's balance cover what is desired. */
  lemma PullsExactlyWhenAllowed(s: State, p: nat, allowance: nat)
    requires LogInHand(s, p) && s.polls[p].at.NextLog?
    ensures var m := FindMatching(s.watch.deposits, s.polls[p].contract);
            Run(s, Handle(p, allowance)).log.pulls
            == if m.Found? && Pullable(s, p, m.d, allowance)
               then s.log.pulls + [Pull(m.d, LogOf(s, p).owner, Desired(m.d, LogOf(s, p).value), false)] else s.log.pulls
  {
    var m := FindMatching(s.watch.deposits, s.polls[p].contract);
    if m.Found? && Pullable(s, p, m.d, allowance) {
      Handles(s, p, m.d, allowance);
    } else {
      RunThen(s, Ask(p, allowance), Send(p));
      var asked := Run(s, Ask(p, allowance));
      if m.NoMatch? {
        NothingOpen(s, p, allowance);
        NothingToSend(asked, p);
      } else {
        Asked(s, p, m.d, allowance);
        Answers(s, p, m.d, allowance);
        if asked.polls[p].at.Gas? {
          SendsNothing(asked, p);
        } else {
          NothingToSend(asked, p);
        }
      }
    }
  }
}
