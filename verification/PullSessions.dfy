/** Coverage from a polling session's own seed, and when sessions of a contract
    cannot get in each other's way (approval-watcher.ts:49-83). */
module PullSessions {
  import opened Wrappers
  import opened Chain
  import opened PullWatcher
  import opened PullSafety
  import opened PullCoverage
  import opened PullStranded

  /** The event installs a session of the contract. */
  predicate Installs(s: State, e: Event, key: Address) {
    e.OnSeed? && Enabled(s, e) && Lower(s.seedings[e.q].contract) == key
  }

  /** The seed of the last session installed for a contract. */
  ghost function OwnSeed(s: State, events: seq<Event>, key: Address): Option<nat>
    decreases |events|
  {
    if events == [] then None else
    var before, e := Run(s, events[..|events| - 1]), events[|events| - 1];
    if Installs(before, e, key) then Some(SeedFrom(before.seedings[e.q].at.block)) else OwnSeed(s, events[..|events| - 1], key)
  }

  lemma SeedsChangeOnlyBy(s: State, e: Event, key: Address)
    requires !Installs(s, e, key)
    ensures key in Step(s, e).log.seeds <==> key in s.log.seeds
    ensures key in s.log.seeds ==> Step(s, e).log.seeds[key] == s.log.seeds[key]
  {
    if !(e.OnSeed? && Enabled(s, e)) {
      SeedsStay(s, e);
    }
  }

  lemma SeedsStay(s: State, e: Event)
    requires !(e.OnSeed? && Enabled(s, e))
    ensures Step(s, e).log.seeds == s.log.seeds
  {
    if Enabled(s, e) && OfPoll(e) {
      PollLeavesSeedings(s, e);
    }
  }

  lemma {:induction false} HighestIsOwn(balances: Balances, events: seq<Event>, key: Address)
    requires SeedsNeverOverlap(Start(balances), events)
    ensures var s, own := Run(Start(balances), events), OwnSeed(Start(balances), events, key);
            (key in s.log.seeds <==> own.Some?) && (own.Some? ==> s.log.seeds[key] == own.value)
    decreases |events|
  {
    if events != [] {
      var init, e := events[..|events| - 1], events[|events| - 1];
      assert SeedsNeverOverlap(Start(balances), init);
      HighestIsOwn(balances, init, key);
      if Installs(Run(Start(balances), init), e, key) {
        RunKeepsSeedsInOrder(balances, init);
        StepKeepsSeedsInOrder(Run(Start(balances), init), e);
      } else {
        SeedsChangeOnlyBy(Run(Start(balances), init), e, key);
      }
    }
  }

  /** In every state of a session each Approval log of the contract in the blocks
      after the session's own seed, up to and including the cursor, has been
      handled without a throw. */
  lemma SessionCovered(balances: Balances, events: seq<Event>, key: Address, i: nat)
    requires SeedsNeverOverlap(Start(balances), events)
    requires var s := Run(Start(balances), events);
             && key in s.watch.lastSeen && i < |s.blocks.logs| && s.blocks.logs[i].contract == key
             && s.blocks.logs[i].block <= s.watch.lastSeen[key]
    ensures var s, own := Run(Start(balances), events), OwnSeed(Start(balances), events, key);
            own.Some? && (s.blocks.logs[i].block > own.value ==> i in s.log.handled)
  {
    NoApprovalSkipped(balances, events, key, i);
    HighestIsOwn(balances, events, key);
  }

  /* ---- when seedings never overlap ---- */

  /** If this is an accepted deposit, every earlier addDeposit on its contract has
      returned: none is still waiting for its block number. */
  predicate AddedInTurn(s: State, e: Event) {
    e.AddDeposit? && Enabled(s, e) && !HasOpenDeposit(s.watch.deposits, e.deposit.contract) ==> !Pending(s, Lower(e.deposit.contract))
  }

  ghost predicate AddsInTurn(s: State, events: seq<Event>)
    decreases |events|
  {
    events == [] || (AddsInTurn(s, events[..|events| - 1]) && AddedInTurn(Run(s, events[..|events| - 1]), events[|events| - 1]))
  }

  /** Every running interval is the one its contract's timer names. */
  ghost predicate NoStrayTimer(w: Watch) {
    && (forall t :: t in w.intervals ==> t < w.nextTimer && Lower(w.intervals[t]) in w.timers && w.timers[Lower(w.intervals[t])] == t)
    && (forall key :: key in w.timers ==> w.timers[key] < w.nextTimer && w.timers[key] in w.intervals && Lower(w.intervals[w.timers[key]]) == key)
  }

  /** While a seeding is on its way its contract has no timer. */
  ghost predicate SeedingsFirst(s: State) {
    forall q :: 0 <= q < |s.seedings| && !s.seedings[q].at.Seeded? ==> Lower(s.seedings[q].contract) !in s.watch.timers
  }

  ghost predicate Sessions(s: State) { NoStrayTimer(s.watch) && SeedsApart(s) && SeedingsFirst(s) }

  lemma AddKeepsSessions(s: State, d: PullDeposit)
    requires Sessions(s) && (HasOpenDeposit(s.watch.deposits, d.contract) || !Pending(s, Lower(d.contract)))
    ensures Sessions(DoAdd(s, d))
  {
    if !HasOpenDeposit(s.watch.deposits, d.contract) {
      forall q | 0 <= q < |s.seedings| && !s.seedings[q].at.Seeded? ensures Lower(s.seedings[q].contract) != Lower(d.contract) {
      }
    }
  }

  /** A seeding that is answered or fails. */
  lemma AnswerKeepsSessions(s: State, e: Event)
    requires Sessions(s) && Enabled(s, e) && (e.ServeSeed? || e.FailSeed?)
    ensures Sessions(Step(s, e))
  {
    var s' := Step(s, e);
    forall q | 0 <= q < |s'.seedings| && !s'.seedings[q].at.Seeded?
      ensures !s.seedings[q].at.Seeded? && s'.seedings[q].contract == s.seedings[q].contract
    {
    }
  }

  lemma SeedKeepsSessions(s: State, q: nat)
    requires Sessions(s) && Enabled(s, OnSeed(q))
    ensures Sessions(DoSeed(s, q))
  {
    var s' := DoSeed(s, q);
    SeedKeepsTimers(s.watch, s.seedings[q].contract, SeedFrom(s.seedings[q].at.block));
    forall r | 0 <= r < |s'.seedings| && !s'.seedings[r].at.Seeded?
      ensures s'.seedings[r] == s.seedings[r] && Lower(s.seedings[r].contract) != Lower(s.seedings[q].contract)
    {
      assert r != q && s'.seedings[r] == s.seedings[r];
      assert r < q || q < r;
    }
  }

  lemma SeedKeepsTimers(w: Watch, contract: Address, seed: nat)
    requires NoStrayTimer(w) && Lower(contract) !in w.timers
    ensures NoStrayTimer(SeedWatch(w, contract, seed))
  {
  }

  predicate SameTimers(w: Watch, w': Watch) { w'.timers == w.timers && w'.intervals == w.intervals && w'.nextTimer == w.nextTimer }

  predicate StopsOne(w: Watch, w': Watch, contract: Address) { SameTimers(StopPolling(w, contract), w') }

  /** Seedings stay, and polling of a contract at most stops. */
  ghost predicate AtMostStops(s: State, s': State) {
    s'.seedings == s.seedings && (SameTimers(s.watch, s'.watch) || exists contract :: StopsOne(s.watch, s'.watch, contract))
  }

  lemma StoppingKeepsSessions(s: State, s': State)
    requires Sessions(s) && AtMostStops(s, s')
    ensures Sessions(s')
  {
    if !SameTimers(s.watch, s'.watch) {
      var contract :| StopsOne(s.watch, s'.watch, contract);
    }
  }

  lemma TickAtMostStops(s: State, timer: nat)
    requires timer in s.watch.intervals
    ensures AtMostStops(s, DoTick(s, timer))
  {
    var s', contract := DoTick(s, timer), s.watch.intervals[timer];
    assert SameTimers(s.watch, s'.watch) || StopsOne(s.watch, s'.watch, contract);
  }

  lemma ReceiptAtMostStops(s: State, p: nat)
    requires At(s, p) && s.polls[p].at.Pulled? && s.polls[p].at.tx < |s.log.pulls|
    ensures AtMostStops(s, DoReceipt(s, p))
  {
    var s', contract := DoReceipt(s, p), s.polls[p].contract;
    assert SameTimers(s.watch, s'.watch) || StopsOne(s.watch, s'.watch, contract);
  }

  lemma OthersStopNothing(s: State, e: Event)
    requires Enabled(s, e)
    requires !e.AddDeposit? && !e.ServeSeed? && !e.OnSeed? && !e.FailSeed? && !e.Tick? && !(e.OnReceipt? && s.polls[e.p].at.Pulled?)
    ensures AtMostStops(s, Step(s, e))
  {
    if e.OnReceipt? {
      assert Step(s, e) == Handled(s, e.p);
    } else {
      TimersStay(s, e);
    }
    assert SameTimers(s.watch, Step(s, e).watch);
  }

  lemma StepKeepsSessions(s: State, e: Event)
    requires Sessions(s) && AddedInTurn(s, e)
    ensures Sessions(Step(s, e))
  {
    if Enabled(s, e) {
      if e.AddDeposit? {
        AddKeepsSessions(s, e.deposit);
      } else if e.ServeSeed? || e.FailSeed? {
        AnswerKeepsSessions(s, e);
      } else if e.OnSeed? {
        SeedKeepsSessions(s, e.q);
      } else {
        if e.Tick? {
          TickAtMostStops(s, e.timer);
        } else if e.OnReceipt? && s.polls[e.p].at.Pulled? {
          ReceiptAtMostStops(s, e.p);
        } else {
          OthersStopNothing(s, e);
        }
        StoppingKeepsSessions(s, Step(s, e));
      }
    }
  }

  /** A deposit added out of turn makes two seedings overlap at once. */
  lemma OutOfTurnOverlaps(s: State, e: Event)
    requires SeedingsFirst(s) && !AddedInTurn(s, e)
    ensures !SeedsApart(Step(s, e))
  {
    var s', key := Step(s, e), Lower(e.deposit.contract);
    var q :| 0 <= q < |s.seedings| && !s.seedings[q].at.Seeded? && Lower(s.seedings[q].contract) == key;
    assert s'.seedings[q] == s.seedings[q] && s'.seedings[|s.seedings|] == Seeding(e.deposit.contract, AskHead);
  }

  /** Seedings of a contract never overlap if and only if no deposit is accepted on
      it while an earlier addDeposit has not returned; and then no timer is ever
      lost track of. */
  lemma {:induction false} NeverOverlapIff(balances: Balances, events: seq<Event>)
    ensures SeedsNeverOverlap(Start(balances), events) <==> AddsInTurn(Start(balances), events)
    ensures AddsInTurn(Start(balances), events) ==> Sessions(Run(Start(balances), events))
    decreases |events|
  {
    if events != [] {
      var init, e := events[..|events| - 1], events[|events| - 1];
      var s := Run(Start(balances), init);
      NeverOverlapIff(balances, init);
      if AddsInTurn(Start(balances), init) {
        if AddedInTurn(s, e) {
          StepKeepsSessions(s, e);
        } else {
          OutOfTurnOverlaps(s, e);
        }
      }
    }
  }

  /** Block coverage of a session, from a condition whoever adds deposits can see
      to: await one addDeposit on a contract before the next. */
  lemma AddedInTurnIsCovered(balances: Balances, events: seq<Event>, key: Address, i: nat)
    requires AddsInTurn(Start(balances), events)
    requires var s := Run(Start(balances), events);
             && key in s.watch.lastSeen && i < |s.blocks.logs| && s.blocks.logs[i].contract == key
             && s.blocks.logs[i].block <= s.watch.lastSeen[key]
    ensures var s, own := Run(Start(balances), events), OwnSeed(Start(balances), events, key);
            own.Some? && (s.blocks.logs[i].block > own.value ==> i in s.log.handled)
  {
    NeverOverlapIff(balances, events);
    SessionCovered(balances, events, key, i);
  }
}
