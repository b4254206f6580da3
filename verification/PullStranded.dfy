/** A deposit nobody polls for: addDeposit stores the deposit before it asks for
    the block number, and if that call throws nothing takes the deposit back
    (approval-watcher.ts:49-75). */
module PullStranded {
  import opened Wrappers
  import opened Chain
  import opened PullWatcher
  import opened PullSafety
  import opened PullOnce

  predicate OpenOn(s: State, key: Address) { exists i :: 0 <= i < |s.watch.deposits| && Lower(s.watch.deposits[i].contract) == key }

  /** An ensurePolling of the contract is waiting for its block number. */
  predicate Pending(s: State, key: Address) {
    exists q :: 0 <= q < |s.seedings| && !s.seedings[q].at.Seeded? && Lower(s.seedings[q].contract) == key
  }

  predicate Attended(s: State, key: Address) { key in s.watch.timers || Pending(s, key) }

  /** This is the block number of an ensurePolling of the contract failing to come. */
  predicate FailsSeeding(s: State, e: Event, key: Address) {
    e.FailSeed? && Enabled(s, e) && Lower(s.seedings[e.q].contract) == key
  }

  ghost predicate SeedingFailed(s: State, events: seq<Event>, key: Address)
    decreases |events|
  {
    events != [] &&
    (SeedingFailed(s, events[..|events| - 1], key) || FailsSeeding(Run(s, events[..|events| - 1]), events[|events| - 1], key))
  }

  /* ---- an open deposit is attended to unless a seeding failed ---- */

  lemma SeedAttends(s: State, e: Event, key: Address)
    requires Attended(s, key) && Enabled(s, e) && (e.ServeSeed? || e.OnSeed? || e.FailSeed?) && !FailsSeeding(s, e, key)
    ensures Attended(Step(s, e), key)
  {
    var s' := Step(s, e);
    if key !in s.watch.timers {
      var q :| 0 <= q < |s.seedings| && !s.seedings[q].at.Seeded? && Lower(s.seedings[q].contract) == key;
      assert q != e.q ==> s'.seedings[q] == s.seedings[q];
      assert s'.seedings[q].contract == s.seedings[q].contract;
    }
  }

  lemma AddAttends(s: State, d: PullDeposit, key: Address)
    requires Attended(s, key) || (Lower(d.contract) == key && !HasOpenDeposit(s.watch.deposits, d.contract))
    ensures Attended(DoAdd(s, d), key)
  {
    var s' := DoAdd(s, d);
    if Pending(s, key) {
      var q :| 0 <= q < |s.seedings| && !s.seedings[q].at.Seeded? && Lower(s.seedings[q].contract) == key;
      assert s'.seedings[q] == s.seedings[q];
    } else if key !in s.watch.timers {
      assert s'.seedings[|s.seedings|] == Seeding(d.contract, AskHead);
    }
  }

  /** Polling of a contract stops only when nothing on it is open. */
  lemma StopAttends(s: State, e: Event, key: Address)
    requires Attended(s, key) && Enabled(s, e) && (e.Tick? || e.OnReceipt?) && OpenOn(Step(s, e), key)
    ensures Attended(Step(s, e), key)
  {
  }

  lemma OthersAttend(s: State, e: Event, key: Address)
    requires Attended(s, key) && Enabled(s, e)
    requires !e.AddDeposit? && !e.ServeSeed? && !e.OnSeed? && !e.FailSeed? && !e.Tick? && !e.OnReceipt?
    ensures Attended(Step(s, e), key)
  {
    TimersStay(s, e);
  }

  lemma TimersStay(s: State, e: Event)
    requires !e.AddDeposit? && !e.ServeSeed? && !e.OnSeed? && !e.FailSeed? && !e.Tick? && !e.OnReceipt?
    ensures Step(s, e).watch.timers == s.watch.timers && Step(s, e).seedings == s.seedings
    ensures Step(s, e).watch.deposits == s.watch.deposits && Step(s, e).watch.intervals == s.watch.intervals
    ensures Step(s, e).watch.nextTimer == s.watch.nextTimer
  {
    if Enabled(s, e) && (e.ServeHead? || e.OnHead? || e.ServeLogs? || e.OnLogs? || e.OnNextLog?) {
      FetchingStays(s, e);
    }
  }

  lemma FetchingStays(s: State, e: Event)
    requires Enabled(s, e) && (e.ServeHead? || e.OnHead? || e.ServeLogs? || e.OnLogs? || e.OnNextLog?)
    ensures Step(s, e).watch.timers == s.watch.timers && Step(s, e).seedings == s.seedings
    ensures Step(s, e).watch.deposits == s.watch.deposits && Step(s, e).watch.intervals == s.watch.intervals
    ensures Step(s, e).watch.nextTimer == s.watch.nextTimer
  {
  }

  lemma StepAttends(s: State, e: Event, key: Address)
    requires OpenOn(s, key) ==> Attended(s, key)
    requires OpenOn(Step(s, e), key) && !FailsSeeding(s, e, key)
    ensures Attended(Step(s, e), key)
  {
    if Enabled(s, e) {
      if e.AddDeposit? {
        AddAttends(s, e.deposit, key);
      } else {
        OnlyAddingOpens(s, e, key);
        if e.ServeSeed? || e.OnSeed? || e.FailSeed? {
          SeedAttends(s, e, key);
        } else if e.Tick? || e.OnReceipt? {
          StopAttends(s, e, key);
        } else {
          OthersAttend(s, e, key);
        }
      }
    }
  }

  lemma OnlyAddingOpens(s: State, e: Event, key: Address)
    requires !e.AddDeposit? && OpenOn(Step(s, e), key)
    ensures OpenOn(s, key)
  {
    var s' := Step(s, e);
    if !e.Tick? && !e.OnReceipt? && !e.ServeSeed? && !e.OnSeed? && !e.FailSeed? {
      TimersStay(s, e);
    } else if e.OnReceipt? && Enabled(s, e) && s.polls[e.p].at.Pulled? {
      RemoveIs(s.watch.deposits, s.polls[e.p].at.d.cid);
      var i :| 0 <= i < |s'.watch.deposits| && Lower(s'.watch.deposits[i].contract) == key;
      assert s'.watch.deposits[i] in s.watch.deposits;
    }
  }

  /** In every reachable state the contract of an open deposit has a timer or a
      seeding on its way, unless a seeding of that contract has failed. */
  lemma {:induction false} OpenIsAttended(balances: Balances, events: seq<Event>, key: Address)
    requires OpenOn(Run(Start(balances), events), key)
    ensures Attended(Run(Start(balances), events), key) || SeedingFailed(Start(balances), events, key)
    decreases |events|
  {
    if events != [] {
      var init, e := events[..|events| - 1], events[|events| - 1];
      var s := Run(Start(balances), init);
      if !SeedingFailed(Start(balances), events, key) {
        if OpenOn(s, key) {
          OpenIsAttended(balances, init, key);
        }
        StepAttends(s, e, key);
      }
    }
  }

  /* ---- and if it is not, it stays that way ---- */

  /** A deposit is open, and nothing that could ever poll for it is there: no
      timer, no seeding on its way, no interval running, no activation. */
  ghost predicate Stranded(s: State, key: Address) {
    && OpenOn(s, key) && !Attended(s, key)
    && (forall t :: t in s.watch.intervals ==> Lower(s.watch.intervals[t]) != key)
    && (forall p :: 0 <= p < |s.polls| && Running(s.polls[p].at) ==> Lower(s.polls[p].contract) != key)
  }

  /** The deposits of a contract are as they were. */
  ghost predicate SameOn(s: State, s': State, key: Address) {
    forall d: PullDeposit :: Lower(d.contract) == key ==> (d in s.watch.deposits <==> d in s'.watch.deposits)
  }

  lemma OpenMeans(s: State, s': State, key: Address)
    requires OpenOn(s, key) && SameOn(s, s', key)
    ensures OpenOn(s', key)
  {
    var i :| 0 <= i < |s.watch.deposits| && Lower(s.watch.deposits[i].contract) == key;
    assert s.watch.deposits[i] in s'.watch.deposits;
  }

  lemma RefusedWhileOpen(s: State, d: PullDeposit)
    requires OpenOn(s, Lower(d.contract))
    ensures DoAdd(s, d) == s
  {
  }

  lemma AddElsewhere(s: State, d: PullDeposit, key: Address)
    requires Stranded(s, key) && Lower(d.contract) != key
    ensures Stranded(DoAdd(s, d), key) && SameOn(s, DoAdd(s, d), key)
  {
    OpenMeans(s, DoAdd(s, d), key);
  }

  lemma SeedElsewhere(s: State, e: Event, key: Address)
    requires Stranded(s, key) && Enabled(s, e) && (e.ServeSeed? || e.OnSeed? || e.FailSeed?)
    ensures Stranded(Step(s, e), key) && SameOn(s, Step(s, e), key)
  {
    var s' := Step(s, e);
    OpenMeans(s, s', key);
    assert s.seedings[e.q].at.Seeded? || Lower(s.seedings[e.q].contract) != key;
    forall q | 0 <= q < |s'.seedings| && Lower(s'.seedings[q].contract) == key ensures s'.seedings[q].at.Seeded? {
      assert q != e.q ==> s'.seedings[q] == s.seedings[q];
    }
  }

  lemma TickElsewhere(s: State, timer: nat, key: Address)
    requires Stranded(s, key) && timer in s.watch.intervals
    ensures Stranded(DoTick(s, timer), key) && SameOn(s, DoTick(s, timer), key)
  {
    OpenMeans(s, DoTick(s, timer), key);
  }

  lemma ReceiptElsewhere(s: State, p: nat, key: Address)
    requires Inv(s) && Stranded(s, key) && At(s, p) && s.polls[p].at.Pulled? && s.polls[p].at.tx < |s.log.pulls|
    ensures Stranded(DoReceipt(s, p), key) && SameOn(s, DoReceipt(s, p), key)
  {
    assert PollOk(s.log, s.polls[p]);
    RemoveIs(s.watch.deposits, s.polls[p].at.d.cid);
    assert SameOn(s, DoReceipt(s, p), key);
    OpenMeans(s, DoReceipt(s, p), key);
  }

  /** Whoever goes on was running, on the contract it was for. */
  ghost predicate PollsGoOn(s: State, s': State) {
    && |s'.polls| == |s.polls|
    && forall p :: 0 <= p < |s.polls| ==> s'.polls[p].contract == s.polls[p].contract && (Running(s'.polls[p].at) ==> Running(s.polls[p].at))
  }

  lemma ActivationsGoOn(s: State, e: Event)
    requires Enabled(s, e) && !e.AddDeposit? && !e.ServeSeed? && !e.OnSeed? && !e.FailSeed? && !e.Tick? && !e.NewBlock? && !e.Move?
    ensures PollsGoOn(s, Step(s, e))
  {
    if e.OnReceipt? || e.Mine? || e.Fail? || e.OnCallback? {
      SettlingGoesOn(s, e);
    } else {
      DecidingGoesOn(s, e);
    }
  }

  lemma SettlingGoesOn(s: State, e: Event)
    requires Enabled(s, e) && (e.OnReceipt? || e.Mine? || e.Fail? || e.OnCallback?)
    ensures PollsGoOn(s, Step(s, e))
  {
    if e.Fail? {
      FailGoesOn(s, e.p);
    } else if e.Mine? {
      MineGoesOn(s, e.p, e.accepted);
    }
  }

  lemma FailGoesOn(s: State, p: nat)
    requires Enabled(s, Fail(p))
    ensures PollsGoOn(s, DoFail(s, p))
  {
  }

  lemma MineGoesOn(s: State, p: nat, accepted: bool)
    requires InMempool(s, p)
    ensures PollsGoOn(s, DoMine(s, p, accepted))
  {
  }

  lemma DecidingGoesOn(s: State, e: Event)
    requires Enabled(s, e)
    requires e.ServeHead? || e.OnHead? || e.ServeLogs? || e.OnLogs? || e.OnNextLog? || e.ServeAllowance? || e.OnAllowance? || e.OnGas?
    ensures PollsGoOn(s, Step(s, e))
  {
    if e.OnNextLog? || e.ServeAllowance? || e.OnAllowance? || e.OnGas? {
      HandlingGoesOn(s, e);
    }
  }

  lemma HandlingGoesOn(s: State, e: Event)
    requires Enabled(s, e) && (e.OnNextLog? || e.ServeAllowance? || e.OnAllowance? || e.OnGas?)
    ensures PollsGoOn(s, Step(s, e))
  {
  }

  lemma OtherwiseStranded(s: State, e: Event, key: Address)
    requires Stranded(s, key) && Enabled(s, e)
    requires !e.AddDeposit? && !e.ServeSeed? && !e.OnSeed? && !e.FailSeed? && !e.Tick? && !(e.OnReceipt? && s.polls[e.p].at.Pulled?)
    ensures Stranded(Step(s, e), key) && SameOn(s, Step(s, e), key)
  {
    var s' := Step(s, e);
    if e.OnReceipt? {
      assert s' == Handled(s, e.p);
    } else {
      TimersStay(s, e);
    }
    if !e.NewBlock? && !e.Move? {
      ActivationsGoOn(s, e);
    }
    OpenMeans(s, s', key);
  }

  lemma StepStranded(s: State, e: Event, key: Address)
    requires Inv(s) && Stranded(s, key)
    ensures Stranded(Step(s, e), key) && SameOn(s, Step(s, e), key)
  {
    if Enabled(s, e) {
      if e.AddDeposit? {
        if Lower(e.deposit.contract) == key { RefusedWhileOpen(s, e.deposit); } else { AddElsewhere(s, e.deposit, key); }
      } else if e.ServeSeed? || e.OnSeed? || e.FailSeed? {
        SeedElsewhere(s, e, key);
      } else if e.Tick? {
        TickElsewhere(s, e.timer, key);
      } else if e.OnReceipt? && s.polls[e.p].at.Pulled? {
        ReceiptElsewhere(s, e.p, key);
      } else {
        OtherwiseStranded(s, e, key);
      }
    }
  }

  /** Once stranded, stranded for good: in every continuation the deposit stays
      open, no poll of its contract starts, and no other deposit is accepted. */
  lemma {:induction false} StrandedForGood(balances: Balances, before: seq<Event>, after: seq<Event>, key: Address, d: PullDeposit)
    requires Stranded(Run(Start(balances), before), key)
    ensures var s, s' := Run(Start(balances), before), Run(Start(balances), before + after);
            Stranded(s', key) && SameOn(s, s', key) && (Lower(d.contract) == key ==> Step(s', AddDeposit(d)) == s')
    decreases |after|
  {
    if after == [] {
      assert before + after == before;
    } else {
      var init := after[..|after| - 1];
      StrandedForGood(balances, before, init, key, d);
      assert (before + after)[..|before + after| - 1] == before + init;
      Reachable(balances, before + init);
      StepStranded(Run(Start(balances), before + init), after[|after| - 1], key);
    }
  }

  /** It happens: whatever the deposit, if the block number fails to come. */
  lemma FailedSeedingStrands(balances: Balances, d: PullDeposit, next: PullDeposit)
    requires Lower(next.contract) == Lower(d.contract)
    ensures var s := Run(Start(balances), [AddDeposit(d), FailSeed(0)]);
            && d in s.watch.deposits && Stranded(s, Lower(d.contract)) && SeedingFailed(Start(balances), [AddDeposit(d), FailSeed(0)], Lower(d.contract))
            && Step(s, AddDeposit(next)) == s
  {
    var both := [AddDeposit(d), FailSeed(0)];
    assert both[..1] == [AddDeposit(d)] && [AddDeposit(d)][..0] == [];
    var s1 := Step(Start(balances), AddDeposit(d));
    assert Run(Start(balances), [AddDeposit(d)]) == s1;
    assert s1.seedings == [Seeding(d.contract, AskHead)] && s1.watch.deposits == [d];
    var s := Step(s1, FailSeed(0));
    assert s.seedings == [Seeding(d.contract, Seeded)] && s.watch.deposits[0] == d;
    RefusedWhileOpen(s, next);
  }
}
