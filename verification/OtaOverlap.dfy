/** When polls of one deposit do not overlap: the in-flight guard and the closed
    deposit rule it out as long as a poll has read the balance before the next
    one of the deposit is due (balance-watcher.ts:51-65). */
module OtaOverlap {
  import opened Chain
  import opened OtaWatcher
  import opened OtaSafety
  import opened OtaTotals

  /** Before the in-flight mark is set. */
  predicate Reading(at: Await) { at.Balance? || at.BalanceInFlight? }

  /** Past it; after the report the deposit is closed instead. */
  predicate Sweeping(at: Await) { at.Gas? || at.Mining? || at.Reverted? || at.Mined? }

  predicate Marked(s: State, poll: Poll) { Sweeping(poll.at) ==> poll.d.cid in s.inFlight }

  ghost predicate Guarded(s: State) { forall p :: 0 <= p < |s.polls| ==> Marked(s, s.polls[p]) }

  /** If this is a timer firing, no poll of its deposit is still reading. */
  ghost predicate InTime(s: State, e: Event) {
    e.Tick? && Enabled(s, e) ==>
      forall p :: 0 <= p < |s.polls| && Reading(s.polls[p].at) ==> s.polls[p].d.cid != s.watch.intervals[e.timer].cid
  }

  ghost predicate ReadsInTime(s: State, events: seq<Event>)
    decreases |events|
  {
    events == [] || (ReadsInTime(s, events[..|events| - 1]) && InTime(Run(s, events[..|events| - 1]), events[|events| - 1]))
  }

  /** Activation `p` goes on: it stays marked while it sweeps, and the mark goes
      only with the report or at its end. */
  ghost predicate GoesOn(s: State, s': State, p: nat) {
    && p < |s.polls| == |s'.polls| && s'.polls == s.polls[p := s'.polls[p]] && s'.polls[p].d == s.polls[p].d
    && (Running(s'.polls[p]) ==> Running(s.polls[p])) && Marked(s', s'.polls[p])
    && (forall cid :: cid in s.inFlight && cid !in s'.inFlight ==> cid == s.polls[p].d.cid && Running(s.polls[p]))
  }

  lemma GoingOnKeeps(s: State, s': State, p: nat)
    requires Alone(s) && Guarded(s) && GoesOn(s, s', p)
    ensures Alone(s') && Guarded(s')
  {
    forall q | 0 <= q < |s'.polls| ensures Marked(s', s'.polls[q]) {
      if q != p && Sweeping(s.polls[q].at) {
        assert s'.polls[q] == s.polls[q] && Marked(s, s.polls[q]);
        assert Running(s.polls[p]) ==> s.polls[q].d.cid != s.polls[p].d.cid;
      }
    }
  }

  lemma PollGoesOn(s: State, e: Event)
    requires Enabled(s, e) && (e.ServeBalance? || e.OnBalance? || e.OnGas? || e.Mine?) && Marked(s, s.polls[e.p])
    ensures GoesOn(s, Step(s, e), e.p)
  {
  }

  lemma SettlingGoesOn(s: State, e: Event)
    requires Enabled(s, e) && (e.OnReceipt? || e.OnCallback? || e.Fail?) && Marked(s, s.polls[e.p])
    ensures GoesOn(s, Step(s, e), e.p)
  {
  }

  /** The guard at work: a timer starts a poll only if none sweeps or reports. */
  lemma TickKeeps(s: State, timer: nat)
    requires PollsOk(s) && Alone(s) && Guarded(s) && timer in s.watch.intervals && InTime(s, Tick(timer))
    ensures Alone(DoTick(s, timer)) && Guarded(DoTick(s, timer))
  {
    var s', cid := DoTick(s, timer), s.watch.intervals[timer].cid;
    forall q | 0 <= q < |s.polls| && cid !in s.inFlight && cid in s.watch.deposits && Running(s.polls[q])
      ensures s.polls[q].d.cid != cid
    {
      assert Marked(s, s.polls[q]) && PollOk(s.log, s.watch.deposits, s.polls[q]);
    }
    forall q | 0 <= q < |s'.polls| ensures Marked(s', s'.polls[q]) {
      assert q < |s.polls| ==> Marked(s, s.polls[q]);
    }
  }

  lemma AsideKeeps(s: State, e: Event)
    requires Alone(s) && Guarded(s) && Enabled(s, e) && (e.AddDeposit? || e.Arrive? || e.Spend?)
    ensures Alone(Step(s, e)) && Guarded(Step(s, e))
  {
    forall q | 0 <= q < |s.polls| ensures Marked(Step(s, e), s.polls[q]) {
      assert Marked(s, s.polls[q]);
    }
  }

  lemma StepKeepsApart(s: State, e: Event)
    requires PollsOk(s) && Alone(s) && Guarded(s) && InTime(s, e)
    ensures Alone(Step(s, e)) && Guarded(Step(s, e))
  {
    if Enabled(s, e) {
      if e.Tick? {
        TickKeeps(s, e.timer);
      } else if e.AddDeposit? || e.Arrive? || e.Spend? {
        AsideKeeps(s, e);
      } else {
        assert Marked(s, s.polls[e.p]);
        if e.OnReceipt? || e.OnCallback? || e.Fail? {
          SettlingGoesOn(s, e);
        } else {
          PollGoesOn(s, e);
        }
        GoingOnKeeps(s, Step(s, e), e.p);
      }
    }
  }

  /** If no timer fires while a poll of its deposit is still reading the balance,
      polls of one deposit never overlap -- the guard sees to the rest. */
  lemma {:induction false} GuardPreventsOverlap(gasStation: bool, balances: Balances, events: seq<Event>)
    requires ReadsInTime(Start(gasStation, balances), events)
    ensures NoOverlap(Start(gasStation, balances), events) && Guarded(Run(Start(gasStation, balances), events))
    decreases |events|
  {
    if events != [] {
      GuardPreventsOverlap(gasStation, balances, events[..|events| - 1]);
      Reachable(gasStation, balances, events[..|events| - 1]);
      StepKeepsApart(Run(Start(gasStation, balances), events[..|events| - 1]), events[|events| - 1]);
    }
  }
}
