/** When polls of one contract do not overlap: the in-flight guard rules it out
    as long as a poll has fetched its logs before the next one of the contract
    is due (approval-watcher.ts:85-107). */
module PullOverlap {
  import opened Chain
  import opened PullWatcher
  import opened PullSafety
  import opened PullOnce

  /** Before the in-flight mark is set. */
  predicate Fetching(at: Await) { at.Head? || at.HeadInFlight? || at.Logs? || at.LogsInFlight? }

  predicate InBatch(at: Await) { Running(at) && !Fetching(at) }

  predicate Marked(s: State, poll: Poll) { InBatch(poll.at) ==> Lower(poll.contract) in s.inFlight }

  /** Every activation in its batch is marked. */
  ghost predicate Guarded(s: State) { forall p :: 0 <= p < |s.polls| ==> Marked(s, s.polls[p]) }

  /** If this is a timer firing, no poll of its contract is still fetching. */
  ghost predicate InTime(s: State, e: Event) {
    e.Tick? && Enabled(s, e) ==>
      forall p :: 0 <= p < |s.polls| && Fetching(s.polls[p].at) ==> Lower(s.polls[p].contract) != Lower(s.watch.intervals[e.timer])
  }

  ghost predicate FetchesInTime(s: State, events: seq<Event>)
    decreases |events|
  {
    events == [] || (FetchesInTime(s, events[..|events| - 1]) && InTime(Run(s, events[..|events| - 1]), events[|events| - 1]))
  }

  /** Activation `p` goes on: it stays marked in its batch, and gives up the mark
      only when it is over. */
  ghost predicate GoesOn(s: State, s': State, p: nat) {
    && p < |s.polls| == |s'.polls| && s'.polls == s.polls[p := s'.polls[p]] && s'.polls[p].contract == s.polls[p].contract
    && (Running(s'.polls[p].at) ==> Running(s.polls[p].at) && s.inFlight <= s'.inFlight && Marked(s', s'.polls[p]))
    && (forall key :: key in s.inFlight && key !in s'.inFlight ==> key == Lower(s.polls[p].contract) && Running(s.polls[p].at))
  }

  lemma GoingOnKeeps(s: State, s': State, p: nat)
    requires Alone(s) && Guarded(s) && GoesOn(s, s', p)
    ensures Alone(s') && Guarded(s')
  {
    forall q | 0 <= q < |s'.polls| ensures Marked(s', s'.polls[q]) {
      if q != p && InBatch(s.polls[q].at) {
        assert s'.polls[q] == s.polls[q] && Marked(s, s.polls[q]);
        assert Running(s.polls[p].at) ==> Lower(s.polls[q].contract) != Lower(s.polls[p].contract);
      }
    }
  }

  lemma FetchGoesOn(s: State, e: Event)
    requires Enabled(s, e) && (e.ServeHead? || e.OnHead? || e.ServeLogs? || e.OnLogs?)
    ensures GoesOn(s, Step(s, e), e.p)
  {
  }

  lemma BatchGoesOn(s: State, e: Event)
    requires Enabled(s, e) && (e.OnNextLog? || e.ServeAllowance? || e.OnAllowance? || e.OnGas?) && Marked(s, s.polls[e.p])
    ensures GoesOn(s, Step(s, e), e.p)
  {
  }

  lemma SettlingGoesOn(s: State, e: Event)
    requires Enabled(s, e) && (e.OnReceipt? || e.OnCallback?) && Marked(s, s.polls[e.p])
    ensures GoesOn(s, Step(s, e), e.p)
  {
  }

  lemma MineGoesOn(s: State, p: nat, accepted: bool)
    requires InMempool(s, p) && Marked(s, s.polls[p])
    ensures GoesOn(s, DoMine(s, p, accepted), p)
  {
  }

  lemma FailGoesOn(s: State, p: nat)
    requires At(s, p) && Running(s.polls[p].at) && Marked(s, s.polls[p])
    ensures GoesOn(s, DoFail(s, p), p)
  {
  }

  /** The guard at work: a timer starts a poll only if none is in its batch. */
  lemma TickKeeps(s: State, timer: nat)
    requires Alone(s) && Guarded(s) && timer in s.watch.intervals && InTime(s, Tick(timer))
    ensures Alone(DoTick(s, timer)) && Guarded(DoTick(s, timer))
  {
    var s', key := DoTick(s, timer), Lower(s.watch.intervals[timer]);
    forall q | 0 <= q < |s.polls| && key !in s.inFlight && Running(s.polls[q].at)
      ensures Lower(s.polls[q].contract) != key
    {
      assert Marked(s, s.polls[q]);
    }
    forall q | 0 <= q < |s'.polls| ensures Marked(s', s'.polls[q]) {
      assert q < |s.polls| ==> Marked(s, s.polls[q]);
    }
  }

  lemma AsideKeeps(s: State, e: Event)
    requires Alone(s) && Guarded(s) && Enabled(s, e)
    requires e.AddDeposit? || e.ServeSeed? || e.OnSeed? || e.FailSeed? || e.NewBlock? || e.Move?
    ensures Alone(Step(s, e)) && Guarded(Step(s, e))
  {
    forall q | 0 <= q < |s.polls| ensures Marked(Step(s, e), s.polls[q]) {
      assert Marked(s, s.polls[q]);
    }
  }

  lemma StepKeepsApart(s: State, e: Event)
    requires Alone(s) && Guarded(s) && InTime(s, e)
    ensures Alone(Step(s, e)) && Guarded(Step(s, e))
  {
    if Enabled(s, e) {
      if e.Tick? {
        TickKeeps(s, e.timer);
      } else if e.AddDeposit? || e.ServeSeed? || e.OnSeed? || e.FailSeed? || e.NewBlock? || e.Move? {
        AsideKeeps(s, e);
      } else {
        assert Marked(s, s.polls[e.p]);
        if e.Mine? {
          MineGoesOn(s, e.p, e.accepted);
        } else if e.Fail? {
          FailGoesOn(s, e.p);
        } else if e.OnReceipt? || e.OnCallback? {
          SettlingGoesOn(s, e);
        } else if e.ServeHead? || e.OnHead? || e.ServeLogs? || e.OnLogs? {
          FetchGoesOn(s, e);
        } else {
          BatchGoesOn(s, e);
        }
        GoingOnKeeps(s, Step(s, e), e.p);
      }
    }
  }

  /** If no timer fires while a poll of its contract is still fetching, polls of
      one contract never overlap -- the guard sees to the rest. */
  lemma {:induction false} GuardPreventsOverlap(balances: Balances, events: seq<Event>)
    requires FetchesInTime(Start(balances), events)
    ensures NoOverlap(Start(balances), events) && Guarded(Run(Start(balances), events))
    decreases |events|
  {
    if events != [] {
      GuardPreventsOverlap(balances, events[..|events| - 1]);
      StepKeepsApart(Run(Start(balances), events[..|events| - 1]), events[|events| - 1]);
    }
  }
}
