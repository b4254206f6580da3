/** How often a pull-deposit is pulled and reported when polls of one contract
    do not overlap: reported at most once, pulled at most once more than the
    number of times the watcher lost sight of its transaction. */
module PullOnce {
  import opened Wrappers
  import opened Chain
  import opened Amounts
  import opened PullWatcher
  import opened PullSafety

  predicate Running(at: Await) { !at.Ended? && !at.Abandoned? }

  /** At most one activation of pollOnce per contract. */
  ghost predicate Alone(s: State) {
    forall p, q :: 0 <= p < q < |s.polls| && Running(s.polls[p].at) && Running(s.polls[q].at) ==>
      Lower(s.polls[p].contract) != Lower(s.polls[q].contract)
  }

  ghost predicate NoOverlap(s: State, events: seq<Event>)
    decreases |events|
  {
    Alone(Run(s, events)) && (events == [] || NoOverlap(s, events[..|events| - 1]))
  }

  predicate HoldsOpen(at: Await) { Holds(at) && !at.Abandoned? }

  /** A deposit in a running poll's hand is open; a reported one is not, and is reported once. */
  ghost predicate Once(s: State) {
    && (forall p :: 0 <= p < |s.polls| && HoldsOpen(s.polls[p].at) ==> s.polls[p].at.d in s.watch.deposits)
    && ReportedOnce(s.log, s.watch.deposits)
  }

  ghost predicate ReportedOnce(log: Log, deposits: seq<PullDeposit>) {
    && (forall i, j :: 0 <= i < j < |log.reports| ==> log.reports[i].d.cid != log.reports[j].d.cid)
    && (forall i :: 0 <= i < |log.reports| ==> Closed(log, deposits, log.reports[i].d))
  }

  ghost predicate Closed(log: Log, deposits: seq<PullDeposit>, d: PullDeposit) {
    d.cid in log.known && log.known[d.cid] == d && d !in deposits
  }

  lemma ReceiptOnce(s: State, p: nat)
    requires Inv(s) && Once(s) && Alone(s) && At(s, p) && s.polls[p].at.Pulled? && s.polls[p].at.tx < |s.log.pulls|
    ensures Once(DoReceipt(s, p))
  {
    var s' := DoReceipt(s, p);
    assert PollOk(s.log, s.polls[p]);
    RemoveIs(s.watch.deposits, s.polls[p].at.d.cid);
    forall q | 0 <= q < |s'.polls| && HoldsOpen(s'.polls[q].at)
      ensures s'.polls[q].at.d in s'.watch.deposits
    {
      OthersAreOnOthers(s, p, q);
    }
    ReportedOnceMore(s.log, s'.log, s.watch.deposits, s.polls[p].at.d);
  }

  lemma ReportedOnceMore(log: Log, log': Log, deposits: seq<PullDeposit>, d: PullDeposit)
    requires ReportedOnce(log, deposits) && d in deposits && d.cid in log.known && log.known[d.cid] == d && log'.known == log.known
    requires |log'.reports| == |log.reports| + 1 && log'.reports[..|log.reports|] == log.reports && log'.reports[|log.reports|].d == d
    ensures ReportedOnce(log', Remove(deposits, d.cid))
  {
    RemoveIs(deposits, d.cid);
    forall i | 0 <= i < |log.reports| ensures log'.reports[i] == log.reports[i] && log.reports[i].d.cid != d.cid {
      assert log'.reports[..|log.reports|][i] == log.reports[i] && Closed(log, deposits, log.reports[i].d);
    }
  }

  /** Whatever another running activation holds is another deposit. */
  lemma OthersAreOnOthers(s: State, p: nat, q: nat)
    requires PollsOk(s) && Once(s) && Alone(s) && At(s, p) && HoldsOpen(s.polls[p].at) && At(s, q) && HoldsOpen(s.polls[q].at) && q != p
    ensures s.polls[q].at.d.cid != s.polls[p].at.d.cid && s.polls[q].at.d in s.watch.deposits
  {
    assert PollOk(s.log, s.polls[p]) && PollOk(s.log, s.polls[q]);
    assert p < q || q < p;
  }

  lemma AddOnce(s: State, d: PullDeposit)
    requires Inv(s) && Once(s) && d.cid !in s.log.known
    ensures Once(DoAdd(s, d))
  {
  }

  /** Steps that report nothing and close nothing, and take up only open deposits. */
  ghost predicate Quiet(s: State, s': State) {
    && s'.log.reports == s.log.reports && s'.watch.deposits == s.watch.deposits && s'.log.known == s.log.known
    && forall q :: 0 <= q < |s'.polls| && HoldsOpen(s'.polls[q].at) ==>
         (q < |s.polls| && HoldsOpen(s.polls[q].at) && s'.polls[q].at.d == s.polls[q].at.d)
         || s'.polls[q].at.d in s.watch.deposits
  }

  lemma QuietOnce(s: State, s': State)
    requires Once(s) && Quiet(s, s')
    ensures Once(s')
  {
  }

  /** Only activation `p` goes on, and what it holds open it held before. */
  predicate QuietAt(s: State, s': State, p: nat) {
    && s'.log.reports == s.log.reports && s'.watch.deposits == s.watch.deposits && s'.log.known == s.log.known
    && p < |s.polls| == |s'.polls| && s'.polls == s.polls[p := s'.polls[p]]
    && (HoldsOpen(s'.polls[p].at) ==> HoldsOpen(s.polls[p].at) && s'.polls[p].at.d == s.polls[p].at.d)
  }

  lemma OneIsQuiet(s: State, s': State, p: nat)
    requires QuietAt(s, s', p)
    ensures Quiet(s, s')
  {
  }

  lemma EventIsQuiet(s: State, e: Event)
    requires Enabled(s, e) && !e.AddDeposit? && !e.Fail? && !e.OnNextLog? && !e.Mine? && !(e.OnReceipt? && s.polls[e.p].at.Pulled?)
    ensures Quiet(s, Step(s, e))
  {
    if OfOnePoll(e) {
      ResumeIsQuiet(s, e);
      OneIsQuiet(s, Step(s, e), e.p);
    } else if e.Tick? {
      TickIsQuiet(s, e.timer);
    } else {
      AsideIsQuiet(s, e);
    }
  }

  lemma TickIsQuiet(s: State, timer: nat)
    requires timer in s.watch.intervals
    ensures Quiet(s, DoTick(s, timer))
  {
  }

  lemma AsideIsQuiet(s: State, e: Event)
    requires Enabled(s, e) && (e.ServeSeed? || e.OnSeed? || e.FailSeed? || e.NewBlock? || e.Move?)
    ensures Quiet(s, Step(s, e))
  {
  }

  lemma ResumeIsQuiet(s: State, e: Event)
    requires Enabled(s, e) && OfOnePoll(e) && !e.OnNextLog? && !(e.OnReceipt? && s.polls[e.p].at.Pulled?)
    ensures QuietAt(s, Step(s, e), e.p)
  {
    if e.OnLogs? || e.OnAllowance? || e.OnReceipt? || e.OnCallback? {
      BatchIsQuiet(s, e);
    } else {
      FetchIsQuiet(s, e);
    }
  }

  lemma FetchIsQuiet(s: State, e: Event)
    requires Enabled(s, e) && (e.ServeHead? || e.OnHead? || e.ServeLogs? || e.ServeAllowance? || e.OnGas?)
    ensures QuietAt(s, Step(s, e), e.p)
  {
    if e.OnHead? || e.OnGas? {
      HeadAndGasAreQuiet(s, e);
    }
  }

  lemma HeadAndGasAreQuiet(s: State, e: Event)
    requires Enabled(s, e) && (e.OnHead? || e.OnGas?)
    ensures QuietAt(s, Step(s, e), e.p)
  {
  }

  lemma BatchIsQuiet(s: State, e: Event)
    requires Enabled(s, e) && (e.OnLogs? || e.OnAllowance? || e.OnReceipt? || e.OnCallback?)
    requires !(e.OnReceipt? && s.polls[e.p].at.Pulled?)
    ensures QuietAt(s, Step(s, e), e.p)
  {
    if e.OnLogs? {
      LogsAreQuiet(s, e.p);
    } else if e.OnAllowance? {
      AllowanceIsQuiet(s, e.p);
    } else {
      HandledIsQuiet(s, e.p);
    }
  }

  lemma LogsAreQuiet(s: State, p: nat)
    requires At(s, p)
    ensures QuietAt(s, DoLogs(s, p), p)
  {
  }

  lemma AllowanceIsQuiet(s: State, p: nat)
    requires LogInHand(s, p) && s.polls[p].at.AllowanceInFlight?
    ensures QuietAt(s, DoAllowance(s, p), p)
  {
  }

  lemma HandledIsQuiet(s: State, p: nat)
    requires At(s, p) && s.polls[p].next < |s.polls[p].batch|
    ensures QuietAt(s, Handled(s, p), p)
  {
  }

  lemma MineIsQuiet(s: State, p: nat, accepted: bool)
    requires InMempool(s, p)
    ensures Quiet(s, DoMine(s, p, accepted))
  {
  }

  lemma FailIsQuiet(s: State, p: nat)
    requires At(s, p)
    ensures Quiet(s, DoFail(s, p))
  {
    FailIsQuietAt(s, p);
    OneIsQuiet(s, DoFail(s, p), p);
  }

  lemma FailIsQuietAt(s: State, p: nat)
    requires At(s, p)
    ensures QuietAt(s, DoFail(s, p), p)
  {
  }

  lemma NextLogIsQuiet(s: State, p: nat)
    requires At(s, p) && s.polls[p].next <= |s.polls[p].batch|
    ensures Quiet(s, DoNextLog(s, p))
  {
    FoundIsOpen(s.watch.deposits, s.polls[p].contract);
  }

  lemma StepOnce(s: State, e: Event)
    requires Inv(s) && Once(s) && Alone(s)
    ensures Once(Step(s, e))
  {
    if Enabled(s, e) {
      if e.AddDeposit? {
        AddOnce(s, e.deposit);
      } else if e.OnReceipt? && s.polls[e.p].at.Pulled? {
        ReceiptOnce(s, e.p);
      } else {
        if e.Fail? {
          FailIsQuiet(s, e.p);
        } else if e.OnNextLog? {
          NextLogIsQuiet(s, e.p);
        } else if e.Mine? {
          MineIsQuiet(s, e.p, e.accepted);
        } else {
          EventIsQuiet(s, e);
        }
        QuietOnce(s, Step(s, e));
      }
    }
  }

  lemma {:induction false} RunOnce(balances: Balances, events: seq<Event>)
    requires NoOverlap(Start(balances), events)
    ensures Once(Run(Start(balances), events))
    decreases |events|
  {
    if events != [] {
      RunOnce(balances, events[..|events| - 1]);
      Reachable(balances, events[..|events| - 1]);
      assert NoOverlap(Start(balances), events[..|events| - 1]);
      StepOnce(Run(Start(balances), events[..|events| - 1]), events[|events| - 1]);
    }
  }

  /* ---- counting transfers ---- */

  /** A running poll that knows of an untold pull, less a transaction nobody watches. */
  function Weight(at: Await, cid: Cid): int {
    if at.Pulled? && at.d.cid == cid then 1
    else if at.Abandoned? && at.d.cid == cid then -1
    else 0
  }

  function Watched(polls: seq<Poll>, cid: Cid): int {
    if polls == [] then 0 else Watched(polls[..|polls| - 1], cid) + Weight(polls[|polls| - 1].at, cid)
  }

  lemma {:induction false} WatchedUpdate(polls: seq<Poll>, p: nat, poll: Poll, cid: Cid)
    requires p < |polls|
    ensures Watched(polls[p := poll], cid) == Watched(polls, cid) - Weight(polls[p].at, cid) + Weight(poll.at, cid)
  {
    if p == |polls| - 1 {
      assert polls[p := poll][..p] == polls[..p];
    } else {
      WatchedUpdate(polls[..|polls| - 1], p, poll, cid);
      assert polls[p := poll][..|polls| - 1] == polls[..|polls| - 1][p := poll];
    }
  }

  /** Every pull not told of is watched by a running poll or was lost sight of. */
  ghost predicate Accounted(s: State, cid: Cid) {
    PullCount(s.log.pulls, cid, false) - PullCount(s.log.pulls, cid, true) <= s.log.lost[cid] + Watched(s.polls, cid)
  }

  lemma {:induction false} TellingCounts(pulls: seq<Pull>, tx: nat, cid: Cid, toldOnly: bool)
    requires tx < |pulls| && !pulls[tx].told
    ensures PullCount(pulls[tx := pulls[tx].(told := true)], cid, toldOnly)
         == PullCount(pulls, cid, toldOnly) + if toldOnly && pulls[tx].d.cid == cid then 1 else 0
  {
    var told := pulls[tx := pulls[tx].(told := true)];
    if tx == |pulls| - 1 {
      assert told[..|told| - 1] == pulls[..|pulls| - 1];
    } else {
      TellingCounts(pulls[..|pulls| - 1], tx, cid, toldOnly);
      assert told[..|told| - 1] == pulls[..|pulls| - 1][tx := pulls[tx].(told := true)];
    }
  }

  lemma MineAccounted(s: State, p: nat, accepted: bool, cid: Cid)
    requires InMempool(s, p) && Accounted(s, cid)
    ensures Accounted(DoMine(s, p, accepted), cid)
  {
    var s' := DoMine(s, p, accepted);
    WatchedUpdate(s.polls, p, s'.polls[p], cid);
    assert s'.polls == s.polls[p := s'.polls[p]];
    assert |s'.log.pulls| > |s.log.pulls| ==> s'.log.pulls[..|s'.log.pulls| - 1] == s.log.pulls;
  }

  lemma ReceiptAccounted(s: State, p: nat, cid: Cid)
    requires At(s, p) && s.polls[p].at.Pulled? && s.polls[p].at.tx < |s.log.pulls| && PollOk(s.log, s.polls[p])
    requires Accounted(s, cid)
    ensures Accounted(DoReceipt(s, p), cid)
  {
    var s' := DoReceipt(s, p);
    WatchedUpdate(s.polls, p, s'.polls[p], cid);
    TellingCounts(s.log.pulls, s.polls[p].at.tx, cid, true);
    TellingCounts(s.log.pulls, s.polls[p].at.tx, cid, false);
  }

  lemma FailWeighs(s: State, p: nat, cid: Cid)
    requires At(s, p) && !s.polls[p].at.Abandoned?
    ensures var s' := DoFail(s, p);
            && s'.log.pulls == s.log.pulls && p < |s.polls| == |s'.polls| && s'.polls == s.polls[p := s'.polls[p]]
            && s'.log.lost[cid] + Weight(s'.polls[p].at, cid) >= s.log.lost[cid] + Weight(s.polls[p].at, cid)
  {
    var at := s.polls[p].at;
    if at.Mining? || at.Pulled? {
      LossWeighs(s, p, cid);
    } else {
      assert DoFail(s, p) == Put(s, p, Ended) || DoFail(s, p) == Leave(s, p, Ended);
    }
  }

  /** A loss is one more for its deposit, and its weight is at most one less. */
  lemma LossWeighs(s: State, p: nat, cid: Cid)
    requires At(s, p) && (s.polls[p].at.Mining? || s.polls[p].at.Pulled?)
    ensures var s', d := DoFail(s, p), s.polls[p].at.d;
            && s'.log.pulls == s.log.pulls && p < |s.polls| == |s'.polls| && s'.polls == s.polls[p := s'.polls[p]]
            && s'.log.lost[cid] == s.log.lost[cid] + (if cid == d.cid then 1 else 0)
            && Weight(s'.polls[p].at, cid) >= Weight(s.polls[p].at, cid) - (if cid == d.cid then 1 else 0)
  {
    var d := s.polls[p].at.d;
    assert DoFail(s, p) == Lose(Leave(s, p, if s.polls[p].at.Mining? then Abandoned(d, s.polls[p].at.amount) else Ended), d.cid);
  }

  lemma FailAccounted(s: State, p: nat, cid: Cid)
    requires At(s, p) && !s.polls[p].at.Abandoned? && Accounted(s, cid)
    ensures Accounted(DoFail(s, p), cid)
  {
    FailWeighs(s, p, cid);
    WatchedUpdate(s.polls, p, DoFail(s, p).polls[p], cid);
  }

  /** The remaining events leave the accounts as they are. */
  ghost predicate SameAccounts(s: State, s': State) {
    && s'.log.pulls == s.log.pulls && s'.log.lost == s.log.lost
    && (s'.polls == s.polls
        || (|s'.polls| == |s.polls| + 1 && s'.polls[..|s.polls|] == s.polls && s'.polls[|s.polls|].at.Head?)
        || exists p: nat :: WeightlessAt(s, s', p))
  }

  predicate WeightlessAt(s: State, s': State, p: nat) {
    p < |s.polls| == |s'.polls| && s'.polls == s.polls[p := s'.polls[p]] && Weightless(s.polls[p].at) && Weightless(s'.polls[p].at)
  }

  predicate Weightless(at: Await) { !at.Pulled? && !at.Abandoned? }

  lemma SameAccounted(s: State, s': State, cid: Cid)
    requires SameAccounts(s, s') && Accounted(s, cid)
    ensures Accounted(s', cid)
  {
    if p: nat :| WeightlessAt(s, s', p) {
      WatchedUpdate(s.polls, p, s'.polls[p], cid);
    }
  }

  predicate OfOnePoll(e: Event) {
    e.ServeHead? || e.OnHead? || e.ServeLogs? || e.OnLogs? || e.OnNextLog? || e.ServeAllowance? || e.OnAllowance?
    || e.OnGas? || e.OnReceipt? || e.OnCallback?
  }

  lemma FetchIsWeightless(s: State, e: Event)
    requires Enabled(s, e) && (e.ServeHead? || e.OnHead? || e.ServeLogs? || e.OnLogs? || e.OnNextLog?)
    ensures WeightlessAt(s, Step(s, e), e.p) && Step(s, e).log.pulls == s.log.pulls && Step(s, e).log.lost == s.log.lost
  {
  }

  lemma HandleIsWeightless(s: State, e: Event)
    requires Enabled(s, e) && (e.ServeAllowance? || e.OnAllowance? || e.OnGas? || e.OnReceipt? || e.OnCallback?) && Weightless(s.polls[e.p].at)
    ensures WeightlessAt(s, Step(s, e), e.p) && Step(s, e).log.pulls == s.log.pulls && Step(s, e).log.lost == s.log.lost
  {
  }

  lemma ResumeSameAccounts(s: State, e: Event)
    requires Enabled(s, e) && OfOnePoll(e) && Weightless(s.polls[e.p].at)
    ensures SameAccounts(s, Step(s, e))
  {
    if e.ServeHead? || e.OnHead? || e.ServeLogs? || e.OnLogs? || e.OnNextLog? {
      FetchIsWeightless(s, e);
    } else {
      HandleIsWeightless(s, e);
    }
  }

  lemma AsideSameAccounts(s: State, e: Event)
    requires Enabled(s, e) && !OfOnePoll(e) && !e.Mine? && !e.Fail?
    ensures SameAccounts(s, Step(s, e))
  {
  }

  lemma StepAccounted(s: State, e: Event, cid: Cid)
    requires Accounted(s, cid) && PollsOk(s)
    ensures Accounted(Step(s, e), cid)
  {
    if Enabled(s, e) {
      if e.Mine? || e.Fail? || (e.OnReceipt? && s.polls[e.p].at.Pulled?) {
        SettlingAccounted(s, e, cid);
      } else {
        OthersSameAccounts(s, e);
        SameAccounted(s, Step(s, e), cid);
      }
    }
  }

  lemma OthersSameAccounts(s: State, e: Event)
    requires Enabled(s, e) && !(e.Mine? || e.Fail? || (e.OnReceipt? && s.polls[e.p].at.Pulled?))
    ensures SameAccounts(s, Step(s, e))
  {
    if OfOnePoll(e) {
      ResumeSameAccounts(s, e);
    } else {
      AsideSameAccounts(s, e);
    }
  }

  lemma SettlingAccounted(s: State, e: Event, cid: Cid)
    requires Accounted(s, cid) && PollsOk(s) && Enabled(s, e) && (e.Mine? || e.Fail? || (e.OnReceipt? && s.polls[e.p].at.Pulled?))
    ensures Accounted(Step(s, e), cid)
  {
    if e.Mine? {
      MineAccounted(s, e.p, e.accepted, cid);
    } else if e.Fail? {
      FailAccounted(s, e.p, cid);
    } else {
      assert PollOk(s.log, s.polls[e.p]);
      ReceiptAccounted(s, e.p, cid);
    }
  }

  lemma {:induction false} RunAccounted(balances: Balances, events: seq<Event>, cid: Cid)
    ensures Accounted(Run(Start(balances), events), cid)
    decreases |events|
  {
    if events != [] {
      var s, e := Run(Start(balances), events[..|events| - 1]), events[|events| - 1];
      RunAccounted(balances, events[..|events| - 1], cid);
      Reachable(balances, events[..|events| - 1]);
      StepAccounted(s, e, cid);
    }
  }

  lemma {:induction false} WatchedBound(polls: seq<Poll>, cid: Cid, p: nat)
    requires forall q :: 0 <= q < |polls| && q != p ==> !(polls[q].at.Pulled? && polls[q].at.d.cid == cid)
    ensures Watched(polls, cid) <= if p < |polls| && polls[p].at.Pulled? && polls[p].at.d.cid == cid then 1 else 0
  {
    if polls != [] {
      WatchedBound(polls[..|polls| - 1], cid, p);
    }
  }

  /* ---- told pulls are reports ---- */

  function ReportCount(reports: seq<Report>, cid: Cid): nat {
    if reports == [] then 0 else
    ReportCount(reports[..|reports| - 1], cid) + if reports[|reports| - 1].d.cid == cid then 1 else 0
  }

  lemma {:induction false} ReportedMeans(reports: seq<Report>, cid: Cid)
    ensures ReportCount(reports, cid) > 0 <==> exists i :: 0 <= i < |reports| && reports[i].d.cid == cid
    ensures (forall i, j :: 0 <= i < j < |reports| ==> reports[i].d.cid != reports[j].d.cid) ==> ReportCount(reports, cid) <= 1
  {
    if reports != [] {
      var init := reports[..|reports| - 1];
      ReportedMeans(init, cid);
      assert reports == init + [reports[|reports| - 1]];
      if ReportCount(init, cid) > 0 {
        var i :| 0 <= i < |init| && init[i].d.cid == cid;
        assert reports[i].d.cid == cid;
      }
    }
  }

  lemma MineKeepsTold(s: State, p: nat, accepted: bool, cid: Cid)
    requires InMempool(s, p)
    ensures PullCount(DoMine(s, p, accepted).log.pulls, cid, true) == PullCount(s.log.pulls, cid, true)
    ensures DoMine(s, p, accepted).log.reports == s.log.reports
  {
    var pulls' := DoMine(s, p, accepted).log.pulls;
    assert |pulls'| > |s.log.pulls| ==> pulls'[..|pulls'| - 1] == s.log.pulls;
  }

  lemma MovingKeepsReported(s: State, s': State, cid: Cid)
    requires PullsMove(s, s') && PullCount(s.log.pulls, cid, true) == ReportCount(s.log.reports, cid)
    ensures PullCount(s'.log.pulls, cid, true) == ReportCount(s'.log.reports, cid)
  {
    if p, accepted :| InMempool(s, p) && s' == DoMine(s, p, accepted) {
      MineKeepsTold(s, p, accepted, cid);
    } else if p :| ReceiptDue(s, p) && s' == DoReceipt(s, p) {
      ReceiptReported(s, p, cid);
    }
  }

  lemma {:induction false} ToldIsReported(balances: Balances, events: seq<Event>, cid: Cid)
    ensures var log := Run(Start(balances), events).log; PullCount(log.pulls, cid, true) == ReportCount(log.reports, cid)
    decreases |events|
  {
    if events != [] {
      var s, e := Run(Start(balances), events[..|events| - 1]), events[|events| - 1];
      ToldIsReported(balances, events[..|events| - 1], cid);
      Reachable(balances, events[..|events| - 1]);
      StepMovesPulls(s, e);
      MovingKeepsReported(s, Run(Start(balances), events), cid);
    }
  }

  lemma ReceiptReported(s: State, p: nat, cid: Cid)
    requires At(s, p) && s.polls[p].at.Pulled? && s.polls[p].at.tx < |s.log.pulls| && PollOk(s.log, s.polls[p])
    requires PullCount(s.log.pulls, cid, true) == ReportCount(s.log.reports, cid)
    ensures var log := DoReceipt(s, p).log; PullCount(log.pulls, cid, true) == ReportCount(log.reports, cid)
  {
    var log' := DoReceipt(s, p).log;
    TellingCounts(s.log.pulls, s.polls[p].at.tx, cid, true);
    assert log'.reports[..|log'.reports| - 1] == s.log.reports;
  }

  lemma WatchedAtMostOne(s: State, cid: Cid)
    requires Inv(s) && Once(s) && Alone(s)
    ensures Watched(s.polls, cid) <= if ReportCount(s.log.reports, cid) > 0 then 0 else 1
  {
    ReportedMeans(s.log.reports, cid);
    if p :| 0 <= p < |s.polls| && s.polls[p].at.Pulled? && s.polls[p].at.d.cid == cid {
      forall q | 0 <= q < |s.polls| && q != p
        ensures !(s.polls[q].at.Pulled? && s.polls[q].at.d.cid == cid)
      {
        assert PollOk(s.log, s.polls[p]) && PollOk(s.log, s.polls[q]);
        assert p < q || q < p;
      }
      WatchedBound(s.polls, cid, p);
      HeldIsUnreported(s, p);
    } else {
      WatchedBound(s.polls, cid, |s.polls|);
    }
  }

  lemma HeldIsUnreported(s: State, p: nat)
    requires Inv(s) && Once(s) && p < |s.polls| && HoldsOpen(s.polls[p].at)
    ensures ReportCount(s.log.reports, s.polls[p].at.d.cid) == 0
  {
    assert PollOk(s.log, s.polls[p]);
    ReportedMeans(s.log.reports, s.polls[p].at.d.cid);
  }

  /** If polls of one contract never overlap, each deposit is reported at most
      once, and pulled at most once more than its transactions were lost sight of
      (a receipt that never came back to a poll that was waiting for it). */
  lemma PulledOnceUnlessLost(balances: Balances, events: seq<Event>, cid: Cid)
    requires NoOverlap(Start(balances), events)
    ensures var log := Run(Start(balances), events).log;
            && ReportCount(log.reports, cid) <= 1
            && PullCount(log.pulls, cid, false) <= 1 + log.lost[cid]
  {
    var s := Run(Start(balances), events);
    RunOnce(balances, events);
    Reachable(balances, events);
    RunAccounted(balances, events, cid);
    ToldIsReported(balances, events, cid);
    ReportedMeans(s.log.reports, cid);
    WatchedAtMostOne(s, cid);
  }
}
