/** What holds of the one-time-address watcher in every reachable state, however
    its polls overlap. */
module OtaSafety {
  import opened Wrappers
  import opened Chain
  import opened Amounts
  import opened OtaWatcher

  /** What a deposit has asked for is what the poll that sweeps it has seen. */
  ghost predicate EnoughFor(d: OtaDeposit, amount: nat) {
    amount > 0 && Satisfies(d.expected, amount)
  }

  ghost predicate PollOk(log: Log, deposits: map<Cid, OtaDeposit>, poll: Poll) {
    && poll.d.cid in log.known && log.known[poll.d.cid] == poll.d
    && match poll.at
       case Gas(amount) => EnoughFor(poll.d, amount)
       case Mining(amount) => EnoughFor(poll.d, amount)
       case Abandoned(amount) => EnoughFor(poll.d, amount)
       case Mined(amount, tx) => tx < |log.sweeps| && log.sweeps[tx] == Sweep(poll.d, amount, false)
       case Callback => poll.d.cid !in deposits
       case _ => true
  }

  /** A report names a told sweep of the same deposit and the same base units. */
  ghost predicate ReportOk(log: Log, r: Report) {
    && r.tx < |log.sweeps| && log.sweeps[r.tx].told && log.sweeps[r.tx].d == r.d
    && r.receivedAmount == FormatUnits(log.sweeps[r.tx].amount, r.d.decimals)
  }

  ghost predicate PollsOk(s: State) {
    forall p :: 0 <= p < |s.polls| ==> PollOk(s.log, s.watch.deposits, s.polls[p])
  }

  /** No two activations wait for the receipt of one transaction. */
  ghost predicate OwnTx(polls: seq<Poll>) {
    forall p, q :: 0 <= p < q < |polls| && polls[p].at.Mined? && polls[q].at.Mined? ==> polls[p].at.tx != polls[q].at.tx
  }

  ghost predicate LogOk(log: Log) {
    && (forall i :: 0 <= i < |log.sweeps| ==> EnoughFor(log.sweeps[i].d, log.sweeps[i].amount))
    && (forall i :: 0 <= i < |log.reports| ==> ReportOk(log, log.reports[i]))
    && (forall i, j :: 0 <= i < j < |log.reports| ==> log.reports[i].tx != log.reports[j].tx)
    && (forall cid :: cid in log.known ==> log.known[cid].cid == cid)
  }

  ghost predicate ToldFor(log: Log, d: OtaDeposit) {
    exists i :: 0 <= i < |log.sweeps| && log.sweeps[i].told && log.sweeps[i].d == d
  }

  /** Open deposits are known, and whatever has been closed has been swept. */
  ghost predicate DepositsOk(s: State) {
    && (forall cid :: cid in s.watch.deposits ==> cid in s.log.known && s.watch.deposits[cid] == s.log.known[cid])
    && (forall cid :: cid in s.log.known && cid !in s.watch.deposits ==> ToldFor(s.log, s.log.known[cid]))
  }

  /** Every open deposit has a running timer of its own, and no other timer runs. */
  ghost predicate TimersOk(w: Watch) {
    && w.timers.Keys == w.deposits.Keys
    && (forall cid :: cid in w.timers ==> w.timers[cid] in w.intervals && w.intervals[w.timers[cid]] == w.deposits[cid])
    && (forall t :: t in w.intervals ==> t < w.nextTimer && w.intervals[t].cid in w.timers && w.timers[w.intervals[t].cid] == t)
  }

  ghost predicate Inv(s: State) {
    LogOk(s.log) && PollsOk(s) && OwnTx(s.polls) && DepositsOk(s) && TimersOk(s.watch)
  }

  /** Only activation `p` moves on, to a step it may be at. */
  ghost predicate PollMoves(s: State, s': State, p: nat) {
    && s'.watch == s.watch && s'.log == s.log && p < |s.polls|
    && |s'.polls| == |s.polls| && (forall q :: 0 <= q < |s.polls| && q != p ==> s'.polls[q] == s.polls[q])
    && PollOk(s.log, s.watch.deposits, s'.polls[p]) && !s'.polls[p].at.Mined?
  }

  lemma AddStep(s: State, d: OtaDeposit)
    requires Inv(s) && Enabled(s, AddDeposit(d))
    ensures Inv(Step(s, AddDeposit(d)))
  {
    var s' := Step(s, AddDeposit(d));
    forall p | 0 <= p < |s'.polls| ensures PollOk(s'.log, s'.watch.deposits, s'.polls[p]) {
      assert PollOk(s.log, s.watch.deposits, s.polls[p]);
    }
    forall i | 0 <= i < |s.log.reports| ensures ReportOk(s'.log, s'.log.reports[i]) {
      assert ReportOk(s.log, s.log.reports[i]);
    }
    forall cid | cid in s'.log.known && cid !in s'.watch.deposits ensures ToldFor(s'.log, s'.log.known[cid]) {
      assert ToldFor(s.log, s.log.known[cid]);
    }
    AddKeepsTimers(s.watch, d);
  }

  lemma AddKeepsTimers(w: Watch, d: OtaDeposit)
    requires TimersOk(w) && d.cid !in w.deposits
    ensures TimersOk(AddTo(w, d))
  {
  }

  lemma StopKeepsTimers(w: Watch, cid: Cid)
    requires TimersOk(w) && forall c :: c in w.deposits ==> w.deposits[c].cid == c
    ensures TimersOk(StopIn(w, cid))
  {
  }

  lemma TickStep(s: State, timer: nat)
    requires Inv(s) && timer in s.watch.intervals
    ensures Inv(DoTick(s, timer))
  {
    var s', d := DoTick(s, timer), s.watch.intervals[timer];
    assert d.cid in s.watch.deposits;
    forall q | 0 <= q < |s'.polls| ensures PollOk(s'.log, s'.watch.deposits, s'.polls[q]) {
      assert q < |s.polls| ==> PollOk(s.log, s.watch.deposits, s.polls[q]);
    }
    OwnTxStays(s.polls, Poll(d, Balance));
  }

  lemma OwnTxStays(polls: seq<Poll>, poll: Poll)
    requires OwnTx(polls) && !poll.at.Mined?
    ensures OwnTx(polls + [poll])
  {
  }

  /** A confirmed sweep leaves what was swept and reported before as it was. */
  lemma SweepKeepsLog(log: Log, sweep: Sweep)
    requires LogOk(log) && EnoughFor(sweep.d, sweep.amount)
    ensures LogOk(log.(sweeps := log.sweeps + [sweep]))
  {
    var log' := log.(sweeps := log.sweeps + [sweep]);
    forall i | 0 <= i < |log.reports| ensures ReportOk(log', log'.reports[i]) {
      assert ReportOk(log, log.reports[i]);
    }
  }

  lemma SweepKeepsPoll(log: Log, deposits: map<Cid, OtaDeposit>, poll: Poll, sweep: Sweep)
    requires PollOk(log, deposits, poll)
    ensures PollOk(log.(sweeps := log.sweeps + [sweep]), deposits, poll)
    ensures poll.at.Mined? ==> poll.at.tx < |log.sweeps|
  {
  }

  lemma MineStep(s: State, p: nat, accepted: bool)
    requires Inv(s) && InMempool(s, p)
    ensures Inv(DoMine(s, p, accepted))
  {
    var s', d, amount := DoMine(s, p, accepted), s.polls[p].d, s.polls[p].at.amount;
    assert PollOk(s.log, s.watch.deposits, s.polls[p]);
    if |s'.log.sweeps| == |s.log.sweeps| {
      assert PollMoves(s, s', p);
      PollStep(s, s', p);
    } else {
      SweepKeepsLog(s.log, Sweep(d, amount, false));
      MoreTold(s, s');
      MinedPolls(s, p, s');
    }
  }

  lemma MinedPolls(s: State, p: nat, s': State)
    requires PollsOk(s) && OwnTx(s.polls) && InMempool(s, p) && s'.watch == s.watch
    requires s'.log == s.log.(sweeps := s.log.sweeps + [Sweep(s.polls[p].d, s.polls[p].at.amount, false)])
    requires s'.polls == SetPoll(s.polls, p, Ended) || s'.polls == SetPoll(s.polls, p, Mined(s.polls[p].at.amount, |s.log.sweeps|))
    ensures PollsOk(s') && OwnTx(s'.polls)
  {
    forall q | 0 <= q < |s.polls| ensures PollOk(s'.log, s'.watch.deposits, s.polls[q]) && (s.polls[q].at.Mined? ==> s.polls[q].at.tx < |s.log.sweeps|) {
      assert PollOk(s.log, s.watch.deposits, s.polls[q]);
      SweepKeepsPoll(s.log, s.watch.deposits, s.polls[q], Sweep(s.polls[p].d, s.polls[p].at.amount, false));
    }
    assert PollOk(s'.log, s'.watch.deposits, s'.polls[p]);
  }

  /** Closed deposits stay swept as sweeps are added and told. */
  lemma MoreTold(s: State, s': State)
    requires DepositsOk(s) && s'.watch.deposits == s.watch.deposits && s'.log.known == s.log.known
    requires |s'.log.sweeps| >= |s.log.sweeps|
    requires forall i :: 0 <= i < |s.log.sweeps| && s.log.sweeps[i].told ==> s'.log.sweeps[i] == s.log.sweeps[i]
    ensures DepositsOk(s')
  {
    forall cid | cid in s'.log.known && cid !in s'.watch.deposits ensures ToldFor(s'.log, s'.log.known[cid]) {
      assert ToldFor(s.log, s.log.known[cid]);
    }
  }

  lemma ReceiptStep(s: State, p: nat)
    requires Inv(s) && p < |s.polls| && s.polls[p].at.Mined? && s.polls[p].at.tx < |s.log.sweeps|
    ensures Inv(DoReceipt(s, p))
  {
    var s' := DoReceipt(s, p);
    assert PollOk(s.log, s.watch.deposits, s.polls[p]);
    forall q | 0 <= q < |s'.polls| ensures PollOk(s'.log, s'.watch.deposits, s'.polls[q]) {
      assert PollOk(s.log, s.watch.deposits, s.polls[q]);
    }
    ReceiptLog(s, p);
    StopKeepsTimers(s.watch, s.polls[p].d.cid);
    ReceiptDeposits(s, p);
  }

  lemma ReceiptLog(s: State, p: nat)
    requires LogOk(s.log) && p < |s.polls| && s.polls[p].at.Mined? && s.polls[p].at.tx < |s.log.sweeps|
    requires PollOk(s.log, s.watch.deposits, s.polls[p])
    ensures LogOk(DoReceipt(s, p).log)
  {
    var log' := DoReceipt(s, p).log;
    forall i | 0 <= i < |s.log.reports| ensures ReportOk(log', log'.reports[i]) && s.log.reports[i].tx != s.polls[p].at.tx {
      assert ReportOk(s.log, s.log.reports[i]);
    }
    assert ReportOk(log', log'.reports[|s.log.reports|]);
  }

  lemma ReceiptDeposits(s: State, p: nat)
    requires DepositsOk(s) && p < |s.polls| && s.polls[p].at.Mined? && s.polls[p].at.tx < |s.log.sweeps|
    requires PollOk(s.log, s.watch.deposits, s.polls[p])
    ensures DepositsOk(DoReceipt(s, p))
  {
    var s' := DoReceipt(s, p);
    var d, tx := s.polls[p].d, s.polls[p].at.tx;
    forall cid | cid in s'.log.known && cid !in s'.watch.deposits ensures ToldFor(s'.log, s'.log.known[cid]) {
      if cid == d.cid {
        assert s'.log.sweeps[tx].told && s'.log.sweeps[tx].d == d;
      } else {
        assert ToldFor(s.log, s.log.known[cid]);
        var i :| 0 <= i < |s.log.sweeps| && s.log.sweeps[i].told && s.log.sweeps[i].d == s.log.known[cid];
        assert s'.log.sweeps[i].told && s'.log.sweeps[i].d == s.log.known[cid];
      }
    }
  }

  lemma EventMovesPoll(s: State, e: Event, p: nat)
    requires Enabled(s, e) && p < |s.polls| && PollOk(s.log, s.watch.deposits, s.polls[p])
    requires e == ServeBalance(p) || e == OnBalance(p) || e == OnGas(p) || e == OnCallback(p) || e == Fail(p)
             || (e == OnReceipt(p) && s.polls[p].at.Reverted?)
    ensures PollMoves(s, Step(s, e), p)
  {
  }

  lemma PollStep(s: State, s': State, p: nat)
    requires Inv(s) && PollMoves(s, s', p)
    ensures Inv(s')
  {
  }

  lemma StepKeepsInv(s: State, e: Event)
    requires Inv(s)
    ensures Inv(Step(s, e))
  {
    if Enabled(s, e) {
      assert forall p :: 0 <= p < |s.polls| ==> PollOk(s.log, s.watch.deposits, s.polls[p]);
      match e
      case AddDeposit(d) => AddStep(s, d);
      case Tick(timer) => TickStep(s, timer);
      case Mine(p, accepted) => MineStep(s, p, accepted);
      case OnReceipt(p) => if s.polls[p].at.Mined? { ReceiptStep(s, p); } else { EventMovesPoll(s, e, p); PollStep(s, Step(s, e), p); }
      case ServeBalance(p) => EventMovesPoll(s, e, p); PollStep(s, Step(s, e), p);
      case OnBalance(p) => EventMovesPoll(s, e, p); PollStep(s, Step(s, e), p);
      case OnGas(p) => EventMovesPoll(s, e, p); PollStep(s, Step(s, e), p);
      case OnCallback(p) => EventMovesPoll(s, e, p); PollStep(s, Step(s, e), p);
      case Fail(p) => EventMovesPoll(s, e, p); PollStep(s, Step(s, e), p);
      case Arrive(_) =>
      case Spend(_, _, _, _) =>
    }
  }

  lemma {:induction false} Reachable(gasStation: bool, balances: Balances, events: seq<Event>)
    ensures Inv(Run(Start(gasStation, balances), events))
    decreases |events|
  {
    if events != [] {
      Reachable(gasStation, balances, events[..|events| - 1]);
      StepKeepsInv(Run(Start(gasStation, balances), events[..|events| - 1]), events[|events| - 1]);
    }
  }

  /** Every callback stands for one confirmed sweep of its own, of exactly the
      base units its text says, to that deposit's target. */
  lemma CallbacksAreSweeps(gasStation: bool, balances: Balances, events: seq<Event>, i: nat)
    requires i < |Run(Start(gasStation, balances), events).log.reports|
    ensures var log := Run(Start(gasStation, balances), events).log;
            var r := log.reports[i];
            && r.tx < |log.sweeps| && log.sweeps[r.tx].d == r.d
            && ParseUnits(r.receivedAmount, r.d.decimals) == Ok(log.sweeps[r.tx].amount)
            && forall j :: 0 <= j < |log.reports| && j != i ==> log.reports[j].tx != r.tx
  {
    Reachable(gasStation, balances, events);
    var log := Run(Start(gasStation, balances), events).log;
    assert ReportOk(log, log.reports[i]);
    AmountRoundTrip(log.sweeps[log.reports[i].tx].amount, log.reports[i].d.decimals);
  }

  /** A deposit the watcher no longer holds has been swept, and for no less than
      the amount it was waiting for. */
  lemma ClosedOnlyAfterSweep(gasStation: bool, balances: Balances, events: seq<Event>, cid: Cid)
    requires var s := Run(Start(gasStation, balances), events); cid in s.log.known && cid !in s.watch.deposits
    ensures var log := Run(Start(gasStation, balances), events).log;
            var expected := log.known[cid].expected;
            && !expected.Unreadable?
            && exists i :: 0 <= i < |log.sweeps| && log.sweeps[i].told && log.sweeps[i].d == log.known[cid] &&
                           log.sweeps[i].amount > 0 && (expected.Units? ==> log.sweeps[i].amount >= expected.units)
  {
    Reachable(gasStation, balances, events);
    var log := Run(Start(gasStation, balances), events).log;
    assert ToldFor(log, log.known[cid]);
    var i :| 0 <= i < |log.sweeps| && log.sweeps[i].told && log.sweeps[i].d == log.known[cid];
    assert EnoughFor(log.sweeps[i].d, log.sweeps[i].amount);
  }
}
