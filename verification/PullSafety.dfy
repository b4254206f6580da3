/** What holds of the pull-deposit watcher in every reachable state, however its
    polls overlap: one open deposit per contract, and reports backed by pulls. */
module PullSafety {
  import opened Wrappers
  import opened Chain
  import opened Amounts
  import opened PullWatcher

  /** At most one open deposit per contract, up to the case of its address. */
  ghost predicate OneOpen(deposits: seq<PullDeposit>) {
    forall i, j :: 0 <= i < j < |deposits| ==> Lower(deposits[i].contract) != Lower(deposits[j].contract)
  }

  lemma {:induction false} RemoveIs(deposits: seq<PullDeposit>, cid: Cid)
    ensures forall d :: d in Remove(deposits, cid) <==> d in deposits && d.cid != cid
    ensures OneOpen(deposits) ==> OneOpen(Remove(deposits, cid))
  {
    if deposits != [] {
      var init := deposits[..|deposits| - 1];
      RemoveIs(init, cid);
      assert deposits == init + [deposits[|deposits| - 1]];
      assert OneOpen(deposits) ==> OneOpen(init);
      if OneOpen(deposits) {
        forall d | d in Remove(init, cid) ensures Lower(d.contract) != Lower(deposits[|deposits| - 1].contract) {
          assert d in init;
        }
      }
    }
  }

  lemma {:induction false} FoundIsOpen(deposits: seq<PullDeposit>, contract: Address)
    ensures var m := FindMatching(deposits, contract);
            && (m.Found? <==> HasOpenDeposit(deposits, contract))
            && (m.Found? ==> m.d in deposits && Lower(m.d.contract) == Lower(contract))
            && (m.Found? ==> forall d :: d in deposits && Lower(d.contract) == Lower(contract) ==> m.d.createdAt <= d.createdAt)
  {
    if deposits != [] {
      var init := deposits[..|deposits| - 1];
      FoundIsOpen(init, contract);
      assert deposits == init + [deposits[|deposits| - 1]];
      if HasOpenDeposit(init, contract) {
        var i :| 0 <= i < |init| && Lower(init[i].contract) == Lower(contract);
        assert Lower(deposits[i].contract) == Lower(contract);
      }
    }
  }

  ghost predicate DepositsOk(s: State) {
    && OneOpen(s.watch.deposits)
    && forall d :: d in s.watch.deposits ==> d.cid in s.log.known && s.log.known[d.cid] == d
  }

  predicate Holds(at: Await) {
    at.Allowance? || at.AllowanceInFlight? || at.Gas? || at.Mining? || at.Pulled? || at.Abandoned?
  }

  ghost predicate PollOk(log: Log, poll: Poll) {
    && (Holds(poll.at) ==> Lower(poll.at.d.contract) == Lower(poll.contract)
                           && poll.at.d.cid in log.known && log.known[poll.at.d.cid] == poll.at.d)
    && (poll.at.Pulled? ==> poll.at.tx < |log.pulls| && log.pulls[poll.at.tx].d == poll.at.d
                            && log.pulls[poll.at.tx].amount == poll.at.amount && !log.pulls[poll.at.tx].told)
  }

  ghost predicate PollsOk(s: State) {
    && (forall p :: 0 <= p < |s.polls| ==> PollOk(s.log, s.polls[p]))
    && (forall p, q :: 0 <= p < q < |s.polls| && s.polls[p].at.Pulled? && s.polls[q].at.Pulled? ==> s.polls[p].at.tx != s.polls[q].at.tx)
  }

  ghost predicate ReportOk(log: Log, r: Report) {
    && r.tx < |log.pulls| && log.pulls[r.tx].told && log.pulls[r.tx].d == r.d
    && r.amount == FormatUnits(log.pulls[r.tx].amount, r.d.decimals)
  }

  ghost predicate ReportsOk(log: Log) {
    && (forall i :: 0 <= i < |log.reports| ==> ReportOk(log, log.reports[i]))
    && (forall i, j :: 0 <= i < j < |log.reports| ==> log.reports[i].tx != log.reports[j].tx)
  }

  ghost predicate Inv(s: State) {
    DepositsOk(s) && PollsOk(s) && ReportsOk(s.log)
  }

  /** Only poll `p` moves on, and no pull is confirmed or told. */
  ghost predicate PollMoves(s: State, s': State, p: nat) {
    && s'.watch.deposits == s.watch.deposits && s'.log.known == s.log.known
    && s'.log.pulls == s.log.pulls && s'.log.reports == s.log.reports
    && p < |s.polls| == |s'.polls| && s'.polls == s.polls[p := s'.polls[p]]
    && PollOk(s.log, s'.polls[p]) && !s'.polls[p].at.Pulled?
  }

  lemma PollStep(s: State, s': State, p: nat)
    requires Inv(s) && PollMoves(s, s', p)
    ensures Inv(s')
  {
    SameReports(s.log, s'.log);
    forall q | 0 <= q < |s'.polls| ensures PollOk(s'.log, s'.polls[q]) {
      assert PollOk(s.log, s'.polls[q]);
    }
  }

  lemma SameReports(log: Log, log': Log)
    requires ReportsOk(log) && log'.pulls == log.pulls && log'.reports == log.reports
    ensures ReportsOk(log')
  {
    forall i | 0 <= i < |log.reports| ensures ReportOk(log', log'.reports[i]) {
      assert ReportOk(log, log.reports[i]);
    }
  }

  lemma NextLogMoves(s: State, p: nat)
    requires DepositsOk(s) && At(s, p) && s.polls[p].at.NextLog? && s.polls[p].next <= |s.polls[p].batch|
    ensures PollMoves(s, DoNextLog(s, p), p)
  {
    FoundIsOpen(s.watch.deposits, s.polls[p].contract);
  }

  lemma ResumeMoves(s: State, e: Event)
    requires Enabled(s, e) && (e.OnHead? || e.ServeLogs? || e.OnLogs? || e.OnAllowance? || e.OnCallback? || e.OnReceipt?)
    requires PollOk(s.log, s.polls[e.p]) && (e.OnReceipt? ==> s.polls[e.p].at.Reverted?)
    ensures PollMoves(s, Step(s, e), e.p)
  {
    if e.OnHead? || e.ServeLogs? || e.OnLogs? {
      FetchMoves(s, e);
    } else {
      HandleMoves(s, e);
    }
  }

  lemma FetchMoves(s: State, e: Event)
    requires Enabled(s, e) && (e.OnHead? || e.ServeLogs? || e.OnLogs?) && PollOk(s.log, s.polls[e.p])
    ensures PollMoves(s, Step(s, e), e.p)
  {
  }

  lemma HandleMoves(s: State, e: Event)
    requires Enabled(s, e) && (e.OnAllowance? || e.OnCallback? || (e.OnReceipt? && s.polls[e.p].at.Reverted?)) && PollOk(s.log, s.polls[e.p])
    ensures PollMoves(s, Step(s, e), e.p)
  {
    if e.OnAllowance? {
      AllowanceMoves(s, e.p);
    } else {
      HandledMoves(s, e.p);
    }
  }

  lemma AllowanceMoves(s: State, p: nat)
    requires LogInHand(s, p) && s.polls[p].at.AllowanceInFlight? && PollOk(s.log, s.polls[p])
    ensures PollMoves(s, DoAllowance(s, p), p)
  {
  }

  lemma HandledMoves(s: State, p: nat)
    requires At(s, p) && s.polls[p].next < |s.polls[p].batch|
    ensures PollMoves(s, Handled(s, p), p)
  {
  }

  lemma PutMoves(s: State, p: nat, at: Await)
    requires At(s, p) && PollOk(s.log, s.polls[p].(at := at)) && !at.Pulled?
    ensures PollMoves(s, Put(s, p, at), p)
  {
  }

  lemma LeaveMoves(s: State, p: nat, at: Await, cid: Cid)
    requires At(s, p) && PollOk(s.log, s.polls[p].(at := at)) && !at.Pulled?
    ensures PollMoves(s, Leave(s, p, at), p) && PollMoves(s, Lose(Leave(s, p, at), cid), p)
  {
  }

  lemma ServedMoves(s: State, e: Event)
    requires Enabled(s, e) && (e.ServeHead? || e.ServeAllowance? || e.OnGas?)
    requires PollOk(s.log, s.polls[e.p])
    ensures PollMoves(s, Step(s, e), e.p)
  {
  }

  lemma FailMoves(s: State, p: nat)
    requires At(s, p) && PollOk(s.log, s.polls[p])
    ensures PollMoves(s, DoFail(s, p), p)
  {
    var at := s.polls[p].at;
    if at.Mining? {
      LeaveMoves(s, p, Abandoned(at.d, at.amount), at.d.cid);
    } else {
      PutMoves(s, p, Ended);
      LeaveMoves(s, p, Ended, if at.Pulled? then at.d.cid else Cid(""));
    }
  }

  lemma MineStep(s: State, p: nat, accepted: bool)
    requires Inv(s) && InMempool(s, p)
    ensures Inv(DoMine(s, p, accepted))
  {
    var s' := DoMine(s, p, accepted);
    assert PollOk(s.log, s.polls[p]);
    if |s'.log.pulls| == |s.log.pulls| {
      PollStep(s, s', p);
    } else {
      forall q | 0 <= q < |s'.polls| ensures PollOk(s'.log, s'.polls[q]) {
        assert PollOk(s.log, s.polls[q]);
      }
      forall i | 0 <= i < |s.log.reports| ensures ReportOk(s'.log, s'.log.reports[i]) {
        assert ReportOk(s.log, s.log.reports[i]);
      }
    }
  }

  lemma ReceiptStep(s: State, p: nat)
    requires Inv(s) && At(s, p) && s.polls[p].at.Pulled? && s.polls[p].at.tx < |s.log.pulls|
    ensures Inv(DoReceipt(s, p))
  {
    var s' := DoReceipt(s, p);
    assert PollOk(s.log, s.polls[p]);
    RemoveIs(s.watch.deposits, s.polls[p].at.d.cid);
    forall q | 0 <= q < |s'.polls| ensures PollOk(s'.log, s'.polls[q]) {
      assert PollOk(s.log, s.polls[q]);
    }
    ReceiptReports(s, p);
  }

  lemma ReceiptReports(s: State, p: nat)
    requires ReportsOk(s.log) && At(s, p) && s.polls[p].at.Pulled? && s.polls[p].at.tx < |s.log.pulls|
    requires PollOk(s.log, s.polls[p])
    ensures ReportsOk(DoReceipt(s, p).log)
  {
    var log' := DoReceipt(s, p).log;
    forall i | 0 <= i < |s.log.reports| ensures ReportOk(log', log'.reports[i]) && s.log.reports[i].tx != s.polls[p].at.tx {
      assert ReportOk(s.log, s.log.reports[i]);
    }
    assert ReportOk(log', log'.reports[|s.log.reports|]);
  }

  lemma AddStep(s: State, d: PullDeposit)
    requires Inv(s) && d.cid !in s.log.known
    ensures Inv(DoAdd(s, d))
  {
    var s' := DoAdd(s, d);
    if s' != s {
      SameReports(s.log, s'.log);
      forall q | 0 <= q < |s'.polls| ensures PollOk(s'.log, s'.polls[q]) {
        assert PollOk(s.log, s.polls[q]);
      }
      forall i | 0 <= i < |s.watch.deposits| ensures Lower(s.watch.deposits[i].contract) != Lower(d.contract) {
      }
    }
  }

  lemma TickStep(s: State, timer: nat)
    requires Inv(s) && timer in s.watch.intervals
    ensures Inv(DoTick(s, timer))
  {
  }

  /** Events that touch neither polls nor deposits nor pulls. */
  lemma AsideStep(s: State, e: Event)
    requires Inv(s) && (e.ServeSeed? || e.OnSeed? || e.FailSeed? || e.NewBlock? || e.Move?)
    ensures Inv(Step(s, e))
  {
    var s' := Step(s, e);
    assert s'.polls == s.polls && s'.watch.deposits == s.watch.deposits;
    SameReports(s.log, s'.log);
    forall q | 0 <= q < |s'.polls| ensures PollOk(s'.log, s'.polls[q]) {
      assert PollOk(s.log, s.polls[q]);
    }
  }

  lemma StepKeepsInv(s: State, e: Event)
    requires Inv(s)
    ensures Inv(Step(s, e))
  {
    if Enabled(s, e) {
      if e.AddDeposit? {
        AddStep(s, e.deposit);
      } else if e.Tick? {
        TickStep(s, e.timer);
      } else if e.Mine? {
        MineStep(s, e.p, e.accepted);
      } else if e.OnReceipt? && s.polls[e.p].at.Pulled? {
        ReceiptStep(s, e.p);
      } else if e.ServeSeed? || e.OnSeed? || e.FailSeed? || e.NewBlock? || e.Move? {
        AsideStep(s, e);
      } else {
        assert PollOk(s.log, s.polls[e.p]);
        if e.OnNextLog? {
          NextLogMoves(s, e.p);
        } else if e.Fail? {
          FailMoves(s, e.p);
        } else if e.ServeHead? || e.ServeAllowance? || e.OnGas? {
          ServedMoves(s, e);
        } else {
          ResumeMoves(s, e);
        }
        PollStep(s, Step(s, e), e.p);
      }
    }
  }

  lemma {:induction false} Reachable(balances: Balances, events: seq<Event>)
    ensures Inv(Run(Start(balances), events))
    decreases |events|
  {
    if events != [] {
      Reachable(balances, events[..|events| - 1]);
      StepKeepsInv(Run(Start(balances), events[..|events| - 1]), events[|events| - 1]);
    }
  }

  /** In every reachable state two open deposits are on different contracts, and
      every report stands for one confirmed transferFrom of its own, of exactly
      the base units its text says, for that deposit. */
  lemma OneOpenAndBackedReports(balances: Balances, events: seq<Event>)
    ensures var s := Run(Start(balances), events);
            && (forall i, j :: 0 <= i < j < |s.watch.deposits| ==> Lower(s.watch.deposits[i].contract) != Lower(s.watch.deposits[j].contract))
            && (forall i, j :: 0 <= i < j < |s.log.reports| ==> s.log.reports[i].tx != s.log.reports[j].tx)
            && (forall i :: 0 <= i < |s.log.reports| ==> Backed(s.log, s.log.reports[i]))
  {
    Reachable(balances, events);
    var s := Run(Start(balances), events);
    forall i | 0 <= i < |s.log.reports| ensures Backed(s.log, s.log.reports[i]) {
      assert ReportOk(s.log, s.log.reports[i]);
      AmountRoundTrip(s.log.pulls[s.log.reports[i].tx].amount, s.log.reports[i].d.decimals);
    }
  }

  ghost predicate Backed(log: Log, r: Report) {
    r.tx < |log.pulls| && log.pulls[r.tx].d == r.d && ParseUnits(r.amount, r.d.decimals) == Ok(log.pulls[r.tx].amount)
  }

  /** A confirmed transferFrom moves exactly its amount from the owner of the log
      in hand to the deposit's destination; no other account changes. */
  lemma PullMovesExactly(s: State, p: nat, token: Address, holder: Address)
    requires InMempool(s, p) && |DoMine(s, p, true).log.pulls| > |s.log.pulls|
    ensures var d, amount, owner := s.polls[p].at.d, s.polls[p].at.amount, LogOf(s, p).owner;
            BalanceOf(DoMine(s, p, true).balances, token, holder)
            == BalanceOf(s.balances, token, holder)
               - (if token == Lower(d.contract) && holder == owner then amount else 0)
               + (if token == Lower(d.contract) && holder == d.destination then amount else 0)
  {
  }

  /* ---- reported <= pulled, per destination ---- */

  lemma {:induction false} TellingAdds(pulls: seq<Pull>, tx: nat, token: Address, destination: Address)
    requires tx < |pulls| && !pulls[tx].told
    ensures PulledTo(pulls[tx := pulls[tx].(told := true)], token, destination, true)
         == PulledTo(pulls, token, destination, true) + if BoundFor(pulls[tx].d, token, destination) then pulls[tx].amount else 0
  {
    var told := pulls[tx := pulls[tx].(told := true)];
    if tx == |pulls| - 1 {
      assert told[..|told| - 1] == pulls[..|pulls| - 1];
    } else {
      TellingAdds(pulls[..|pulls| - 1], tx, token, destination);
      assert told[..|told| - 1] == pulls[..|pulls| - 1][tx := pulls[tx].(told := true)];
    }
  }

  lemma {:induction false} ToldIsPulled(pulls: seq<Pull>, token: Address, destination: Address)
    ensures PulledTo(pulls, token, destination, true) <= PulledTo(pulls, token, destination, false)
  {
    if pulls != [] {
      ToldIsPulled(pulls[..|pulls| - 1], token, destination);
    }
  }

  lemma ReceiptKeepsTotal(s: State, p: nat, token: Address, destination: Address)
    requires At(s, p) && s.polls[p].at.Pulled? && s.polls[p].at.tx < |s.log.pulls| && PollOk(s.log, s.polls[p])
    requires ReportedTo(s.log.reports, token, destination) == PulledTo(s.log.pulls, token, destination, true)
    ensures var log' := DoReceipt(s, p).log;
            ReportedTo(log'.reports, token, destination) == PulledTo(log'.pulls, token, destination, true)
  {
    var log' := DoReceipt(s, p).log;
    TellingAdds(s.log.pulls, s.polls[p].at.tx, token, destination);
    assert log'.reports[..|log'.reports| - 1] == s.log.reports;
    AmountRoundTrip(s.polls[p].at.amount, s.polls[p].at.d.decimals);
  }

  lemma MineKeepsTold(s: State, p: nat, accepted: bool, token: Address, destination: Address)
    requires InMempool(s, p)
    ensures PulledTo(DoMine(s, p, accepted).log.pulls, token, destination, true) == PulledTo(s.log.pulls, token, destination, true)
    ensures DoMine(s, p, accepted).log.reports == s.log.reports
  {
    var pulls' := DoMine(s, p, accepted).log.pulls;
    assert |pulls'| > |s.log.pulls| ==> pulls'[..|pulls'| - 1] == s.log.pulls;
  }

  ghost predicate ReceiptDue(s: State, p: nat) { At(s, p) && s.polls[p].at.Pulled? && s.polls[p].at.tx < |s.log.pulls| && PollOk(s.log, s.polls[p]) }

  /** Pulls and reports are as they were, or a transfer was mined, or told of. */
  ghost predicate PullsMove(s: State, s': State) {
    || (s'.log.pulls == s.log.pulls && s'.log.reports == s.log.reports)
    || (exists p, accepted :: InMempool(s, p) && s' == DoMine(s, p, accepted))
    || exists p :: ReceiptDue(s, p) && s' == DoReceipt(s, p)
  }

  lemma StepMovesPulls(s: State, e: Event)
    requires PollsOk(s)
    ensures PullsMove(s, Step(s, e))
  {
    if Enabled(s, e) && e.Mine? {
      MineIsAMove(s, e.p, e.accepted);
    } else if Enabled(s, e) && e.OnReceipt? && s.polls[e.p].at.Pulled? {
      ReceiptIsAMove(s, e.p);
    } else {
      PullsStay(s, e);
    }
  }

  lemma MineIsAMove(s: State, p: nat, accepted: bool)
    requires InMempool(s, p)
    ensures PullsMove(s, Step(s, Mine(p, accepted)))
  {
    assert Step(s, Mine(p, accepted)) == DoMine(s, p, accepted);
  }

  lemma ReceiptIsAMove(s: State, p: nat)
    requires PollsOk(s) && Enabled(s, OnReceipt(p)) && s.polls[p].at.Pulled?
    ensures PullsMove(s, Step(s, OnReceipt(p)))
  {
    assert ReceiptDue(s, p) && Step(s, OnReceipt(p)) == DoReceipt(s, p);
  }

  lemma PullsStay(s: State, e: Event)
    requires !(Enabled(s, e) && (e.Mine? || (e.OnReceipt? && s.polls[e.p].at.Pulled?)))
    ensures Step(s, e).log.pulls == s.log.pulls && Step(s, e).log.reports == s.log.reports
  {
  }

  /** The told pulls are what was reported, step by step. */
  lemma MovingKeepsTold(s: State, s': State, token: Address, destination: Address)
    requires PullsMove(s, s') && ReportedTo(s.log.reports, token, destination) == PulledTo(s.log.pulls, token, destination, true)
    ensures ReportedTo(s'.log.reports, token, destination) == PulledTo(s'.log.pulls, token, destination, true)
  {
    if p, accepted :| InMempool(s, p) && s' == DoMine(s, p, accepted) {
      MineKeepsTold(s, p, accepted, token, destination);
    } else if p :| ReceiptDue(s, p) && s' == DoReceipt(s, p) {
      ReceiptKeepsTotal(s, p, token, destination);
    }
  }

  lemma {:induction false} ReportedIsTold(balances: Balances, events: seq<Event>, token: Address, destination: Address)
    ensures var log := Run(Start(balances), events).log;
            ReportedTo(log.reports, token, destination) == PulledTo(log.pulls, token, destination, true)
    decreases |events|
  {
    if events != [] {
      var s, e := Run(Start(balances), events[..|events| - 1]), events[|events| - 1];
      ReportedIsTold(balances, events[..|events| - 1], token, destination);
      Reachable(balances, events[..|events| - 1]);
      StepMovesPulls(s, e);
      MovingKeepsTold(s, Run(Start(balances), events), token, destination);
    }
  }

  /** Under any interleaving the base units reported for a destination never
      exceed the confirmed transferFrom value delivered there. */
  lemma ReportsNeverExceedPulls(balances: Balances, events: seq<Event>, token: Address, destination: Address)
    ensures var log := Run(Start(balances), events).log;
            ReportedTo(log.reports, token, destination) <= PulledTo(log.pulls, token, destination, false)
  {
    ReportedIsTold(balances, events, token, destination);
    ToldIsPulled(Run(Start(balances), events).log.pulls, token, destination);
  }
}
