/** Totals of the one-time-address watcher: what is reported was swept, what is
    swept had arrived, and without overlapping polls nothing is reported twice. */
module OtaTotals {
  import opened Wrappers
  import opened Chain
  import opened Amounts
  import opened OtaWatcher
  import opened OtaSafety

  /* ---- reported = told <= swept ---- */

  lemma {:induction false} TellingAdds(sweeps: seq<Sweep>, tx: nat, d: OtaDeposit)
    requires tx < |sweeps| && !sweeps[tx].told
    ensures ToldOf(sweeps[tx := sweeps[tx].(told := true)], d)
         == ToldOf(sweeps, d) + if sweeps[tx].d == d then sweeps[tx].amount else 0
  {
    var told := sweeps[tx := sweeps[tx].(told := true)];
    if tx == |sweeps| - 1 {
      assert told[..|told| - 1] == sweeps[..|sweeps| - 1];
    } else {
      TellingAdds(sweeps[..|sweeps| - 1], tx, d);
      assert told[..|told| - 1] == sweeps[..|sweeps| - 1][tx := sweeps[tx].(told := true)];
    }
  }

  lemma {:induction false} ToldIsSwept(sweeps: seq<Sweep>, d: OtaDeposit)
    ensures ToldOf(sweeps, d) <= SweptOf(sweeps, d) <= SweptFrom(sweeps, d.token, d.ephemeral)
  {
    if sweeps != [] {
      ToldIsSwept(sweeps[..|sweeps| - 1], d);
    }
  }

  lemma ReceiptKeepsTotal(s: State, p: nat, d: OtaDeposit)
    requires ReceiptDue(s, p) && ReportedOf(s.log.reports, d) == ToldOf(s.log.sweeps, d)
    ensures ReportedOf(DoReceipt(s, p).log.reports, d) == ToldOf(DoReceipt(s, p).log.sweeps, d)
  {
    var log' := DoReceipt(s, p).log;
    TellingAdds(s.log.sweeps, s.polls[p].at.tx, d);
    assert log'.reports[..|log'.reports| - 1] == s.log.reports;
    AmountRoundTrip(s.polls[p].at.amount, s.polls[p].d.decimals);
  }

  ghost predicate ReceiptDue(s: State, p: nat) {
    p < |s.polls| && s.polls[p].at.Mined? && s.polls[p].at.tx < |s.log.sweeps| && PollOk(s.log, s.watch.deposits, s.polls[p])
  }

  /** Sweeps and reports are as they were, or a sweep was mined, or told of. */
  ghost predicate LogMoves(s: State, s': State) {
    || (s'.log.sweeps == s.log.sweeps && s'.log.reports == s.log.reports)
    || (exists p, accepted :: InMempool(s, p) && s' == DoMine(s, p, accepted))
    || exists p :: ReceiptDue(s, p) && s' == DoReceipt(s, p)
  }

  lemma StepMovesLog(s: State, e: Event)
    requires PollsOk(s)
    ensures LogMoves(s, Step(s, e))
  {
    if e.OnReceipt? && Enabled(s, e) && s.polls[e.p].at.Mined? {
      assert ReceiptDue(s, e.p) && Step(s, e) == DoReceipt(s, e.p);
    } else if e.Mine? && Enabled(s, e) {
      assert InMempool(s, e.p) && Step(s, e) == DoMine(s, e.p, e.accepted);
    } else {
      LogChangesOnlyBy(s, e);
    }
  }

  lemma MovingKeepsTotal(s: State, s': State, d: OtaDeposit)
    requires LogMoves(s, s') && ReportedOf(s.log.reports, d) == ToldOf(s.log.sweeps, d)
    ensures ReportedOf(s'.log.reports, d) == ToldOf(s'.log.sweeps, d)
  {
    if p, accepted :| InMempool(s, p) && s' == DoMine(s, p, accepted) {
      MineKeepsTold(s, p, accepted, d);
    } else if p :| ReceiptDue(s, p) && s' == DoReceipt(s, p) {
      ReceiptKeepsTotal(s, p, d);
    }
  }

  lemma MineKeepsTold(s: State, p: nat, accepted: bool, d: OtaDeposit)
    requires InMempool(s, p)
    ensures ToldOf(DoMine(s, p, accepted).log.sweeps, d) == ToldOf(s.log.sweeps, d)
    ensures DoMine(s, p, accepted).log.reports == s.log.reports
  {
    var sweeps' := DoMine(s, p, accepted).log.sweeps;
    assert |sweeps'| > |s.log.sweeps| ==> sweeps'[..|sweeps'| - 1] == s.log.sweeps;
  }

  lemma LogChangesOnlyBy(s: State, e: Event)
    requires !(e.Mine? && Enabled(s, e)) && !(e.OnReceipt? && Enabled(s, e) && s.polls[e.p].at.Mined?)
    ensures Step(s, e).log.sweeps == s.log.sweeps && Step(s, e).log.reports == s.log.reports
  {
  }

  lemma {:induction false} ReportedIsTold(gasStation: bool, balances: Balances, events: seq<Event>, d: OtaDeposit)
    ensures var log := Run(Start(gasStation, balances), events).log;
            ReportedOf(log.reports, d) == ToldOf(log.sweeps, d)
    decreases |events|
  {
    if events != [] {
      var before := Run(Start(gasStation, balances), events[..|events| - 1]);
      ReportedIsTold(gasStation, balances, events[..|events| - 1], d);
      Reachable(gasStation, balances, events[..|events| - 1]);
      StepMovesLog(before, events[|events| - 1]);
      MovingKeepsTotal(before, Run(Start(gasStation, balances), events), d);
    }
  }

  /* ---- swept <= arrived ---- */

  /** What an account nobody else pays from has is what reached it less what was swept. */
  ghost predicate Flow(balances: Balances, s: State, token: Address, holder: Address) {
    Account(token, holder) !in s.tokens.payers ==>
      BalanceOf(s.tokens.balances, token, holder) + SweptFrom(s.log.sweeps, token, holder)
      == BalanceOf(balances, token, holder) + SentTo(s.tokens.inflows, token, holder)
  }

  /** A confirmed sweep takes exactly its amount from the one-time address and
      adds exactly that to the target; no other account changes. */
  lemma SweepMovesExactly(s: State, p: nat, token: Address, holder: Address)
    requires InMempool(s, p)
    requires |DoMine(s, p, true).log.sweeps| > |s.log.sweeps|
    ensures var d, amount, s' := s.polls[p].d, s.polls[p].at.amount, DoMine(s, p, true);
            BalanceOf(s'.tokens.balances, token, holder)
            == BalanceOf(s.tokens.balances, token, holder)
               - (if token == d.token && holder == d.ephemeral then amount else 0)
               + (if token == d.token && holder == d.target then amount else 0)
  {
  }

  lemma StepKeepsFlow(balances: Balances, s: State, e: Event, token: Address, holder: Address)
    requires Flow(balances, s, token, holder)
    ensures Flow(balances, Step(s, e), token, holder)
  {
    if Enabled(s, e) {
      match e
      case Mine(p, accepted) => MineKeepsFlow(balances, s, p, accepted, token, holder);
      case OnReceipt(p) =>
        if s.polls[p].at.Mined? {
          SweptFromIgnoresTold(s.log.sweeps, s.polls[p].at.tx, token, holder);
        }
      case Arrive(inflow) => ArriveKeepsFlow(balances, s, inflow, token, holder);
      case Spend(t, from, to, amount) => SpendKeepsFlow(balances, s, t, from, to, amount, token, holder);
      case _ => assert Step(s, e).tokens == s.tokens && Step(s, e).log.sweeps == s.log.sweeps;
    }
  }

  lemma ArriveKeepsFlow(balances: Balances, s: State, inflow: Inflow, token: Address, holder: Address)
    requires Flow(balances, s, token, holder)
    ensures Flow(balances, Step(s, Arrive(inflow)), token, holder)
  {
    var inflows' := s.tokens.inflows + [inflow];
    assert inflows'[..|inflows'| - 1] == s.tokens.inflows;
  }

  lemma SpendKeepsFlow(balances: Balances, s: State, t: Address, from: Address, to: Address, amount: nat, token: Address, holder: Address)
    requires Flow(balances, s, token, holder) && amount <= BalanceOf(s.tokens.balances, t, from)
    ensures Flow(balances, DoSpend(s, t, from, to, amount), token, holder)
  {
    var inflows' := s.tokens.inflows + [Inflow(t, to, amount)];
    assert inflows'[..|inflows'| - 1] == s.tokens.inflows;
  }

  lemma MineKeepsFlow(balances: Balances, s: State, p: nat, accepted: bool, token: Address, holder: Address)
    requires InMempool(s, p) && Flow(balances, s, token, holder)
    ensures Flow(balances, DoMine(s, p, accepted), token, holder)
  {
    var s' := DoMine(s, p, accepted);
    if |s'.log.sweeps| > |s.log.sweeps| {
      assert s'.log.sweeps[..|s'.log.sweeps| - 1] == s.log.sweeps;
      assert s'.tokens.inflows[..|s'.tokens.inflows| - 1] == s.tokens.inflows;
      SweepMovesExactly(s, p, token, holder);
    }
  }

  lemma {:induction false} SweptFromIgnoresTold(sweeps: seq<Sweep>, tx: nat, token: Address, holder: Address)
    requires tx < |sweeps|
    ensures SweptFrom(sweeps[tx := sweeps[tx].(told := true)], token, holder) == SweptFrom(sweeps, token, holder)
  {
    var told := sweeps[tx := sweeps[tx].(told := true)];
    if tx == |sweeps| - 1 {
      assert told[..|told| - 1] == sweeps[..|sweeps| - 1];
    } else {
      SweptFromIgnoresTold(sweeps[..|sweeps| - 1], tx, token, holder);
      assert told[..|told| - 1] == sweeps[..|sweeps| - 1][tx := sweeps[tx].(told := true)];
    }
  }

  lemma {:induction false} RunKeepsFlow(gasStation: bool, balances: Balances, events: seq<Event>, token: Address, holder: Address)
    ensures Flow(balances, Run(Start(gasStation, balances), events), token, holder)
    decreases |events|
  {
    if events != [] {
      RunKeepsFlow(gasStation, balances, events[..|events| - 1], token, holder);
      Reachable(gasStation, balances, events[..|events| - 1]);
      StepKeepsFlow(balances, Run(Start(gasStation, balances), events[..|events| - 1]), events[|events| - 1], token, holder);
    }
  }

  /** One-time addresses are paid from by the watcher only. */
  lemma {:induction false} OnlyWatcherPays(gasStation: bool, balances: Balances, events: seq<Event>, cid: Cid)
    ensures var s := Run(Start(gasStation, balances), events);
            cid in s.log.known ==> Account(s.log.known[cid].token, s.log.known[cid].ephemeral) !in s.tokens.payers
    decreases |events|
  {
    if events != [] {
      OnlyWatcherPays(gasStation, balances, events[..|events| - 1], cid);
    }
  }

  /** Whatever the interleaving, the base units reported for a deposit never
      exceed what was swept for it, nor what ever reached its one-time address. */
  lemma ReportsNeverExceedArrivals(gasStation: bool, balances: Balances, events: seq<Event>, cid: Cid)
    requires cid in Run(Start(gasStation, balances), events).log.known
    ensures var s := Run(Start(gasStation, balances), events);
            var d := s.log.known[cid];
            && ReportedOf(s.log.reports, d) <= SweptOf(s.log.sweeps, d)
            && SweptOf(s.log.sweeps, d) <= BalanceOf(balances, d.token, d.ephemeral) + SentTo(s.tokens.inflows, d.token, d.ephemeral)
  {
    var s := Run(Start(gasStation, balances), events);
    var d := s.log.known[cid];
    ReportedIsTold(gasStation, balances, events, d);
    ToldIsSwept(s.log.sweeps, d);
    RunKeepsFlow(gasStation, balances, events, d.token, d.ephemeral);
    OnlyWatcherPays(gasStation, balances, events, cid);
  }

  /* ---- at most once, when polls of one deposit do not overlap ---- */

  predicate Running(poll: Poll) { !poll.at.Ended? && !poll.at.Abandoned? }

  ghost predicate Alone(s: State) {
    forall p, q :: 0 <= p < q < |s.polls| && Running(s.polls[p]) && Running(s.polls[q]) ==> s.polls[p].d.cid != s.polls[q].d.cid
  }

  ghost predicate NoOverlap(s: State, events: seq<Event>)
    decreases |events|
  {
    Alone(Run(s, events)) && (events == [] || NoOverlap(s, events[..|events| - 1]))
  }

  ghost predicate Reported(log: Log, cid: Cid) {
    exists i :: 0 <= i < |log.reports| && log.reports[i].d.cid == cid
  }

  ghost predicate Once(s: State) {
    && (forall i, j :: 0 <= i < j < |s.log.reports| ==> s.log.reports[i].d.cid != s.log.reports[j].d.cid)
    && (forall i :: 0 <= i < |s.log.reports| ==> s.log.reports[i].d.cid in s.log.known && s.log.reports[i].d.cid !in s.watch.deposits)
    && (forall p :: 0 <= p < |s.polls| && Running(s.polls[p]) && !s.polls[p].at.Callback? ==> !Reported(s.log, s.polls[p].d.cid))
  }

  lemma ReceiptOnce(s: State, p: nat)
    requires Inv(s) && Once(s) && Alone(s)
    requires p < |s.polls| && s.polls[p].at.Mined? && s.polls[p].at.tx < |s.log.sweeps|
    ensures Once(DoReceipt(s, p))
  {
    var s' := DoReceipt(s, p);
    var cid := s.polls[p].d.cid;
    assert PollOk(s.log, s.watch.deposits, s.polls[p]);
    assert !Reported(s.log, cid);
    forall q | 0 <= q < |s'.polls| && Running(s'.polls[q]) && !s'.polls[q].at.Callback?
      ensures !Reported(s'.log, s'.polls[q].d.cid)
    {
      assert q != p && s'.polls[q] == s.polls[q] && !Reported(s.log, s.polls[q].d.cid);
      assert s.polls[q].d.cid != cid;
    }
  }

  /** Steps that report nothing, and start a poll only for an open deposit. */
  ghost predicate Quiet(s: State, s': State) {
    && s'.log.reports == s.log.reports && s'.watch.deposits == s.watch.deposits && s'.log.known == s.log.known
    && forall q :: 0 <= q < |s'.polls| && Running(s'.polls[q]) && !s'.polls[q].at.Callback? ==>
         (q < |s.polls| && Running(s.polls[q]) && !s.polls[q].at.Callback? && s'.polls[q].d == s.polls[q].d)
         || s'.polls[q].d.cid in s.watch.deposits
  }

  lemma QuietOnce(s: State, s': State)
    requires Once(s) && Quiet(s, s')
    ensures Once(s')
  {
    forall q | 0 <= q < |s'.polls| && Running(s'.polls[q]) && !s'.polls[q].at.Callback?
      ensures !Reported(s'.log, s'.polls[q].d.cid)
    {
      if s'.polls[q].d.cid !in s.watch.deposits {
        assert !Reported(s.log, s.polls[q].d.cid);
      }
    }
  }

  lemma EventIsQuiet(s: State, e: Event)
    requires Enabled(s, e) && !e.AddDeposit? && !(e.OnReceipt? && s.polls[e.p].at.Mined?)
    ensures Quiet(s, Step(s, e))
  {
    if e.Mine? || e.OnReceipt? || e.OnCallback? || e.Fail? {
      SettlingIsQuiet(s, e);
    }
  }

  lemma SettlingIsQuiet(s: State, e: Event)
    requires Enabled(s, e) && (e.Mine? || e.OnReceipt? || e.OnCallback? || e.Fail?) && !(e.OnReceipt? && s.polls[e.p].at.Mined?)
    ensures Quiet(s, Step(s, e))
  {
  }

  lemma AddOnce(s: State, d: OtaDeposit)
    requires Once(s) && d.cid !in s.log.known
    ensures Once(Step(s, AddDeposit(d)))
  {
    var s' := Step(s, AddDeposit(d));
    forall q | 0 <= q < |s'.polls| && Running(s'.polls[q]) && !s'.polls[q].at.Callback?
      ensures !Reported(s'.log, s'.polls[q].d.cid)
    {
      assert !Reported(s.log, s.polls[q].d.cid);
    }
  }

  lemma StepOnce(s: State, e: Event)
    requires Inv(s) && Once(s) && Alone(s)
    ensures Once(Step(s, e))
  {
    if Enabled(s, e) {
      if e.AddDeposit? {
        AddOnce(s, e.deposit);
      } else if e.OnReceipt? && s.polls[e.p].at.Mined? {
        ReceiptOnce(s, e.p);
      } else {
        EventIsQuiet(s, e);
        QuietOnce(s, Step(s, e));
      }
    }
  }

  /** If polls of one deposit never overlap, no deposit is reported twice. */
  lemma {:induction false} ReportedAtMostOnce(gasStation: bool, balances: Balances, events: seq<Event>)
    requires NoOverlap(Start(gasStation, balances), events)
    ensures Once(Run(Start(gasStation, balances), events))
    ensures var reports := Run(Start(gasStation, balances), events).log.reports;
            forall i, j :: 0 <= i < j < |reports| ==> reports[i].d.cid != reports[j].d.cid
    decreases |events|
  {
    if events != [] {
      ReportedAtMostOnce(gasStation, balances, events[..|events| - 1]);
      Reachable(gasStation, balances, events[..|events| - 1]);
      assert NoOverlap(Start(gasStation, balances), events[..|events| - 1]);
      StepOnce(Run(Start(gasStation, balances), events[..|events| - 1]), events[|events| - 1]);
    }
  }
}
