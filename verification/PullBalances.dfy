/** Where the pulled tokens end up: over every run a holder's balance is what it
    was plus what was pulled to it and otherwise moved to it, less what went the
    other way (src/integrations/deposits/pull-deposit/approval-watcher.ts:142-189). */
module PullBalances {
  import opened Chain
  import opened PullWatcher
  import opened PullSafety

  /** The base units pulled out of an owner's account. */
  function PulledFrom(pulls: seq<Pull>, token: Address, owner: Address): nat {
    if pulls == [] then 0 else
    var last := pulls[|pulls| - 1];
    PulledFrom(pulls[..|pulls| - 1], token, owner) + if Lower(last.d.contract) == token && last.owner == owner then last.amount else 0
  }

  /** What a transfer of somebody else's adds to a holder's balance. */
  function MoveAdds(s: State, e: Event, token: Address, who: Address): int {
    if !e.Move? || !Enabled(s, e) || e.token != token then 0
    else (if e.to == who then e.amount else 0) - (if e.from == who then e.amount else 0)
  }

  function MovedNet(s: State, events: seq<Event>, token: Address, who: Address): int {
    if events == [] then 0 else
    MovedNet(s, events[..|events| - 1], token, who) + MoveAdds(Run(s, events[..|events| - 1]), events[|events| - 1], token, who)
  }

  /** What the watcher's own transfers come to for a holder. */
  function PulledNet(pulls: seq<Pull>, token: Address, who: Address): int { PulledTo(pulls, token, who, false) - PulledFrom(pulls, token, who) }

  lemma OneMorePull(pulls: seq<Pull>, pull: Pull, token: Address, who: Address)
    ensures PulledNet(pulls + [pull], token, who)
         == PulledNet(pulls, token, who)
            + (if Lower(pull.d.contract) == token && pull.d.destination == who then pull.amount else 0)
            - (if Lower(pull.d.contract) == token && pull.owner == who then pull.amount else 0)
  {
    assert (pulls + [pull])[..|pulls + [pull]| - 1] == pulls;
  }

  /** Telling the callback moves nothing. */
  lemma {:induction false} TellingMovesNothing(pulls: seq<Pull>, tx: nat, token: Address, who: Address)
    requires tx < |pulls|
    ensures PulledNet(pulls[tx := pulls[tx].(told := true)], token, who) == PulledNet(pulls, token, who)
  {
    var told := pulls[tx := pulls[tx].(told := true)];
    if tx == |pulls| - 1 {
      assert told[..|told| - 1] == pulls[..|pulls| - 1];
    } else {
      TellingMovesNothing(pulls[..|pulls| - 1], tx, token, who);
      assert told[..|told| - 1] == pulls[..|pulls| - 1][tx := pulls[tx].(told := true)];
    }
  }

  lemma MineAddsUp(s: State, p: nat, accepted: bool, token: Address, who: Address)
    requires InMempool(s, p)
    ensures var s' := DoMine(s, p, accepted);
            BalanceOf(s'.balances, token, who) - BalanceOf(s.balances, token, who)
            == PulledNet(s'.log.pulls, token, who) - PulledNet(s.log.pulls, token, who)
  {
    var d, amount, owner := s.polls[p].at.d, s.polls[p].at.amount, LogOf(s, p).owner;
    if accepted && amount <= BalanceOf(s.balances, Lower(d.contract), owner) {
      OneMorePull(s.log.pulls, Pull(d, owner, amount, false), token, who);
    }
  }

  lemma ReceiptAddsUp(s: State, p: nat, token: Address, who: Address)
    requires At(s, p) && s.polls[p].at.Pulled? && s.polls[p].at.tx < |s.log.pulls|
    ensures DoReceipt(s, p).balances == s.balances
    ensures PulledNet(DoReceipt(s, p).log.pulls, token, who) == PulledNet(s.log.pulls, token, who)
  {
    TellingMovesNothing(s.log.pulls, s.polls[p].at.tx, token, who);
  }

  lemma OthersMoveNothing(s: State, e: Event)
    requires !e.Move? && !(Enabled(s, e) && (e.Mine? || (e.OnReceipt? && s.polls[e.p].at.Pulled?)))
    ensures Step(s, e).balances == s.balances && Step(s, e).log.pulls == s.log.pulls
  {
  }

  lemma StepAddsUp(s: State, e: Event, token: Address, who: Address)
    ensures BalanceOf(Step(s, e).balances, token, who) - BalanceOf(s.balances, token, who)
         == PulledNet(Step(s, e).log.pulls, token, who) - PulledNet(s.log.pulls, token, who) + MoveAdds(s, e, token, who)
  {
    if Enabled(s, e) && e.Mine? {
      MineAddsUp(s, e.p, e.accepted, token, who);
      assert Step(s, e) == DoMine(s, e.p, e.accepted);
    } else if Enabled(s, e) && e.OnReceipt? && s.polls[e.p].at.Pulled? {
      ReceiptAddsUp(s, e.p, token, who);
      assert Step(s, e) == DoReceipt(s, e.p);
    } else if e.Move? {
      MoveAddsUp(s, e, token, who);
    } else {
      OthersMoveNothing(s, e);
    }
  }

  lemma MoveAddsUp(s: State, e: Event, token: Address, who: Address)
    requires e.Move?
    ensures Step(s, e).log.pulls == s.log.pulls
    ensures BalanceOf(Step(s, e).balances, token, who) == BalanceOf(s.balances, token, who) + MoveAdds(s, e, token, who)
  {
  }

  /** For every run and every holder. */
  lemma {:induction false} BalancesAddUp(balances: Balances, events: seq<Event>, token: Address, who: Address)
    ensures var s := Run(Start(balances), events);
            BalanceOf(s.balances, token, who)
            == BalanceOf(balances, token, who)
               + PulledTo(s.log.pulls, token, who, false) - PulledFrom(s.log.pulls, token, who)
               + MovedNet(Start(balances), events, token, who)
    decreases |events|
  {
    if events != [] {
      var init, e := events[..|events| - 1], events[|events| - 1];
      BalancesAddUp(balances, init, token, who);
      StepAddsUp(Run(Start(balances), init), e, token, who);
    }
  }

  /** What is reported for a destination is there: its balance has grown by no less
      than the reports say, apart from what others moved and what was pulled from it. */
  lemma ReportedIsThere(balances: Balances, events: seq<Event>, token: Address, destination: Address)
    ensures var s := Run(Start(balances), events);
            ReportedTo(s.log.reports, token, destination)
            <= BalanceOf(s.balances, token, destination) - BalanceOf(balances, token, destination)
               + PulledFrom(s.log.pulls, token, destination) - MovedNet(Start(balances), events, token, destination)
  {
    BalancesAddUp(balances, events, token, destination);
    ReportsNeverExceedPulls(balances, events, token, destination);
  }
}
