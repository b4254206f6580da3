/** What one undisturbed round of polling does to a one-time-address deposit, from
    its timer to the end of the callback (balance-watcher.ts:51-108), and what
    every confirmed sweep had behind it, however polls overlap. */
module OtaRounds {
  import opened Wrappers
  import opened Chain
  import opened Amounts
  import opened OtaWatcher
  import opened OtaSafety

  lemma RunOne(s: State, e: Event)
    ensures Run(s, [e]) == Step(s, e)
  {
    assert [e][..0] == [];
  }

  lemma RunSnoc(s: State, events: seq<Event>, e: Event)
    ensures Run(s, events + [e]) == Step(Run(s, events), e)
  {
    assert (events + [e])[..|events + [e]| - 1] == events;
  }

  lemma {:induction false} RunThen(s: State, first: seq<Event>, second: seq<Event>)
    ensures Run(s, first + second) == Run(Run(s, first), second)
    decreases |second|
  {
    if second == [] {
      assert first + second == first;
    } else {
      RunThen(s, first, second[..|second| - 1]);
      assert (first + second)[..|first + second| - 1] == first + second[..|second| - 1];
    }
  }

  /** The timer fires, the balance is read and looked at. */
  function Reading(timer: nat, p: nat): seq<Event> { [Tick(timer)] + [ServeBalance(p)] + [OnBalance(p)] }

  /** The sweep is sent and mined, its receipt comes, the callback returns. */
  function Sweeping(p: nat): seq<Event> { [OnGas(p), Mine(p, true), OnReceipt(p), OnCallback(p)] }

  function Round(timer: nat, p: nat): seq<Event> { Reading(timer, p) + Sweeping(p) }

  /** A timer of an open deposit that no poll is sweeping. */
  predicate Fires(s: State, timer: nat) {
    && timer in s.watch.intervals && s.watch.intervals[timer].cid in s.watch.deposits
    && s.watch.intervals[timer].cid !in s.inFlight
  }

  function BalanceSeen(s: State, timer: nat): nat
    requires Fires(s, timer)
  {
    BalanceOf(s.tokens.balances, s.watch.intervals[timer].token, s.watch.intervals[timer].ephemeral)
  }

  predicate Covered(s: State, timer: nat)
    requires Fires(s, timer)
  {
    var expected, b := s.watch.intervals[timer].expected, BalanceSeen(s, timer);
    b > 0 && s.gasStation && (expected.Anything? || (expected.Units? && b >= expected.units))
  }

  /** The activation a timer begins, at one of its awaits. */
  function Begun(s: State, timer: nat, at: Await): State
    requires timer in s.watch.intervals
  {
    s.(polls := s.polls + [Poll(s.watch.intervals[timer], at)])
  }

  lemma TimerFires(s: State, timer: nat)
    requires Fires(s, timer)
    ensures Step(s, Tick(timer)) == Begun(s, timer, Balance)
  {
  }

  lemma BalanceServed(s: State, timer: nat)
    requires Fires(s, timer)
    ensures Step(Begun(s, timer, Balance), ServeBalance(|s.polls|)) == Begun(s, timer, BalanceInFlight(BalanceSeen(s, timer)))
  {
    SetLast(s.polls, s.watch.intervals[timer], Balance, BalanceInFlight(BalanceSeen(s, timer)));
  }

  lemma BalanceComes(s: State, timer: nat)
    requires Fires(s, timer)
    ensures var d, b := s.watch.intervals[timer], BalanceSeen(s, timer);
            Step(Begun(s, timer, BalanceInFlight(b)), OnBalance(|s.polls|))
            == if Covered(s, timer) then Begun(s, timer, Gas(b)).(inFlight := s.inFlight + {d.cid}) else Begun(s, timer, Ended)
  {
    var d, b := s.watch.intervals[timer], BalanceSeen(s, timer);
    SetLast(s.polls, d, BalanceInFlight(b), Gas(b));
    SetLast(s.polls, d, BalanceInFlight(b), Ended);
    assert s.inFlight - {d.cid} == s.inFlight;
  }

  lemma Read(s: State, timer: nat)
    requires Fires(s, timer)
    ensures var d, b := s.watch.intervals[timer], BalanceSeen(s, timer);
            Run(s, Reading(timer, |s.polls|))
            == if Covered(s, timer) then Begun(s, timer, Gas(b)).(inFlight := s.inFlight + {d.cid}) else Begun(s, timer, Ended)
  {
    var p := |s.polls|;
    RunOne(s, Tick(timer));
    TimerFires(s, timer);
    RunSnoc(s, [Tick(timer)], ServeBalance(p));
    BalanceServed(s, timer);
    RunSnoc(s, [Tick(timer)] + [ServeBalance(p)], OnBalance(p));
    BalanceComes(s, timer);
  }

  lemma SetLast(polls: seq<Poll>, d: OtaDeposit, at: Await, at': Await)
    ensures SetPoll(polls + [Poll(d, at)], |polls|, at') == polls + [Poll(d, at')]
  {
  }

  lemma RunFour(s: State, a: Event, b: Event, c: Event, d: Event)
    ensures Run(s, [a, b, c, d]) == Step(Step(Step(Step(s, a), b), c), d)
  {
    RunOne(s, a);
    RunSnoc(s, [a], b);
    assert [a] + [b] == [a, b];
    RunSnoc(s, [a, b], c);
    assert [a, b] + [c] == [a, b, c];
    RunSnoc(s, [a, b, c], d);
    assert [a, b, c] + [d] == [a, b, c, d];
  }

  /** An activation that is over is not moved by any of this. */
  lemma NothingToSweep(s: State, p: nat)
    requires p < |s.polls| && s.polls[p].at.Ended?
    ensures Run(s, Sweeping(p)) == s
  {
    RunFour(s, OnGas(p), Mine(p, true), OnReceipt(p), OnCallback(p));
  }

  /** The poll at its sweep, with the tokens it is about to sweep. */
  predicate Sweepable(s: State, p: nat) {
    && p < |s.polls| && s.polls[p].at.Gas?
    && s.polls[p].at.amount == BalanceOf(s.tokens.balances, s.polls[p].d.token, s.polls[p].d.ephemeral)
  }

  lemma Sends(s: State, p: nat)
    requires Sweepable(s, p)
    ensures var d, amount := s.polls[p].d, s.polls[p].at.amount;
            Step(Step(s, OnGas(p)), Mine(p, true))
            == s.(polls := SetPoll(s.polls, p, Mined(amount, |s.log.sweeps|)),
                  tokens := s.tokens.(balances := Transfer(s.tokens.balances, d.token, d.ephemeral, d.target, amount),
                                      inflows := s.tokens.inflows + [Inflow(d.token, d.target, amount)]),
                  log := s.log.(sweeps := s.log.sweeps + [Sweep(d, amount, false)]))
  {
    var s1 := Put(s, p, Mining(s.polls[p].at.amount));
    assert Step(s, OnGas(p)) == s1;
    SetTwice(s.polls, p, Mining(s.polls[p].at.amount), Mined(s.polls[p].at.amount, |s.log.sweeps|));
  }

  lemma SetTwice(polls: seq<Poll>, p: nat, at: Await, at': Await)
    requires p < |polls|
    ensures SetPoll(SetPoll(polls, p, at), p, at') == SetPoll(polls, p, at')
  {
  }

  /** The receipt closes the deposit and is reported; the callback returns. */
  lemma Tells(s: State, p: nat, sweeps: seq<Sweep>)
    requires p < |s.polls| && s.polls[p].at.Mined? && s.polls[p].at.tx == |sweeps|
    requires s.log.sweeps == sweeps + [Sweep(s.polls[p].d, s.polls[p].at.amount, false)]
    ensures var d, amount, s' := s.polls[p].d, s.polls[p].at.amount, Step(Step(s, OnReceipt(p)), OnCallback(p));
            && s'.watch == StopIn(s.watch, d.cid) && s'.inFlight == s.inFlight - {d.cid} && s'.tokens == s.tokens
            && s'.log == Log(s.log.known, sweeps + [Sweep(d, amount, true)],
                             s.log.reports + [Report(d, FormatUnits(amount, d.decimals), |sweeps|)])
  {
    assert Step(s, OnReceipt(p)) == DoReceipt(s, p);
    assert s.log.sweeps[|sweeps| := Sweep(s.polls[p].d, s.polls[p].at.amount, true)] == sweeps + [Sweep(s.polls[p].d, s.polls[p].at.amount, true)];
    var s1 := DoReceipt(s, p);
    assert s1.polls[p].at.Callback? && Step(s1, OnCallback(p)) == Leave(s1, p, Ended);
  }

  /** An undisturbed round sweeps, exactly if there is a balance, it covers what
      was announced and there is a gas station: then the one-time address is
      emptied into the target, exactly its balance is reported, and the deposit
      is closed. Otherwise deposits, tokens and reports are as they were. */
  lemma SweepsExactlyWhenCovered(s: State, timer: nat)
    requires Fires(s, timer)
    ensures var d, b, s' := s.watch.intervals[timer], BalanceSeen(s, timer), Run(s, Round(timer, |s.polls|));
            if b > 0 && s.gasStation && (d.expected.Anything? || (d.expected.Units? && b >= d.expected.units)) then
              && s'.log.sweeps == s.log.sweeps + [Sweep(d, b, true)]
              && s'.log.reports == s.log.reports + [Report(d, FormatUnits(b, d.decimals), |s.log.sweeps|)]
              && s'.watch == StopIn(s.watch, d.cid)
              && s'.tokens.balances == Transfer(s.tokens.balances, d.token, d.ephemeral, d.target, b)
              && (d.ephemeral != d.target ==> BalanceOf(s'.tokens.balances, d.token, d.ephemeral) == 0)
            else
              s'.log == s.log && s'.watch == s.watch && s'.tokens == s.tokens && s'.inFlight == s.inFlight
  {
    var p, d, b := |s.polls|, s.watch.intervals[timer], BalanceSeen(s, timer);
    var read := Run(s, Reading(timer, p));
    RunThen(s, Reading(timer, p), Sweeping(p));
    Read(s, timer);
    if Covered(s, timer) {
      RunFour(read, OnGas(p), Mine(p, true), OnReceipt(p), OnCallback(p));
      Sends(read, p);
      Tells(Step(Step(read, OnGas(p)), Mine(p, true)), p, s.log.sweeps);
    } else {
      NothingToSweep(read, p);
    }
  }

  /** In terms of the text the depositor was told: without one any balance is
      swept, a text that names an amount is waited for in full, and one that
      cannot be read is never swept. */
  lemma SweptAsAnnounced(s: State, timer: nat, announced: Option<string>)
    requires Fires(s, timer) && s.watch.intervals[timer].expected == Expect(announced, s.watch.intervals[timer].decimals)
    ensures var d, b, s' := s.watch.intervals[timer], BalanceSeen(s, timer), Run(s, Round(timer, |s.polls|));
            s'.log.sweeps ==
              if b > 0 && s.gasStation &&
                 (announced.None? || announced.value == "" ||
                  match ParseUnits(announced.value, d.decimals) case Ok(units) => b >= units case Err(_) => false)
              then s.log.sweeps + [Sweep(d, b, true)] else s.log.sweeps
  {
    SweepsExactlyWhenCovered(s, timer);
  }

  /* ---- a receipt that never comes back ---- */

  /** The sweep is sent and mined, and waiting for its receipt throws. */
  function Losing(p: nat): seq<Event> { [OnGas(p), Mine(p, true), Fail(p)] }

  lemma RunThree(s: State, a: Event, b: Event, c: Event)
    ensures Run(s, [a, b, c]) == Step(Step(Step(s, a), b), c)
  {
    RunOne(s, a);
    RunSnoc(s, [a], b);
    assert [a] + [b] == [a, b];
    RunSnoc(s, [a, b], c);
    assert [a, b] + [c] == [a, b, c];
  }

  lemma Loses(s: State, p: nat)
    requires Sweepable(s, p)
    ensures var d, b, s' := s.polls[p].d, s.polls[p].at.amount, Run(s, Losing(p));
            && s'.watch == s.watch && s'.inFlight == s.inFlight - {d.cid} && s'.gasStation == s.gasStation
            && s'.log == s.log.(sweeps := s.log.sweeps + [Sweep(d, b, false)])
            && s'.tokens.balances == Transfer(s.tokens.balances, d.token, d.ephemeral, d.target, b)
  {
    RunThree(s, OnGas(p), Mine(p, true), Fail(p));
    Sends(s, p);
    var mined := Step(Step(s, OnGas(p)), Mine(p, true));
    assert Step(mined, Fail(p)) == Leave(mined, p, Ended);
  }

  /** Whatever the deposit: if the receipt of its sweep is lost, the tokens have
      gone to the target, nothing is reported and the deposit stays open; and the
      next round, finding its address empty, reports nothing either. */
  lemma LostReceiptIsNeverReported(s: State, timer: nat)
    requires Fires(s, timer) && Covered(s, timer) && s.watch.intervals[timer].ephemeral != s.watch.intervals[timer].target
    ensures var d, b, lost := s.watch.intervals[timer], BalanceSeen(s, timer), Run(s, Reading(timer, |s.polls|) + Losing(|s.polls|));
            && lost.log.sweeps == s.log.sweeps + [Sweep(d, b, false)] && lost.log.reports == s.log.reports && lost.watch == s.watch
            && Fires(lost, timer) && BalanceSeen(lost, timer) == 0
            && var next := Run(lost, Round(timer, |lost.polls|));
               next.log == lost.log && next.watch == s.watch && next.tokens == lost.tokens
  {
    var p, d, read := |s.polls|, s.watch.intervals[timer], Run(s, Reading(timer, |s.polls|));
    RunThen(s, Reading(timer, p), Losing(p));
    Read(s, timer);
    Loses(read, p);
    assert s.inFlight + {d.cid} - {d.cid} == s.inFlight;
    SweepsExactlyWhenCovered(Run(read, Losing(p)), timer);
  }

  /* ---- over whole runs ---- */

  predicate Sent(at: Await) { at.Gas? || at.Mining? || at.Abandoned? || at.Mined? }

  /** Without a gas station nothing is ever sent. */
  ghost predicate Gassed(s: State) {
    s.gasStation || (s.log.sweeps == [] && forall p :: 0 <= p < |s.polls| ==> !Sent(s.polls[p].at))
  }

  lemma StepKeepsGassed(s: State, e: Event)
    requires Gassed(s)
    ensures Gassed(Step(s, e)) && Step(s, e).gasStation == s.gasStation
  {
  }

  lemma {:induction false} RunKeepsGassed(gasStation: bool, balances: Balances, events: seq<Event>)
    ensures var s := Run(Start(gasStation, balances), events); Gassed(s) && s.gasStation == gasStation
    decreases |events|
  {
    if events != [] {
      RunKeepsGassed(gasStation, balances, events[..|events| - 1]);
      StepKeepsGassed(Run(Start(gasStation, balances), events[..|events| - 1]), events[|events| - 1]);
    }
  }

  /** Under every interleaving each confirmed sweep is of a positive amount, no
      less than its deposit announced and never of one whose announcement cannot
      be read, and there is a gas station. */
  lemma SweptOnlyWhenCovered(gasStation: bool, balances: Balances, events: seq<Event>, i: nat)
    requires i < |Run(Start(gasStation, balances), events).log.sweeps|
    ensures var sweep := Run(Start(gasStation, balances), events).log.sweeps[i];
            && sweep.amount > 0 && gasStation && !sweep.d.expected.Unreadable?
            && (sweep.d.expected.Units? ==> sweep.amount >= sweep.d.expected.units)
  {
    Reachable(gasStation, balances, events);
    RunKeepsGassed(gasStation, balances, events);
    assert EnoughFor(Run(Start(gasStation, balances), events).log.sweeps[i].d, Run(Start(gasStation, balances), events).log.sweeps[i].amount);
  }

  /** However polls overlap, a deposit announced with the text of an amount is
      never swept for less. */
  lemma NeverSweptShort(gasStation: bool, balances: Balances, events: seq<Event>, i: nat, n: nat)
    requires i < |Run(Start(gasStation, balances), events).log.sweeps|
    requires var d := Run(Start(gasStation, balances), events).log.sweeps[i].d;
             d.expected == Expect(Some(FormatUnits(n, d.decimals)), d.decimals)
    ensures Run(Start(gasStation, balances), events).log.sweeps[i].amount >= n
  {
    ExpectsWhatItSays(n, Run(Start(gasStation, balances), events).log.sweeps[i].d.decimals);
    SweptOnlyWhenCovered(gasStation, balances, events, i);
  }
}
