/** What an undisturbed poll does, from its timer to the mined transfer, and how
    runs are put together. */
module PullRuns {
  import opened Wrappers
  import opened Chain
  import opened PullWatcher
  import opened PullSafety
  import opened PullOnce
  import opened PullOverlap

  /* ---- one run after another ---- */

  lemma {:induction false} RunThen(s: State, first: seq<Event>, second: seq<Event>)
    ensures Run(s, first + second) == Run(Run(s, first), second)
    decreases |second|
  {
    if second == [] {
      assert first + second == first;
    } else {
      RunThen(s, first, second[..|second| - 1]);
      assert (first + second)[..|first + second| - 1] == first + second[..|second| - 1];
    }
  }

  lemma RunOne(s: State, e: Event)
    ensures Run(s, [e]) == Step(s, e)
  {
    assert [e][..0] == [];
  }

  lemma RunSnoc(s: State, events: seq<Event>, e: Event)
    ensures Run(s, events + [e]) == Step(Run(s, events), e)
  {
    assert (events + [e])[..|events + [e]| - 1] == events;
  }

  lemma InTimeInit(s: State, events: seq<Event>, init: seq<Event>, e: Event)
    requires FetchesInTime(s, events) && events == init + [e]
    ensures FetchesInTime(s, init) && InTime(Run(s, init), e)
  {
    assert events[..|events| - 1] == init;
  }

  lemma InTimeSnoc(s: State, events: seq<Event>, init: seq<Event>, e: Event)
    requires FetchesInTime(s, init) && InTime(Run(s, init), e) && events == init + [e]
    ensures FetchesInTime(s, events)
  {
    assert events[..|events| - 1] == init;
  }

  lemma {:induction false} InTimeThen(s: State, first: seq<Event>, second: seq<Event>)
    requires FetchesInTime(s, first) && FetchesInTime(Run(s, first), second)
    ensures FetchesInTime(s, first + second)
    decreases |second|
  {
    if second == [] {
      assert first + second == first;
    } else {
      InTimeOneMore(s, first, second, second[..|second| - 1], second[|second| - 1]);
    }
  }

  lemma {:induction false} InTimeOneMore(s: State, first: seq<Event>, second: seq<Event>, init: seq<Event>, e: Event)
    requires FetchesInTime(s, first) && FetchesInTime(Run(s, first), second) && second == init + [e]
    ensures FetchesInTime(s, first + second)
    decreases |second|, 0
  {
    InTimeInit(Run(s, first), second, init, e);
    InTimeThen(s, first, init);
    RunThen(s, first, init);
    InTimeSnoc(s, first + second, first + init, e);
  }

  lemma {:induction false} NoTimerInTime(s: State, events: seq<Event>)
    requires forall i :: 0 <= i < |events| ==> !events[i].Tick?
    ensures FetchesInTime(s, events)
    decreases |events|
  {
    if events != [] {
      NoTimerInTime(s, events[..|events| - 1]);
    }
  }

  /* ---- an undisturbed poll ---- */

  /** From the timer to the first log of the batch. */
  function FetchHeadEvents(timer: nat, p: nat): seq<Event> { [Tick(timer), ServeHead(p), OnHead(p)] }
  function FetchLogsEvents(p: nat): seq<Event> { [ServeLogs(p), OnLogs(p)] }
  function Fetch(timer: nat, p: nat): seq<Event> { FetchHeadEvents(timer, p) + FetchLogsEvents(p) }

  /** From a log to the mined transfer, the chain answering `allowance`. */
  function Ask(p: nat, allowance: nat): seq<Event> { [OnNextLog(p), ServeAllowance(p, allowance), OnAllowance(p)] }
  function Send(p: nat): seq<Event> { [OnGas(p), Mine(p, true)] }
  function Handle(p: nat, allowance: nat): seq<Event> { Ask(p, allowance) + Send(p) }

  /** Two or three events, each with what it leads to. */
  lemma RunTwo(s: State, a: Event, b: Event, s1: State)
    requires Step(s, a) == s1
    ensures Run(s, [a, b]) == Step(s1, b)
  {
    RunOne(s, a);
    RunSnoc(s, [a], b);
    assert [a] + [b] == [a, b];
  }

  lemma RunTriple(s: State, a: Event, b: Event, c: Event, s1: State, s2: State)
    requires Step(s, a) == s1 && Step(s1, b) == s2
    ensures Run(s, [a, b, c]) == Step(s2, c)
  {
    RunTwo(s, a, b, s1);
    RunSnoc(s, [a, b], c);
    assert [a, b] + [c] == [a, b, c];
  }

  /** A timer may start a poll that has something to fetch. */
  predicate Due(s: State, timer: nat) {
    && timer in s.watch.intervals
    && var contract := s.watch.intervals[timer]; var key := Lower(contract);
       && key !in s.inFlight && HasOpenDeposit(s.watch.deposits, contract) && key in s.watch.lastSeen
       && s.watch.lastSeen[key] + 1 <= s.blocks.head
       && Matching(s.blocks.logs, key, s.watch.lastSeen[key] + 1, s.blocks.head) != []
  }

  function DuePoll(s: State, timer: nat): Poll
    requires Due(s, timer)
  {
    var contract := s.watch.intervals[timer];
    var from := s.watch.lastSeen[Lower(contract)] + 1;
    Poll(contract, from, s.blocks.head, Matching(s.blocks.logs, Lower(contract), from, s.blocks.head), 0, NextLog)
  }

  lemma SetLast(polls: seq<Poll>, one: Poll, two: Poll)
    ensures (polls + [one])[|polls| := two] == polls + [two]
  {
  }

  /** The activation a timer begins, before it has logs. */
  function Begun(s: State, timer: nat, latest: nat, at: Await): State
    requires timer in s.watch.intervals
  {
    var contract := s.watch.intervals[timer];
    var cursor := if Lower(contract) in s.watch.lastSeen then s.watch.lastSeen[Lower(contract)] else 0;
    s.(polls := s.polls + [Poll(contract, cursor + 1, latest, [], 0, at)])
  }

  lemma TimerFires(s: State, timer: nat)
    requires Due(s, timer)
    ensures Step(s, Tick(timer)) == Begun(s, timer, 0, Head)
  {
  }

  lemma HeadServed(s: State, timer: nat)
    requires timer in s.watch.intervals
    ensures Step(Begun(s, timer, 0, Head), ServeHead(|s.polls|)) == Begun(s, timer, 0, HeadInFlight(s.blocks.head))
  {
    var d := Begun(s, timer, 0, Head).polls[|s.polls|];
    SetLast(s.polls, d, d.(at := HeadInFlight(s.blocks.head)));
  }

  lemma HeadComes(s: State, timer: nat)
    requires timer in s.watch.intervals
    requires Begun(s, timer, 0, Head).polls[|s.polls|].from <= s.blocks.head
    ensures Step(Begun(s, timer, 0, HeadInFlight(s.blocks.head)), OnHead(|s.polls|)) == Begun(s, timer, s.blocks.head, Logs)
  {
    var d := Begun(s, timer, 0, HeadInFlight(s.blocks.head)).polls[|s.polls|];
    SetLast(s.polls, d, d.(latest := s.blocks.head, at := Logs));
  }

  lemma FetchHead(s: State, timer: nat)
    requires Due(s, timer)
    ensures Run(s, FetchHeadEvents(timer, |s.polls|)) == Begun(s, timer, s.blocks.head, Logs)
  {
    TimerFires(s, timer);
    HeadServed(s, timer);
    HeadComes(s, timer);
    RunTriple(s, Tick(timer), ServeHead(|s.polls|), OnHead(|s.polls|), Begun(s, timer, 0, Head), Begun(s, timer, 0, HeadInFlight(s.blocks.head)));
  }

  lemma FetchLogs(s: State, timer: nat)
    requires Due(s, timer)
    ensures var d := DuePoll(s, timer);
            Run(Begun(s, timer, s.blocks.head, Logs), FetchLogsEvents(|s.polls|))
            == s.(polls := s.polls + [d], inFlight := s.inFlight + {Lower(d.contract)})
  {
    var p, d := |s.polls|, DuePoll(s, timer);
    var s3, s4 := s.(polls := s.polls + [d.(batch := [], at := Logs)]), s.(polls := s.polls + [d.(at := LogsInFlight)]);
    SetLast(s.polls, d.(batch := [], at := Logs), d.(at := LogsInFlight));
    assert Step(s3, ServeLogs(p)) == s4;
    SetLast(s.polls, d.(at := LogsInFlight), d);
    RunTwo(s3, ServeLogs(p), OnLogs(p), s4);
  }

  lemma Fetches(s: State, timer: nat)
    requires Due(s, timer)
    ensures var d := DuePoll(s, timer);
            Run(s, Fetch(timer, |s.polls|)) == s.(polls := s.polls + [d], inFlight := s.inFlight + {Lower(d.contract)})
  {
    RunThen(s, FetchHeadEvents(timer, |s.polls|), FetchLogsEvents(|s.polls|));
    FetchHead(s, timer);
    FetchLogs(s, timer);
  }

  /** A log whose deposit can be pulled for. */
  predicate Pullable(s: State, p: nat, d: PullDeposit, allowance: nat) {
    && LogInHand(s, p) && s.polls[p].at.NextLog? && FindMatching(s.watch.deposits, s.polls[p].contract) == Found(d)
    && !d.expected.Unreadable? && 0 <= Desired(d, LogOf(s, p).value) <= allowance
    && Desired(d, LogOf(s, p).value) <= BalanceOf(s.balances, Lower(d.contract), LogOf(s, p).owner)
  }

  function Pulling(s: State, p: nat, d: PullDeposit, allowance: nat): State
    requires Pullable(s, p, d, allowance)
  {
    var n, owner := Desired(d, LogOf(s, p).value), LogOf(s, p).owner;
    s.(polls := s.polls[p := s.polls[p].(at := Pulled(d, n, |s.log.pulls|))],
       balances := Transfer(s.balances, Lower(d.contract), owner, d.destination, n),
       log := s.log.(pulls := s.log.pulls + [Pull(d, owner, n, false)]))
  }

  lemma SetTwice(polls: seq<Poll>, p: nat, one: Poll, two: Poll)
    requires p < |polls|
    ensures polls[p := one][p := two] == polls[p := two]
  {
  }

  lemma PutTwice(s: State, p: nat, one: Await, two: Await)
    requires At(s, p)
    ensures Put(Put(s, p, one), p, two) == Put(s, p, two)
  {
    SetTwice(s.polls, p, s.polls[p].(at := one), s.polls[p].(at := two));
  }

  lemma HandleAsks(s: State, p: nat, d: PullDeposit, allowance: nat)
    requires Pullable(s, p, d, allowance)
    ensures Run(s, Ask(p, allowance)) == Put(s, p, Gas(d, Desired(d, LogOf(s, p).value)))
  {
    var s1, s2 := Put(s, p, Allowance(d)), Put(s, p, AllowanceInFlight(d, allowance));
    assert Step(s, OnNextLog(p)) == s1;
    PutTwice(s, p, Allowance(d), AllowanceInFlight(d, allowance));
    assert Step(s1, ServeAllowance(p, allowance)) == s2;
    PutTwice(s, p, AllowanceInFlight(d, allowance), Gas(d, Desired(d, LogOf(s, p).value)));
    assert LogOf(s2, p) == LogOf(s, p);
    RunTriple(s, OnNextLog(p), ServeAllowance(p, allowance), OnAllowance(p), s1, s2);
  }

  lemma HandleSends(s: State, p: nat, d: PullDeposit, allowance: nat)
    requires Pullable(s, p, d, allowance)
    ensures Run(Put(s, p, Gas(d, Desired(d, LogOf(s, p).value))), Send(p)) == Pulling(s, p, d, allowance)
  {
    var n := Desired(d, LogOf(s, p).value);
    var s3, s4 := Put(s, p, Gas(d, n)), Put(s, p, Mining(d, n));
    PutTwice(s, p, Gas(d, n), Mining(d, n));
    assert Step(s3, OnGas(p)) == s4;
    assert LogOf(s4, p) == LogOf(s, p);
    PutTwice(s, p, Mining(d, n), Pulled(d, n, |s.log.pulls|));
    RunTwo(s3, OnGas(p), Mine(p, true), s4);
  }

  /** An undisturbed poll pulls what is desired for the deposit it matches. */
  lemma Handles(s: State, p: nat, d: PullDeposit, allowance: nat)
    requires Pullable(s, p, d, allowance)
    ensures Run(s, Handle(p, allowance)) == Pulling(s, p, d, allowance)
  {
    RunThen(s, Ask(p, allowance), Send(p));
    HandleAsks(s, p, d, allowance);
    HandleSends(s, p, d, allowance);
  }
}
