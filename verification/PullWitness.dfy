/** A run without overlapping polls in which one deposit is pulled twice: the
    receipt of the first transferFrom never comes back, so the poll throws, the
    cursor stays, and the next poll finds the allowance still large enough
    (approval-watcher.ts:107-177). */
module PullWitness {
  import opened Wrappers
  import opened Chain
  import opened Amounts
  import opened PullWatcher
  import opened PullOnce
  import opened PullOverlap
  import opened PullRuns

  /** What the chain answers when it is asked for the allowance. */
  function Answers(events: seq<Event>): seq<nat> {
    if events == [] then [] else
    Answers(events[..|events| - 1]) + if events[|events| - 1].ServeAllowance? then [events[|events| - 1].value] else []
  }

  lemma {:induction false} AnswersThen(first: seq<Event>, second: seq<Event>)
    ensures Answers(first + second) == Answers(first) + Answers(second)
    decreases |second|
  {
    if second == [] {
      assert first + second == first;
    } else {
      AnswersThen(first, second[..|second| - 1]);
      assert (first + second)[..|first + second| - 1] == first + second[..|second| - 1];
    }
  }

  lemma AnswerOne(e: Event)
    ensures Answers([e]) == if e.ServeAllowance? then [e.value] else []
  {
    assert [e][..0] == [];
  }

  lemma {:induction false} NoAnswers(events: seq<Event>)
    requires forall i :: 0 <= i < |events| ==> !events[i].ServeAllowance?
    ensures Answers(events) == []
  {
    if events != [] {
      NoAnswers(events[..|events| - 1]);
    }
  }

  function InHandFirst(s: State, timer: nat): Approval
    requires Due(s, timer) && DuePoll(s, timer).batch[0] < |s.blocks.logs|
  {
    s.blocks.logs[DuePoll(s, timer).batch[0]]
  }

  /** A poll is due whose first log calls for `n` from an owner who holds that much. */
  predicate Ready(s: State, timer: nat, d: PullDeposit, n: nat) {
    && Due(s, timer) && DuePoll(s, timer).batch[0] < |s.blocks.logs|
    && FindMatching(s.watch.deposits, s.watch.intervals[timer]) == Found(d)
    && !d.expected.Unreadable? && Desired(d, InHandFirst(s, timer).value) == n
    && InHandFirst(s, timer).owner != d.destination
    && n <= BalanceOf(s.balances, Lower(d.contract), InHandFirst(s, timer).owner)
  }

  /** After a round: the transfer is mined, the poll waits for its receipt. */
  function AfterRound(s: State, timer: nat, d: PullDeposit, n: nat): State
    requires Ready(s, timer, d, n)
  {
    var q, owner := DuePoll(s, timer), InHandFirst(s, timer).owner;
    s.(polls := s.polls + [q.(at := Pulled(d, n, |s.log.pulls|))], inFlight := s.inFlight + {Lower(q.contract)},
       balances := Transfer(s.balances, Lower(d.contract), owner, d.destination, n),
       log := s.log.(pulls := s.log.pulls + [Pull(d, owner, n, false)]))
  }

  predicate Idle(s: State, timer: nat) {
    timer in s.watch.intervals ==>
      forall p :: 0 <= p < |s.polls| && Fetching(s.polls[p].at) ==> Lower(s.polls[p].contract) != Lower(s.watch.intervals[timer])
  }

  lemma FetchInTime(s: State, timer: nat)
    requires Idle(s, timer)
    ensures FetchesInTime(s, Fetch(timer, |s.polls|))
  {
    var p := |s.polls|;
    var rest := [ServeHead(p), OnHead(p)] + FetchLogsEvents(p);
    TimerInTime(s, timer);
    NoTimerInTime(Run(s, [Tick(timer)]), rest);
    InTimeThen(s, [Tick(timer)], rest);
    TimerFirst(timer, p);
  }

  lemma TimerFirst(timer: nat, p: nat)
    ensures [Tick(timer)] + ([ServeHead(p), OnHead(p)] + FetchLogsEvents(p)) == Fetch(timer, p)
  {
  }

  lemma TimerInTime(s: State, timer: nat)
    requires Idle(s, timer)
    ensures FetchesInTime(s, [Tick(timer)])
  {
    assert [Tick(timer)][..0] == [] && FetchesInTime(s, []);
  }

  lemma HandleAnswers(p: nat, allowance: nat)
    ensures Answers(Handle(p, allowance)) == [allowance]
  {
    var before, ask, after := [OnNextLog(p)], ServeAllowance(p, allowance), [OnAllowance(p)] + Send(p);
    NoAnswers(before);
    AnswerOne(ask);
    NoAnswers(after);
    AnswersThen(before, [ask]);
    AnswersThen(before + [ask], after);
    assert before + [ask] + after == Handle(p, allowance);
  }

  /** A round of polling, from the timer to the mined transfer. */
  lemma RoundPulls(s: State, timer: nat, d: PullDeposit, n: nat, allowance: nat) returns (round: seq<Event>)
    requires Ready(s, timer, d, n) && n <= allowance && Idle(s, timer)
    ensures Run(s, round) == AfterRound(s, timer, d, n) && FetchesInTime(s, round) && Answers(round) == [allowance]
  {
    var p, q := |s.polls|, DuePoll(s, timer);
    FetchInTime(s, timer);
    NoAnswers(Fetch(timer, p));
    Fetches(s, timer);
    var fetched := s.(polls := s.polls + [q], inFlight := s.inFlight + {Lower(q.contract)});
    assert fetched.polls[p] == q && LogOf(fetched, p) == InHandFirst(s, timer);
    NoTimerInTime(fetched, Handle(p, allowance));
    HandleAnswers(p, allowance);
    Handles(fetched, p, d, allowance);
    SetLast(s.polls, q, q.(at := Pulled(d, n, |s.log.pulls|)));
    round := Joined(s, Fetch(timer, p), Handle(p, allowance));
  }

  /** Two stretches of a run, one after the other. */
  lemma Joined(s: State, first: seq<Event>, second: seq<Event>) returns (both: seq<Event>)
    requires FetchesInTime(s, first) && FetchesInTime(Run(s, first), second)
    ensures Run(s, both) == Run(Run(s, first), second) && FetchesInTime(s, both) && Answers(both) == Answers(first) + Answers(second)
  {
    both := first + second;
    RunThen(s, first, second);
    InTimeThen(s, first, second);
    AnswersThen(first, second);
  }

  /** The poll throws: it is over, unmarked, and the loss is on the books. */
  function AfterLoss(s: State, timer: nat, d: PullDeposit, n: nat): State
    requires Ready(s, timer, d, n)
  {
    var q, after := DuePoll(s, timer), AfterRound(s, timer, d, n);
    after.(polls := s.polls + [q.(at := Ended)], inFlight := s.inFlight, log := after.log.(lost := s.log.lost + multiset{d.cid}))
  }

  lemma ReceiptLost(s: State, timer: nat, d: PullDeposit, n: nat)
    requires Ready(s, timer, d, n)
    ensures Step(AfterRound(s, timer, d, n), Fail(|s.polls|)) == AfterLoss(s, timer, d, n)
  {
    var q := DuePoll(s, timer);
    SetLast(s.polls, q.(at := Pulled(d, n, |s.log.pulls|)), q.(at := Ended));
    assert s.inFlight + {Lower(q.contract)} - {Lower(q.contract)} == s.inFlight;
  }

  /** The same poll is due again. */
  lemma DueAgain(s: State, timer: nat, d: PullDeposit, n: nat)
    requires Ready(s, timer, d, n) && n + n <= BalanceOf(s.balances, Lower(d.contract), InHandFirst(s, timer).owner)
    ensures Ready(AfterLoss(s, timer, d, n), timer, d, n)
  {
    assert DuePoll(AfterLoss(s, timer, d, n), timer) == DuePoll(s, timer);
  }

  predicate CoversTwice(s: State, timer: nat, d: PullDeposit, n: nat) {
    Ready(s, timer, d, n) && n + n <= BalanceOf(s.balances, Lower(d.contract), InHandFirst(s, timer).owner)
  }

  /** The state after both rounds. */
  function AfterBoth(s: State, timer: nat, d: PullDeposit, n: nat): State
    requires CoversTwice(s, timer, d, n)
  {
    DueAgain(s, timer, d, n);
    AfterRound(AfterLoss(s, timer, d, n), timer, d, n)
  }

  lemma FirstRoundLost(s: State, timer: nat, d: PullDeposit, n: nat, allowance: nat) returns (round: seq<Event>)
    requires Ready(s, timer, d, n) && n <= allowance && Idle(s, timer)
    ensures Run(s, round) == AfterLoss(s, timer, d, n) && FetchesInTime(s, round) && Answers(round) == [allowance]
  {
    round := RoundPulls(s, timer, d, n, allowance);
    ReceiptLost(s, timer, d, n);
    RunOne(AfterRound(s, timer, d, n), Fail(|s.polls|));
    NoTimerInTime(AfterRound(s, timer, d, n), [Fail(|s.polls|)]);
    AnswerOne(Fail(|s.polls|));
    round := Joined(s, round, [Fail(|s.polls|)]);
  }

  lemma BothRounds(s: State, timer: nat, d: PullDeposit, n: nat, allowance: nat) returns (rounds: seq<Event>)
    requires CoversTwice(s, timer, d, n) && n + n <= allowance && Idle(s, timer)
    ensures Run(s, rounds) == AfterBoth(s, timer, d, n) && FetchesInTime(s, rounds) && Answers(rounds) == [allowance, allowance - n]
  {
    rounds := FirstRoundLost(s, timer, d, n, allowance);
    DueAgain(s, timer, d, n);
    IdleAgain(s, timer, d, n);
    var again := RoundPulls(AfterLoss(s, timer, d, n), timer, d, n, allowance - n);
    rounds := Joined(s, rounds, again);
  }

  lemma IdleAgain(s: State, timer: nat, d: PullDeposit, n: nat)
    requires Ready(s, timer, d, n) && Idle(s, timer)
    ensures Idle(AfterLoss(s, timer, d, n), timer)
  {
  }

  lemma BothArePulls(s: State, timer: nat, d: PullDeposit, n: nat)
    requires CoversTwice(s, timer, d, n)
    ensures var pull, s' := Pull(d, InHandFirst(s, timer).owner, n, false), AfterBoth(s, timer, d, n);
            s'.log.pulls == s.log.pulls + [pull] + [pull] && s'.watch == s.watch && s'.blocks == s.blocks
  {
    DueAgain(s, timer, d, n);
  }

  /** Whatever the deposit: if allowance and balance cover what is desired twice,
      there is a continuation without overlap in which a receipt is lost, the
      chain answers what is left of the allowance, and the deposit is pulled twice. */
  lemma LostReceiptPullsAgain(s: State, timer: nat, d: PullDeposit, n: nat, allowance: nat) returns (rounds: seq<Event>)
    requires CoversTwice(s, timer, d, n) && n + n <= allowance && Idle(s, timer)
    ensures FetchesInTime(s, rounds) && Answers(rounds) == [allowance, allowance - n]
    ensures var pull, s' := Pull(d, InHandFirst(s, timer).owner, n, false), Run(s, rounds);
            s'.log.pulls == s.log.pulls + [pull] + [pull] && s'.watch == s.watch && s'.blocks == s.blocks
  {
    rounds := BothRounds(s, timer, d, n, allowance);
    BothArePulls(s, timer, d, n);
  }

  /* ---- from the start ---- */

  const TOKEN := Address("0x70")
  const OWNER := Address("0x71")
  const VAULT := Address("0x72")
  const DEPOSIT := PullDeposit(Cid("d"), TOKEN, 0, VAULT, Units(100), 0)
  const APPROVAL := Approval(TOKEN, 1, OWNER, 200)

  function Funded(): Balances { map[Account(TOKEN, OWNER) := 200] }

  function Opening(): seq<Event> {
    [AddDeposit(DEPOSIT), ServeSeed(0)] + [OnSeed(0), NewBlock([APPROVAL])]
  }

  /** A deposit of 100 is open and polled for, and an approval of 200 is in block 1. */
  function Opened(): State {
    State(Watch([DEPOSIT], map[TOKEN := 0], map[0 := TOKEN], map[TOKEN := 0], 1), {}, [Seeding(TOKEN, Seeded)], [],
          Blocks(1, [APPROVAL]), Funded(), Log(map[DEPOSIT.cid := DEPOSIT], [], [], {}, map[TOKEN := 0], multiset{}))
  }

  lemma LowerToken()
    ensures Lower(TOKEN) == TOKEN
  {
    assert ToLower("0x70") == "0x70";
  }

  /** The deposit is added; its seeding has asked for the block number. */
  function Added(seeding: SeedAwait): State {
    State(Watch([DEPOSIT], map[], map[], map[], 0), {}, [Seeding(TOKEN, seeding)], [], Blocks(0, []), Funded(),
          Log(map[DEPOSIT.cid := DEPOSIT], [], [], {}, map[], multiset{}))
  }

  lemma Adds()
    ensures Run(Start(Funded()), [AddDeposit(DEPOSIT), ServeSeed(0)]) == Added(HeadSeen(0))
  {
    assert Step(Start(Funded()), AddDeposit(DEPOSIT)) == Added(AskHead);
    RunTwo(Start(Funded()), AddDeposit(DEPOSIT), ServeSeed(0), Added(AskHead));
  }

  lemma Seeds()
    ensures Run(Added(HeadSeen(0)), [OnSeed(0), NewBlock([APPROVAL])]) == Opened()
  {
    LowerToken();
    var seeded := Opened().(blocks := Blocks(0, []));
    assert Step(Added(HeadSeen(0)), OnSeed(0)) == seeded;
    RunTwo(Added(HeadSeen(0)), OnSeed(0), NewBlock([APPROVAL]), seeded);
  }

  lemma Opens()
    ensures Run(Start(Funded()), Opening()) == Opened()
  {
    Adds();
    Seeds();
    RunThen(Start(Funded()), [AddDeposit(DEPOSIT), ServeSeed(0)], [OnSeed(0), NewBlock([APPROVAL])]);
  }

  lemma OneLogMatches()
    ensures Matching([APPROVAL], TOKEN, 1, 1) == [0]
  {
    assert Matching([], TOKEN, 1, 1) == [] && [APPROVAL][..0] == [];
  }

  lemma OpenedIsDue()
    ensures Due(Opened(), 0) && DuePoll(Opened(), 0).batch == [0]
  {
    LowerToken();
    OneLogMatches();
    assert [DEPOSIT][0] == DEPOSIT;
  }

  lemma OpenedIsReady()
    ensures Ready(Opened(), 0, DEPOSIT, 100) && BalanceOf(Opened().balances, Lower(TOKEN), OWNER) == 200 && Idle(Opened(), 0)
    ensures InHandFirst(Opened(), 0) == APPROVAL
  {
    LowerToken();
    OpenedIsDue();
    assert [DEPOSIT][..0] == [];
    assert OWNER.text[3] != VAULT.text[3];
  }

  lemma OpeningInTime()
    ensures FetchesInTime(Start(Funded()), Opening()) && Answers(Opening()) == []
  {
    NoTimerInTime(Start(Funded()), Opening());
    NoAnswers(Opening());
  }

  lemma PullsTwice() returns (events: seq<Event>)
    ensures FetchesInTime(Start(Funded()), events) && Answers(events) == [200, 100]
    ensures Run(Start(Funded()), events).log.pulls == [] + [Pull(DEPOSIT, OWNER, 100, false)] + [Pull(DEPOSIT, OWNER, 100, false)]
    ensures Run(Start(Funded()), events).blocks.logs == [APPROVAL]
  {
    Opens();
    OpeningInTime();
    OpenedIsReady();
    var rounds := LostReceiptPullsAgain(Opened(), 0, DEPOSIT, 100, 200);
    events := Joined(Start(Funded()), Opening(), rounds);
  }

  /** Even without overlapping polls a deposit can be pulled twice: 100 of the
      one approval of 200 are pulled, the receipt is lost, and the next poll
      pulls the 100 that are left of the allowance. */
  lemma LostReceiptPullsTwice()
    ensures exists events :: NoOverlap(Start(Funded()), events) && Answers(events) == [200, 100]
                             && Run(Start(Funded()), events).blocks.logs == [APPROVAL]
                             && PullCount(Run(Start(Funded()), events).log.pulls, DEPOSIT.cid, false) == 2
  {
    var events := PullsTwice();
    GuardPreventsOverlap(Funded(), events);
    CountsTwo(Pull(DEPOSIT, OWNER, 100, false));
  }

  lemma CountsTwo(pull: Pull)
    ensures PullCount([] + [pull] + [pull], pull.d.cid, false) == 2
  {
    assert ([] + [pull] + [pull])[..1] == [pull] && [pull][..0] == [];
    assert PullCount([pull], pull.d.cid, false) == 1;
  }
}
