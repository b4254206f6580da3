/** A run in which two seedings of a contract overlap and an approval is passed
    over (approval-watcher.ts:49-83). A batch of two approvals pulls for one
    deposit, and then for the next while that one's seeding is on its way. A
    third deposit is added and seeded; the second one's seeding, answered only
    now, moves the cursor past an approval the third has been waiting for, and
    a timer is lost track of. */
module PullSeedWitness {
  import opened Wrappers
  import opened Chain
  import opened Amounts
  import opened PullWatcher
  import opened PullSafety
  import opened PullRuns

  const TOKEN := Address("0x70")
  const OWNER := Address("0x71")
  const VAULT := Address("0x72")
  const A := PullDeposit(Cid("a"), TOKEN, 0, VAULT, Anything, 0)
  const B := PullDeposit(Cid("b"), TOKEN, 0, VAULT, Anything, 0)
  const C := PullDeposit(Cid("c"), TOKEN, 0, VAULT, Anything, 0)
  const EARLY := Approval(TOKEN, 1, OWNER, 10)
  const LATE := Approval(TOKEN, 2, OWNER, 10)
  const BATCH: Blocks := Blocks(1, [EARLY, EARLY])

  function Funded(): Balances { map[Account(TOKEN, OWNER) := 100] }

  lemma LowerToken()
    ensures Lower(TOKEN) == TOKEN
  {
    assert ToLower("0x70") == "0x70";
  }

  lemma OnlyOne(d: PullDeposit)
    requires d.contract == TOKEN
    ensures FindMatching([d], TOKEN) == Found(d) && HasOpenDeposit([d], TOKEN) && !HasOpenDeposit([], TOKEN)
    ensures Remove([d], d.cid) == []
  {
    LowerToken();
    assert [d][0] == d && [d][..0] == [];
  }

  /** The one activation: in the batch of two logs, at one of them. */
  function Activation(next: nat, at: Await): Poll { Poll(TOKEN, 1, 1, [0, 1], next, at) }

  /** What matters of the state while the activation runs. */
  ghost predicate Stage(s: State, watch: Watch, seedings: seq<Seeding>, next: nat, at: Await, known: set<Cid>, funds: nat) {
    && s.watch == watch && s.seedings == seedings && s.polls == [Activation(next, at)] && s.blocks == BATCH
    && s.log.handled <= {0} && s.log.known.Keys == known && BalanceOf(s.balances, TOKEN, OWNER) >= funds
    && (at.Pulled? ==> at.tx < |s.log.pulls|)
  }

  function Polled(d: PullDeposit): Watch { Watch([d], map[TOKEN := 0], map[0 := TOKEN], map[TOKEN := 0], 1) }
  function Quiet(deposits: seq<PullDeposit>): Watch { Watch(deposits, map[], map[], map[], 1) }

  /* ---- the run so far and what comes next ---- */

  function After(events: seq<Event>): State { Run(Start(Funded()), events) }

  lemma Then(events: seq<Event>, e: Event) returns (longer: seq<Event>)
    ensures After(longer) == Step(After(events), e)
  {
    longer := events + [e];
    RunSnoc(Start(Funded()), events, e);
  }

  lemma ThenAll(events: seq<Event>, more: seq<Event>) returns (longer: seq<Event>)
    ensures After(longer) == Run(After(events), more)
  {
    longer := events + more;
    RunThen(Start(Funded()), events, more);
  }

  /* ---- the stages ---- */

  /** A seeding on an idle contract in block 0 starts its timer. */
  lemma SeedsFirst(s: State) returns (events: seq<Event>)
    requires s.watch == Watch([A], map[], map[], map[], 0) && s.seedings == [Seeding(TOKEN, AskHead)]
    requires s.blocks == Blocks(0, []) && s.log.seeds == map[]
    ensures Run(s, events) == s.(watch := Polled(A), seedings := [Seeding(TOKEN, Seeded)], log := s.log.(seeds := map[TOKEN := 0]))
  {
    LowerToken();
    events := [ServeSeed(0)] + [OnSeed(0)];
    RunOne(s, ServeSeed(0));
    assert Step(s, ServeSeed(0)) == s.(seedings := [Seeding(TOKEN, HeadSeen(0))]);
    RunSnoc(s, [ServeSeed(0)], OnSeed(0));
  }

  lemma AddsFirst()
    ensures Run(Start(Funded()), [AddDeposit(A)])
         == State(Watch([A], map[], map[], map[], 0), {}, [Seeding(TOKEN, AskHead)], [], Blocks(0, []), Funded(),
                  Log(map[A.cid := A], [], [], {}, map[], multiset{}))
  {
    RunOne(Start(Funded()), AddDeposit(A));
  }

  lemma Opens() returns (events: seq<Event>)
    ensures After(events)
         == State(Polled(A), {}, [Seeding(TOKEN, Seeded)], [], BATCH, Funded(), Log(map[A.cid := A], [], [], {}, map[TOKEN := 0], multiset{}))
  {
    AddsFirst();
    events := [AddDeposit(A)];
    var seeding := SeedsFirst(After(events));
    events := ThenAll(events, seeding);
    var start := After(events);
    events := Then(events, NewBlock([EARLY, EARLY]));
    assert start.blocks.logs + [EARLY, EARLY] == [EARLY, EARLY];
  }

  lemma TwoLogsMatch()
    ensures Matching([EARLY, EARLY], TOKEN, 1, 1) == [0, 1]
  {
    assert [EARLY, EARLY][..1] == [EARLY] && [EARLY][..0] == [] && Matching([], TOKEN, 1, 1) == [];
    assert Matching([EARLY], TOKEN, 1, 1) == [0];
  }

  lemma FirstIsDue(s: State)
    requires s.watch == Polled(A) && s.blocks == BATCH && s.inFlight == {}
    ensures Due(s, 0)
  {
    LowerToken();
    TwoLogsMatch();
    assert s.watch.deposits[0] == A;
  }

  lemma FirstPoll(s: State)
    requires s.watch == Polled(A) && s.blocks == BATCH && Due(s, 0)
    ensures DuePoll(s, 0) == Activation(0, NextLog)
  {
    LowerToken();
    TwoLogsMatch();
  }

  lemma FetchesBoth(s: State)
    requires s.watch == Polled(A) && s.blocks == BATCH && s.inFlight == {} && s.polls == []
    ensures Run(s, Fetch(0, 0)) == s.(polls := [Activation(0, NextLog)], inFlight := {TOKEN})
  {
    FirstIsDue(s);
    FirstPoll(s);
    Fetches(s, 0);
    LowerToken();
    assert [] + [Activation(0, NextLog)] == [Activation(0, NextLog)] && {} + {TOKEN} == {TOKEN};
  }

  lemma Starts() returns (events: seq<Event>)
    ensures Stage(After(events), Polled(A), [Seeding(TOKEN, Seeded)], 0, NextLog, {A.cid}, 100)
  {
    events := Opens();
    FetchesBoth(After(events));
    var start := After(events);
    events := ThenAll(events, Fetch(0, 0));
    assert start.log.known.Keys == {A.cid};
  }

  /** The deposit in hand is pulled for. */
  lemma Pulls(s: State, d: PullDeposit, watch: Watch, seedings: seq<Seeding>, next: nat, known: set<Cid>, funds: nat)
    requires Stage(s, watch, seedings, next, NextLog, known, funds + 10) && next < 2
    requires d in {A, B} && watch.deposits == [d]
    ensures exists tx :: Stage(Run(s, Handle(0, 10)), watch, seedings, next, Pulled(d, 10, tx), known, funds)
  {
    LowerToken();
    OnlyOne(d);
    assert OWNER.text[3] != VAULT.text[3];
    assert LogOf(s, 0) == EARLY;
    Handles(s, 0, d, 10);
    assert Stage(Run(s, Handle(0, 10)), watch, seedings, next, Pulled(d, 10, |s.log.pulls|), known, funds);
  }

  lemma StopsAll(d: PullDeposit, watch: Watch)
    requires d in {A, B} && (watch == Polled(d) || watch == Quiet([d]))
    ensures var left := watch.(deposits := Remove(watch.deposits, d.cid));
            !HasOpenDeposit(left.deposits, TOKEN) && StopPolling(left, TOKEN) == Quiet([])
  {
    LowerToken();
    OnlyOne(d);
    assert map[TOKEN := 0] - {TOKEN} == map[] && map[0 := TOKEN] - {0} == map[];
  }

  /** Its receipt comes: it is closed, and whatever polling there was stops. */
  lemma Closes(s: State, d: PullDeposit, watch: Watch, seedings: seq<Seeding>, next: nat, tx: nat, known: set<Cid>, funds: nat)
    requires Stage(s, watch, seedings, next, Pulled(d, 10, tx), known, funds) && next < 2
    requires d in {A, B} && (watch == Polled(d) || watch == Quiet([d]))
    ensures Stage(Step(s, OnReceipt(0)), Quiet([]), seedings, next, Callback, known, funds)
  {
    StopsAll(d, watch);
    assert Step(s, OnReceipt(0)) == DoReceipt(s, 0);
    assert s.polls[0 := Activation(next, Callback)] == [Activation(next, Callback)];
  }

  lemma AddIs(s: State, d: PullDeposit)
    requires s.watch == Quiet([]) && d.contract == TOKEN && d.cid !in s.log.known
    ensures Step(s, AddDeposit(d))
         == s.(watch := Quiet([d]), seedings := s.seedings + [Seeding(TOKEN, AskHead)], log := s.log.(known := s.log.known[d.cid := d]))
  {
    assert !HasOpenDeposit([], TOKEN);
    assert [] + [d] == [d];
  }

  /** A deposit is added: no timer runs, so a seeding sets out. */
  lemma Adds(s: State, d: PullDeposit, seedings: seq<Seeding>, next: nat, known: set<Cid>, funds: nat)
    requires Stage(s, Quiet([]), seedings, next, Callback, known, funds) && d.contract == TOKEN && d.cid !in known
    ensures Stage(Step(s, AddDeposit(d)), Quiet([d]), seedings + [Seeding(TOKEN, AskHead)], next, Callback, known + {d.cid}, funds)
  {
    AddIs(s, d);
    assert (s.log.known[d.cid := d]).Keys == s.log.known.Keys + {d.cid};
  }

  lemma NextLogPlease(s: State, watch: Watch, seedings: seq<Seeding>, known: set<Cid>, funds: nat)
    requires Stage(s, watch, seedings, 0, Callback, known, funds)
    ensures Stage(Step(s, OnCallback(0)), watch, seedings, 1, NextLog, known, funds)
  {
    assert s.polls[0 := Activation(1, NextLog)] == [Activation(1, NextLog)];
  }

  /** The deposit in hand is pulled for and closed, and the next one is added. */
  lemma OneAfterAnother(events: seq<Event>, d: PullDeposit, d': PullDeposit, watch: Watch, q: seq<Seeding>, next: nat,
                        known: set<Cid>, funds: nat) returns (longer: seq<Event>)
    requires Stage(After(events), watch, q, next, NextLog, known, funds + 10) && next < 2
    requires d in {A, B} && (watch == Polled(d) || watch == Quiet([d])) && d'.contract == TOKEN && d'.cid !in known
    ensures Stage(After(longer), Quiet([d']), q + [Seeding(TOKEN, AskHead)], next, Callback, known + {d'.cid}, funds)
  {
    Pulls(After(events), d, watch, q, next, known, funds);
    longer := ThenAll(events, Handle(0, 10));
    var tx :| Stage(After(longer), watch, q, next, Pulled(d, 10, tx), known, funds);
    Closes(After(longer), d, watch, q, next, tx, known, funds);
    longer := Then(longer, OnReceipt(0));
    Adds(After(longer), d', q, next, known, funds);
    longer := Then(longer, AddDeposit(d'));
  }

  lemma CidsDiffer()
    ensures A.cid != B.cid && C.cid !in {A.cid, B.cid}
  {
    assert A.cid.text[0] != B.cid.text[0] && C.cid.text[0] != A.cid.text[0] && C.cid.text[0] != B.cid.text[0];
  }

  const PENDING: seq<Seeding> := [Seeding(TOKEN, Seeded)] + [Seeding(TOKEN, AskHead)]

  /** The first deposit is pulled for and closed; the second is added, and the
      batch goes on. */
  lemma FirstDone() returns (events: seq<Event>)
    ensures Stage(After(events), Quiet([B]), PENDING, 1, NextLog, {A.cid} + {B.cid}, 90)
  {
    events := Starts();
    CidsDiffer();
    events := OneAfterAnother(events, A, B, Polled(A), [Seeding(TOKEN, Seeded)], 0, {A.cid}, 90);
    NextLogPlease(After(events), Quiet([B]), PENDING, {A.cid} + {B.cid}, 90);
    events := Then(events, OnCallback(0));
  }

  /** The second deposit is pulled for and closed while its seeding is on its
      way; the third is added. */
  lemma SecondDone() returns (events: seq<Event>)
    ensures Stage(After(events), Quiet([C]), PENDING + [Seeding(TOKEN, AskHead)], 1, Callback, {A.cid} + {B.cid} + {C.cid}, 80)
  {
    events := FirstDone();
    CidsDiffer();
    events := OneAfterAnother(events, B, C, Quiet([B]), PENDING, 1, {A.cid} + {B.cid}, 80);
  }

  /** The third deposit's own seeding: cursor at block 0, and timer 1. */
  lemma ThirdSeeded(s: State) returns (events: seq<Event>)
    requires Stage(s, Quiet([C]), PENDING + [Seeding(TOKEN, AskHead)], 1, Callback, {A.cid} + {B.cid} + {C.cid}, 80)
    ensures var s' := Run(s, events);
            && s'.watch == Watch([C], map[TOKEN := 1], map[1 := TOKEN], map[TOKEN := 0], 2) && s'.blocks == BATCH && s'.log.handled <= {0}
            && s'.seedings == [Seeding(TOKEN, Seeded), Seeding(TOKEN, AskHead), Seeding(TOKEN, Seeded)]
  {
    LowerToken();
    events := [ServeSeed(2)] + [OnSeed(2)];
    RunOne(s, ServeSeed(2));
    RunSnoc(s, [ServeSeed(2)], OnSeed(2));
    var s1 := Step(s, ServeSeed(2));
    assert s1.seedings == [Seeding(TOKEN, Seeded), Seeding(TOKEN, AskHead), Seeding(TOKEN, HeadSeen(1))];
  }

  /** Two blocks come, an approval in the first of them. */
  lemma BlocksCome(s: State) returns (events: seq<Event>)
    requires s.blocks == BATCH
    ensures Run(s, events) == s.(blocks := Blocks(3, [EARLY, EARLY, LATE]))
  {
    events := [NewBlock([LATE])] + [NewBlock([])];
    RunOne(s, NewBlock([LATE]));
    assert Step(s, NewBlock([LATE])) == s.(blocks := Blocks(2, [EARLY, EARLY, LATE]));
    RunSnoc(s, [NewBlock([LATE])], NewBlock([]));
  }

  /** The second deposit's seeding is answered. */
  lemma SecondAnswered(s: State)
    requires s.seedings == [Seeding(TOKEN, Seeded), Seeding(TOKEN, AskHead), Seeding(TOKEN, Seeded)] && s.blocks.head == 3
    ensures Step(s, ServeSeed(1)) == s.(seedings := [Seeding(TOKEN, Seeded), Seeding(TOKEN, HeadSeen(3)), Seeding(TOKEN, Seeded)])
  {
  }

  lemma SecondSeeded(s: State) returns (events: seq<Event>)
    requires s.watch == Watch([C], map[TOKEN := 1], map[1 := TOKEN], map[TOKEN := 0], 2) && s.blocks.head == 3
    requires s.seedings == [Seeding(TOKEN, Seeded), Seeding(TOKEN, AskHead), Seeding(TOKEN, Seeded)]
    ensures var s' := Run(s, events);
            && s'.watch == Watch([C], map[TOKEN := 2], map[1 := TOKEN, 2 := TOKEN], map[TOKEN := 2], 3)
            && s'.blocks == s.blocks && s'.log.handled == s.log.handled
  {
    LowerToken();
    events := [ServeSeed(1), OnSeed(1)];
    SecondAnswered(s);
    var s1 := s.(seedings := [Seeding(TOKEN, Seeded), Seeding(TOKEN, HeadSeen(3)), Seeding(TOKEN, Seeded)]);
    RunTwo(s, ServeSeed(1), OnSeed(1), s1);
    assert Step(s1, OnSeed(1)) == DoSeed(s1, 1);
  }

  /** The third deposit is open and seeded at block 0 when `before` is over. After
      that an approval comes in block 2; when `after` is over the deposit is still
      open and the cursor is at block 2, but nobody has handled the approval. Of
      the two timers that run now the watcher knows one. */
  lemma OverlappingSeedingsPassOver()
    ensures exists before, after ::
              var s, s' := Run(Start(Funded()), before), Run(Start(Funded()), before + after);
              && s.watch.deposits == s'.watch.deposits == [C] && s.watch.lastSeen == map[TOKEN := 0] && s'.watch.lastSeen == map[TOKEN := 2]
              && 2 < |s'.blocks.logs| && s'.blocks.logs[2] == LATE && 2 !in s'.log.handled
              && s'.watch.intervals == map[1 := TOKEN, 2 := TOKEN] && s'.watch.timers == map[TOKEN := 2]
  {
    var before := SecondDone();
    var seeded := ThirdSeeded(After(before));
    before := ThenAll(before, seeded);
    var blocks := BlocksCome(After(before));
    var after := SecondSeeded(Run(After(before), blocks));
    RunThen(After(before), blocks, after);
    RunThen(Start(Funded()), before, blocks + after);
    assert Run(Start(Funded()), before + (blocks + after)) == Run(Run(After(before), blocks), after);
  }
}
