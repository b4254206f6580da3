/** The shared scan and the lookups that wait for it (src/vaults.ts:97-192).
    Every await ends a step. */
module VaultScans {
  import opened Wrappers
  import opened Chain
  import opened Vaults

  /** A scan: what it has found so far, and how it ended. */
  datatype Outcome = Scanning | Complete | Broken
  datatype Scan = Scan(found: seq<Details>, outcome: Outcome)

  /** A caller of getVaultIdForAddress or balance; `scan` is the one it awaits. */
  datatype Waiting = Initial | Again
  datatype Lookup = Awaiting(q: Query, why: Waiting, scan: nat)
                  | Answered(q: Query, answer: Option<Details>, last: Option<nat>)
                  | Thrown(q: Query)

  /** The caches, the shared scan promise and the flag; all scans and callers so
      far; and everything any scan has put out. */
  datatype State = State(caches: Caches, active: Option<nat>, initialScanComplete: bool,
                         scans: seq<Scan>, lookups: seq<Lookup>, output: seq<Details>)

  datatype Event =
    | Ask(q: Query)
    | Find(d: Details)       // the active scan comes upon an address
    | Finish(ok: bool)       // the active scan ends; finally clears the promise
    | Resume(n: nat)         // a caller whose scan has ended goes on

  function Start(): State { State(RememberAll([]), None, false, [], [], []) }

  /** rescan(): join the active scan, or start one. */
  function Rescan(s: State): (State, nat) {
    if s.active.Some? then (s, s.active.value)
    else (s.(active := Some(|s.scans|), scans := s.scans + [Scan([], Scanning)]), |s.scans|)
  }

  /** From the fast leaf lookup on. */
  function LookUp(s: State, q: Query): (State, Lookup) {
    if Get(s.caches, q).Some? then (s, Answered(q, Get(s.caches, q), None))
    else (Rescan(s).0, Awaiting(q, Again, Rescan(s).1))
  }

  function DoAsk(s: State, q: Query): State {
    if s.initialScanComplete then LookUp(s, q).0.(lookups := s.lookups + [LookUp(s, q).1])
    else Rescan(s).0.(lookups := s.lookups + [Awaiting(q, Initial, Rescan(s).1)])
  }

  predicate Active(s: State) { s.active.Some? && s.active.value < |s.scans| }

  function DoFind(s: State, d: Details): State
    requires Active(s)
  {
    var n := s.active.value;
    s.(caches := Remember(s.caches, d), output := s.output + [d],
       scans := s.scans[n := s.scans[n].(found := s.scans[n].found + [d])])
  }

  function DoFinish(s: State, ok: bool): State
    requires Active(s)
  {
    var n := s.active.value;
    s.(active := None, scans := s.scans[n := s.scans[n].(outcome := if ok then Complete else Broken)])
  }

  predicate Resumable(s: State, n: nat) {
    n < |s.lookups| && s.lookups[n].Awaiting? && s.lookups[n].scan < |s.scans| && !s.scans[s.lookups[n].scan].outcome.Scanning?
  }

  function DoResume(s: State, n: nat): State
    requires Resumable(s, n)
  {
    var l := s.lookups[n];
    if s.scans[l.scan].outcome.Broken? then s.(lookups := s.lookups[n := Thrown(l.q)])
    else match l.why
         case Initial =>
           var scanned := s.(initialScanComplete := true);
           LookUp(scanned, l.q).0.(lookups := s.lookups[n := LookUp(scanned, l.q).1])
         case Again => s.(lookups := s.lookups[n := Answered(l.q, Get(s.caches, l.q), Some(l.scan))])
  }

  predicate Enabled(s: State, e: Event) {
    match e
    case Ask(_) => true
    case Find(_) => Active(s)
    case Finish(_) => Active(s)
    case Resume(n) => Resumable(s, n)
  }

  function Step(s: State, e: Event): State {
    if !Enabled(s, e) then s else
    match e
    case Ask(q) => DoAsk(s, q)
    case Find(d) => DoFind(s, d)
    case Finish(ok) => DoFinish(s, ok)
    case Resume(n) => DoResume(s, n)
  }

  function Run(events: seq<Event>): State
    decreases |events|
  {
    if events == [] then Start() else Step(Run(events[..|events| - 1]), events[|events| - 1])
  }

  /* ---- invariants ---- */

  /** At most one scan is running, and the promise is the running scan's. */
  ghost predicate OneScan(s: State) {
    && (s.active.Some? ==> s.active.value < |s.scans|)
    && forall n :: 0 <= n < |s.scans| ==> (s.scans[n].outcome.Scanning? <==> s.active == Some(n))
  }

  /** What scans found was put out. */
  ghost predicate FoundIsOutput(s: State) {
    forall n, i :: 0 <= n < |s.scans| && 0 <= i < |s.scans[n].found| ==> s.scans[n].found[i] in s.output
  }

  ghost predicate Holds(d: seq<Details>, q: Query) { exists i :: 0 <= i < |d| && Answers(d[i], q) }

  /** A caller that is told nothing has awaited a scan, complete by then, that
      did not come upon what it asked for; one that is told something is told a
      matching entry of some scan. */
  ghost predicate LookupOk(s: State, l: Lookup) {
    match l
    case Awaiting(_, _, scan) => scan < |s.scans|
    case Answered(q, answer, last) =>
      && (last.Some? ==> last.value < |s.scans| && s.scans[last.value].outcome.Complete?)
      && (answer.None? ==> last.Some? && !Holds(s.scans[last.value].found, q))
      && (answer.Some? ==> answer.value in s.output && Answers(answer.value, q))
    case Thrown(_) => true
  }

  ghost predicate Inv(s: State) {
    && s.caches == RememberAll(s.output)
    && OneScan(s) && FoundIsOutput(s)
    && (forall n :: 0 <= n < |s.lookups| ==> LookupOk(s, s.lookups[n]) && PlainQuery(s.lookups[n].q))
    && (forall i :: 0 <= i < |s.output| ==> NoColon(s.output[i].depositAddress))
  }

  predicate PlainQuery(q: Query) { q.ForToken? ==> NoColon(q.deposit) }

  /** Addresses contain no colon. */
  predicate Plain(e: Event) {
    match e
    case Ask(q) => PlainQuery(q)
    case Find(d) => NoColon(d.depositAddress)
    case _ => true
  }

  /** What happened to the scans leaves earlier answers as right as they were. */
  ghost predicate Grows(s: State, s': State) {
    && |s.scans| <= |s'.scans| && s.output <= s'.output
    && forall n :: 0 <= n < |s.scans| && !s.scans[n].outcome.Scanning? ==> s'.scans[n] == s.scans[n]
  }

  lemma StillOk(s: State, s': State, l: Lookup)
    requires Grows(s, s') && LookupOk(s, l)
    ensures LookupOk(s', l)
  {
  }

  lemma RescanInv(s: State)
    requires Inv(s)
    ensures Inv(Rescan(s).0) && Grows(s, Rescan(s).0) && Rescan(s).1 < |Rescan(s).0.scans|
  {
    var s' := Rescan(s).0;
    forall n | 0 <= n < |s.lookups| ensures LookupOk(s', s'.lookups[n]) {
      StillOk(s, s', s.lookups[n]);
    }
  }

  lemma LookUpInv(s: State, q: Query)
    requires Inv(s) && PlainQuery(q)
    ensures Inv(LookUp(s, q).0) && LookupOk(LookUp(s, q).0, LookUp(s, q).1) && LookUp(s, q).1.q == q
    ensures LookUp(s, q).0.lookups == s.lookups
  {
    RescanInv(s);
    CachesAreSearches(s.output, q);
    SearchFinds(s.output, q);
    SearchIsIn(s.output, q);
  }

  lemma {:induction false} SearchIsIn(output: seq<Details>, q: Query)
    ensures Search(output, q).Some? ==> Search(output, q).value in output
  {
    if output != [] {
      SearchIsIn(output[..|output| - 1], q);
    }
  }

  lemma AskInv(s: State, q: Query)
    requires Inv(s) && PlainQuery(q)
    ensures Inv(DoAsk(s, q))
  {
    RescanInv(s);
    LookUpInv(s, q);
    var s' := DoAsk(s, q);
    forall n | 0 <= n < |s'.lookups| ensures LookupOk(s', s'.lookups[n]) && PlainQuery(s'.lookups[n].q) {
      if n < |s.lookups| {
        assert s'.lookups[n] == s.lookups[n];
      }
    }
  }

  lemma FindInv(s: State, d: Details)
    requires Inv(s) && Active(s) && NoColon(d.depositAddress)
    ensures Inv(DoFind(s, d))
  {
    var s' := DoFind(s, d);
    assert s'.output[..|s'.output| - 1] == s.output;
    forall n | 0 <= n < |s.lookups| ensures LookupOk(s', s'.lookups[n]) {
      StillOk(s, s', s.lookups[n]);
    }
  }

  lemma FinishInv(s: State, ok: bool)
    requires Inv(s) && Active(s)
    ensures Inv(DoFinish(s, ok))
  {
    var s' := DoFinish(s, ok);
    forall n | 0 <= n < |s.lookups| ensures LookupOk(s', s'.lookups[n]) {
      StillOk(s, s', s.lookups[n]);
    }
  }

  /** If the scan awaited had come upon it, the cache would have it. */
  lemma MissedByScan(s: State, q: Query, scan: nat)
    requires Inv(s) && PlainQuery(q) && scan < |s.scans|
    ensures Get(s.caches, q).None? ==> !Holds(s.scans[scan].found, q)
    ensures Get(s.caches, q).Some? ==> Get(s.caches, q).value in s.output && Answers(Get(s.caches, q).value, q)
  {
    CachesAreSearches(s.output, q);
    SearchFinds(s.output, q);
    SearchIsIn(s.output, q);
    if i :| 0 <= i < |s.scans[scan].found| && Answers(s.scans[scan].found[i], q) {
      assert s.scans[scan].found[i] in s.output;
    }
  }

  /** Putting a sound lookup in the place of another. */
  lemma ReplaceLookup(s: State, s': State, n: nat, l: Lookup)
    requires Inv(s) && n < |s.lookups| && s' == s.(lookups := s.lookups[n := l])
    requires LookupOk(s, l) && PlainQuery(l.q)
    ensures Inv(s')
  {
    forall m | 0 <= m < |s'.lookups| ensures LookupOk(s', s'.lookups[m]) && PlainQuery(s'.lookups[m].q) {
      if m != n {
        assert s'.lookups[m] == s.lookups[m];
        StillOk(s, s', s.lookups[m]);
      } else {
        StillOk(s, s', l);
      }
    }
  }

  lemma ScannedInv(s: State)
    requires Inv(s)
    ensures Inv(s.(initialScanComplete := true))
  {
    var s' := s.(initialScanComplete := true);
    forall m | 0 <= m < |s.lookups| ensures LookupOk(s', s'.lookups[m]) {
      StillOk(s, s', s.lookups[m]);
    }
  }

  lemma ResumeInv(s: State, n: nat)
    requires Inv(s) && Resumable(s, n)
    ensures Inv(DoResume(s, n))
  {
    var l := s.lookups[n];
    assert LookupOk(s, l) && PlainQuery(l.q);
    if s.scans[l.scan].outcome.Broken? {
      ReplaceLookup(s, DoResume(s, n), n, Thrown(l.q));
    } else if l.why == Initial {
      var scanned := s.(initialScanComplete := true);
      ScannedInv(s);
      LookUpInv(scanned, l.q);
      ReplaceLookup(LookUp(scanned, l.q).0, DoResume(s, n), n, LookUp(scanned, l.q).1);
    } else {
      MissedByScan(s, l.q, l.scan);
      ReplaceLookup(s, DoResume(s, n), n, Answered(l.q, Get(s.caches, l.q), Some(l.scan)));
    }
  }

  lemma StepInv(s: State, e: Event)
    requires Inv(s) && Plain(e)
    ensures Inv(Step(s, e))
  {
    if Enabled(s, e) {
      if e.Ask? {
        AskInv(s, e.q);
      } else if e.Find? {
        FindInv(s, e.d);
      } else if e.Finish? {
        FinishInv(s, e.ok);
      } else {
        ResumeInv(s, e.n);
      }
    }
  }

  lemma {:induction false} Reachable(events: seq<Event>)
    requires forall i :: 0 <= i < |events| ==> Plain(events[i])
    ensures Inv(Run(events))
    decreases |events|
  {
    if events != [] {
      Reachable(events[..|events| - 1]);
      StepInv(Run(events[..|events| - 1]), events[|events| - 1]);
    }
  }

  /** At every moment: no two scans run at once, and both caches answer as a
      linear search through everything scanned so far would. */
  lemma IndexesAgree(events: seq<Event>, q: Query, m: nat, n: nat)
    requires (forall i :: 0 <= i < |events| ==> Plain(events[i])) && PlainQuery(q)
    ensures var s := Run(events);
            && Get(s.caches, q) == Search(s.output, q)
            && (m < |s.scans| && n < |s.scans| && s.scans[m].outcome.Scanning? && s.scans[n].outcome.Scanning? ==> m == n)
  {
    Reachable(events);
    CachesAreSearches(Run(events).output, q);
  }

  /** A lookup that comes back empty has awaited a complete scan that did not
      contain what it asked for. */
  lemma MissMeansNotScanned(events: seq<Event>, n: nat)
    requires forall i :: 0 <= i < |events| ==> Plain(events[i])
    ensures var s := Run(events);
            n < |s.lookups| && s.lookups[n].Answered? && s.lookups[n].answer.None? ==>
              var scan := s.lookups[n].last;
              scan.Some? && scan.value < |s.scans| && s.scans[scan.value].outcome.Complete?
              && forall i :: 0 <= i < |s.scans[scan.value].found| ==> !Answers(s.scans[scan.value].found[i], s.lookups[n].q)
  {
    Reachable(events);
    var s := Run(events);
    if n < |s.lookups| {
      assert LookupOk(s, s.lookups[n]);
    }
  }

  /** A lookup that comes back with an entry comes back with one that answers it. */
  lemma HitMeansScanned(events: seq<Event>, n: nat)
    requires forall i :: 0 <= i < |events| ==> Plain(events[i])
    ensures var s := Run(events);
            n < |s.lookups| && s.lookups[n].Answered? && s.lookups[n].answer.Some? ==>
              s.lookups[n].answer.value in s.output && Answers(s.lookups[n].answer.value, s.lookups[n].q)
  {
    Reachable(events);
    var s := Run(events);
    if n < |s.lookups| {
      assert LookupOk(s, s.lookups[n]);
    }
  }

  /* ---- no answer before a first complete scan ---- */

  ghost predicate SomeComplete(s: State) { exists n :: 0 <= n < |s.scans| && s.scans[n].outcome.Complete? }

  ghost predicate ScannedFirst(s: State) {
    && (s.initialScanComplete ==> SomeComplete(s))
    && (forall n :: 0 <= n < |s.lookups| && (s.lookups[n].Answered? || (s.lookups[n].Awaiting? && s.lookups[n].why == Again)) ==> SomeComplete(s))
  }

  lemma StaysComplete(s: State, e: Event)
    requires OneScan(s) && SomeComplete(s)
    ensures SomeComplete(Step(s, e))
  {
    var n :| 0 <= n < |s.scans| && s.scans[n].outcome.Complete?;
    assert Step(s, e).scans[n].outcome.Complete?;
  }

  lemma StepScansFirst(s: State, e: Event)
    requires Inv(s) && ScannedFirst(s)
    ensures ScannedFirst(Step(s, e))
  {
    var s' := Step(s, e);
    if SomeComplete(s) {
      StaysComplete(s, e);
    } else if e.Resume? && Resumable(s, e.n) {
      assert !s.scans[s.lookups[e.n].scan].outcome.Complete?;
    }
  }

  /** Whoever has been answered, or waits for a second scan, came after a first
      scan that completed. */
  lemma {:induction false} AnswersNeedAScan(events: seq<Event>)
    requires forall i :: 0 <= i < |events| ==> Plain(events[i])
    ensures ScannedFirst(Run(events))
    ensures var s := Run(events); forall n :: 0 <= n < |s.lookups| && s.lookups[n].Answered? ==> SomeComplete(s)
    decreases |events|
  {
    if events != [] {
      AnswersNeedAScan(events[..|events| - 1]);
      Reachable(events[..|events| - 1]);
      StepScansFirst(Run(events[..|events| - 1]), events[|events| - 1]);
    }
  }

  /* ---- the first caller, undisturbed ---- */

  function Finds(found: seq<Details>): seq<Event> { seq(|found|, i requires 0 <= i < |found| => Find(found[i])) }

  lemma RunSnoc(events: seq<Event>, e: Event)
    ensures Run(events + [e]) == Step(Run(events), e)
  {
    assert (events + [e])[..|events + [e]| - 1] == events;
  }

  function ScanningFor(q: Query, found: seq<Details>): State {
    State(RememberAll(found), Some(0), false, [Scan(found, Scanning)], [Awaiting(q, Initial, 0)], found)
  }

  lemma OneMoreFound(q: Query, init: seq<Details>, d: Details)
    ensures Step(ScanningFor(q, init), Find(d)) == ScanningFor(q, init + [d])
  {
    assert (init + [d])[..|init + [d]| - 1] == init;
    assert [Scan(init, Scanning)][0 := Scan(init + [d], Scanning)] == [Scan(init + [d], Scanning)];
  }

  lemma FindsNext(init: seq<Details>, d: Details)
    ensures Finds(init + [d]) == Finds(init) + [Find(d)]
  {
  }

  lemma FirstAsk(q: Query)
    ensures Run([Ask(q)]) == ScanningFor(q, [])
  {
    assert [Ask(q)][..0] == [];
  }

  lemma {:induction false} ScansOn(q: Query, found: seq<Details>)
    ensures Run([Ask(q)] + Finds(found)) == ScanningFor(q, found)
  {
    if found == [] {
      FirstAsk(q);
      assert [Ask(q)] + Finds(found) == [Ask(q)];
    } else {
      var init, last := found[..|found| - 1], found[|found| - 1];
      ScansOn(q, init);
      FindsNext(init, last);
      OneMoreFound(q, init, last);
      assert found == init + [last];
      assert [Ask(q)] + Finds(found) == ([Ask(q)] + Finds(init)) + [Find(last)];
      RunSnoc([Ask(q)] + Finds(init), Find(last));
    }
  }

  lemma ScanEnds(q: Query, found: seq<Details>, ok: bool)
    ensures Step(ScanningFor(q, found), Finish(ok))
         == ScanningFor(q, found).(active := None, scans := [Scan(found, if ok then Complete else Broken)])
  {
  }

  lemma CallerGoesOn(q: Query, found: seq<Details>, ok: bool)
    ensures var s := Step(ScanningFor(q, found).(active := None, scans := [Scan(found, if ok then Complete else Broken)]), Resume(0));
            && |s.lookups| == 1 && s.initialScanComplete == ok
            && s.lookups[0] == if !ok then Thrown(q)
                               else if Get(RememberAll(found), q).Some? then Answered(q, Get(RememberAll(found), q), None) else Awaiting(q, Again, 1)
  {
  }

  /** The first to ask starts the first scan. Once it is complete the caller is
      answered at once with what a linear search of everything scanned finds, and
      if that is nothing waits for a second scan; if the scan breaks off, it throws. */
  lemma FirstCallerIsServed(q: Query, found: seq<Details>, ok: bool)
    requires PlainAddresses(found, q)
    ensures var s := Run([Ask(q)] + Finds(found) + [Finish(ok)] + [Resume(0)]);
            && |s.lookups| == 1 && s.initialScanComplete == ok
            && s.lookups[0] == if !ok then Thrown(q)
                               else if Search(found, q).Some? then Answered(q, Search(found, q), None) else Awaiting(q, Again, 1)
  {
    ScansOn(q, found);
    RunSnoc([Ask(q)] + Finds(found), Finish(ok));
    ScanEnds(q, found, ok);
    RunSnoc([Ask(q)] + Finds(found) + [Finish(ok)], Resume(0));
    CallerGoesOn(q, found, ok);
    CachesAreSearches(found, q);
  }
}
