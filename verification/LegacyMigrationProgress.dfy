/** No wait-for cycle, and every run of the adoption comes to an end. */
module LegacyMigrationProgress {
  import opened LegacyMigration
  import opened LegacyMigrationSafety
  import opened LegacyMigrationShared

  /* ---- what a session can be holding, by how far down the list it is ---- */

  /** How many entries of the list the session may have locked, and renamed. */
  function LockedUpTo(me: Session): nat {
    match me.phase
    case Working(i, q) =>
      if q.MoveName? || q.ReleaseSavepoint? || q.RollbackToSavepoint? then i + 1 else i
    case _ => |me.renames|
  }

  function MovedUpTo(me: Session): nat {
    match me.phase
    case Working(i, q) => if q.ReleaseSavepoint? || q.RollbackToSavepoint? then i + 1 else i
    case _ => |me.renames|
  }

  ghost predicate NamesUpTo(names: seq<Rename>, k: nat, w: Writes) {
    k <= |names| && forall n :: n in w ==> Touched(names, k, n)
  }

  ghost predicate SourceOf(c: Catalog, names: seq<Rename>, k: nat, t: Table)
    requires k <= |names|
  {
    exists i :: 0 <= i < k && names[i].from in c && c[names[i].from] == t
  }

  ghost predicate LocksUpTo(c: Catalog, names: seq<Rename>, k: nat, locks: set<Table>) {
    k <= |names| && forall t :: t in locks ==> SourceOf(c, names, k, t)
  }

  ghost predicate Ordered(c: Catalog, names: seq<Rename>, me: Session) {
    && me.renames == names
    && (me.phase.Working? ==> me.InEntry())
    && NamesUpTo(names, MovedUpTo(me), me.writes)
    && LocksUpTo(c, names, LockedUpTo(me), me.locks)
    && (me.phase.Working? ==> NamesUpTo(names, me.phase.entry, me.saved.writes))
    && (me.phase.Working? ==> LocksUpTo(c, names, me.phase.entry, me.saved.locks))
  }

  ghost predicate AllOrdered(names: seq<Rename>, s: State) {
    forall r :: 0 <= r < |s.sessions| ==> Ordered(s.catalog, names, s.sessions[r])
  }

  lemma LocksGrow(c: Catalog, names: seq<Rename>, k: nat, k': nat, locks: set<Table>)
    requires LocksUpTo(c, names, k, locks) && k <= k' <= |names|
    ensures LocksUpTo(c, names, k', locks)
  {
    forall t | t in locks
      ensures SourceOf(c, names, k', t)
    {
      assert SourceOf(c, names, k, t);
    }
  }

  lemma NamesGrow(names: seq<Rename>, k: nat, k': nat, w: Writes)
    requires NamesUpTo(names, k, w) && k <= k' <= |names|
    ensures NamesUpTo(names, k', w)
  {
    forall n | n in w
      ensures Touched(names, k', n)
    {
      assert Touched(names, k, n);
    }
  }

  lemma OrderedGrows(c: Catalog, names: seq<Rename>, me: Session)
    requires Ordered(c, names, me) && me.InEntry()
    ensures forall k :: MovedUpTo(me) <= k <= |names| ==> NamesUpTo(names, k, me.writes)
    ensures forall k :: LockedUpTo(me) <= k <= |names| ==> LocksUpTo(c, names, k, me.locks)
    ensures forall k :: me.phase.entry <= k <= |names| ==> NamesUpTo(names, k, me.saved.writes)
    ensures forall k :: me.phase.entry <= k <= |names| ==> LocksUpTo(c, names, k, me.saved.locks)
  {
    forall k | MovedUpTo(me) <= k <= |names| ensures NamesUpTo(names, k, me.writes) {
      NamesGrow(names, MovedUpTo(me), k, me.writes);
    }
    forall k | LockedUpTo(me) <= k <= |names| ensures LocksUpTo(c, names, k, me.locks) {
      LocksGrow(c, names, LockedUpTo(me), k, me.locks);
    }
    forall k | me.phase.entry <= k <= |names| ensures NamesUpTo(names, k, me.saved.writes) {
      NamesGrow(names, me.phase.entry, k, me.saved.writes);
    }
    forall k | me.phase.entry <= k <= |names| ensures LocksUpTo(c, names, k, me.saved.locks) {
      LocksGrow(c, names, me.phase.entry, k, me.saved.locks);
    }
  }

  lemma SendOrdered(c: Catalog, names: seq<Rename>, me: Session)
    requires DistinctNames(names) && Ordered(c, names, me) && me.InEntry()
    ensures Ordered(c, names, Send1(c, me))
  {
    OrderedGrows(c, names, me);
    match me.phase.query
    case LockTable => LockOrdered(c, names, me);
    case MoveName(_) => MoveOrdered(c, names, me);
    case _ =>
  }

  lemma LockOrdered(c: Catalog, names: seq<Rename>, me: Session)
    requires DistinctNames(names) && Ordered(c, names, me) && me.InEntry() && me.phase.query.LockTable?
    ensures Ordered(c, names, Send1(c, me))
  {
    var i := me.phase.entry;
    OrderedGrows(c, names, me);
    SourceUntouched(names, i, me.writes);
    if names[i].from in View(c, me.writes) {
      var t := c[names[i].from];
      assert SourceOf(c, names, i + 1, t);
      assert LocksUpTo(c, names, i + 1, me.locks);
      assert LocksUpTo(c, names, i + 1, me.locks + {t});
    }
  }

  lemma SourceUntouched(names: seq<Rename>, i: nat, w: Writes)
    requires DistinctNames(names) && i < |names| && NamesUpTo(names, i, w)
    ensures names[i].from !in w && names[i].to !in w
  {
    forall n | n in w
      ensures n != names[i].from && n != names[i].to
    {
      assert Touched(names, i, n);
    }
  }

  lemma MoveOrdered(c: Catalog, names: seq<Rename>, me: Session)
    requires Ordered(c, names, me) && me.InEntry() && me.phase.query.MoveName?
    ensures Ordered(c, names, Send1(c, me))
  {
    var i := me.phase.entry;
    OrderedGrows(c, names, me);
    assert Touched(names, i + 1, names[i].from);
    assert Touched(names, i + 1, names[i].to);
  }

  /** Another session's commit does not move what a session has locked. */
  lemma CommitOrdered(c: Catalog, names: seq<Rename>, committer: Session, me: Session)
    requires SessionOk(c, committer) && SessionOk(c, me) && Apart(committer, me) && Ordered(c, names, me)
    ensures Ordered(View(c, committer.writes), names, me)
  {
    LocksStay(c, names, committer, LockedUpTo(me), me.locks);
    if me.phase.Working? {
      LocksStay(c, names, committer, me.phase.entry, me.saved.locks);
    }
  }

  lemma LocksStay(c: Catalog, names: seq<Rename>, committer: Session, k: nat, locks: set<Table>)
    requires SessionOk(c, committer) && committer.locks !! locks && LocksUpTo(c, names, k, locks)
    ensures LocksUpTo(View(c, committer.writes), names, k, locks)
  {
    forall t | t in locks
      ensures SourceOf(View(c, committer.writes), names, k, t)
    {
      var i :| 0 <= i < k && names[i].from in c && c[names[i].from] == t;
      TouchedIsRemoved(c, committer.writes, names[i].from);
      assert names[i].from in View(c, committer.writes);
    }
  }

  lemma StepOrdered(names: seq<Rename>, s: State, e: Event)
    requires DistinctNames(names) && Inv(s) && AllOrdered(names, s)
    ensures AllOrdered(names, Step(s, e))
  {
    if Enabled(s, e) {
      var me := s.sessions[e.r];
      if me.phase.Committing? && !e.Refuse? {
        forall q | 0 <= q < |s.sessions| && q != e.r
          ensures Ordered(Step(s, e).catalog, names, s.sessions[q])
        {
          assert Apart(me, s.sessions[q]);
          CommitOrdered(s.catalog, names, me, s.sessions[q]);
        }
        assert Ordered(Step(s, e).catalog, names, Step(s, e).sessions[e.r]);
      } else if me.phase.Working? {
        OrderedGrows(s.catalog, names, me);
        if e.Send? {
          SendOrdered(s.catalog, names, me);
        }
        assert Ordered(s.catalog, names, Step(s, e).sessions[e.r]);
      } else {
        assert Ordered(s.catalog, names, Step(s, e).sessions[e.r]);
      }
    }
  }

  lemma {:induction false} RunOrdered(names: seq<Rename>, s: State, events: seq<Event>)
    requires DistinctNames(names) && Inv(s) && AllOrdered(names, s)
    ensures Inv(Run(s, events)) && AllOrdered(names, Run(s, events))
    decreases |events|
  {
    if events != [] {
      RunOrdered(names, s, events[..|events| - 1]);
      StepKeepsInv(Run(s, events[..|events| - 1]), events[|events| - 1]);
      StepOrdered(names, Run(s, events[..|events| - 1]), events[|events| - 1]);
    }
  }

  lemma FleetOrdered(c: Catalog, names: seq<Rename>, n: nat)
    requires Injective(c)
    ensures Inv(Fleet(c, names, n)) && AllOrdered(names, Fleet(c, names, n))
  {
    StartOk(c, seq(n, _ => names));
  }

  /* ---- waiting ---- */

  /** Session `r` is waiting for something session `q` holds. */
  ghost predicate WaitsFor(s: State, r: nat, q: nat) {
    r < |s.sessions| && q < |s.sessions| && r != q && s.sessions[r].InEntry() &&
    var me, other, seen := s.sessions[r], s.sessions[q], View(s.catalog, s.sessions[r].writes);
    match me.phase.query
    case LockTable => me.Entry().from in seen && seen[me.Entry().from] in other.locks
    case MoveName(_) => me.Entry().to !in seen && me.Entry().to in other.writes
    case _ => false
  }

  lemma BlockedMeansWaiting(s: State, r: nat)
    requires r < |s.sessions|
    ensures Blocked(s, r) <==> exists q :: WaitsFor(s, r, q)
  {
    var me := s.sessions[r];
    if me.InEntry() && me.phase.query.LockTable? && me.Entry().from in View(s.catalog, me.writes) {
      var t := View(s.catalog, me.writes)[me.Entry().from];
      assert forall q: nat :: WaitsFor(s, r, q) <==> q < |s.sessions| && q != r && t in s.sessions[q].locks;
    } else if me.InEntry() && me.phase.query.MoveName? && me.Entry().to !in View(s.catalog, me.writes) {
      assert forall q: nat :: WaitsFor(s, r, q) <==> q < |s.sessions| && q != r && me.Entry().to in s.sessions[q].writes;
    }
  }

  /** Where in the list of locks and names a waiting session is queueing. */
  function Place(me: Session): nat
    requires me.InEntry()
  {
    2 * me.phase.entry + if me.phase.query.MoveName? then 1 else 0
  }

  /** Locks are taken in list order: whoever is waited for is further along. */
  lemma WaitsUpwards(names: seq<Rename>, s: State, r: nat, q: nat)
    requires DistinctNames(names) && Inv(s) && AllOrdered(names, s) && WaitsFor(s, r, q) && Blocked(s, q)
    ensures Place(s.sessions[r]) < Place(s.sessions[q])
  {
    var me, other := s.sessions[r], s.sessions[q];
    var i := me.phase.entry;
    if me.phase.query.LockTable? {
      SourceUntouched(names, i, me.writes);
      assert SourceOf(s.catalog, names, LockedUpTo(other), s.catalog[names[i].from]);
    } else {
      assert Touched(names, MovedUpTo(other), names[i].to);
    }
  }

  ghost predicate WaitChain(s: State, path: seq<nat>) {
    forall k :: 0 <= k < |path| - 1 ==> WaitsFor(s, path[k], path[k + 1])
  }

  ghost predicate Waiting(s: State, r: nat) {
    r < |s.sessions| && s.sessions[r].InEntry() && Blocked(s, r)
  }

  lemma {:induction false} ChainClimbs(names: seq<Rename>, s: State, path: seq<nat>, k: nat)
    requires DistinctNames(names) && Inv(s) && AllOrdered(names, s) && WaitChain(s, path)
    requires 0 < k < |path| && Waiting(s, path[|path| - 1])
    ensures Waiting(s, path[0]) && Waiting(s, path[k])
    ensures Place(s.sessions[path[0]]) < Place(s.sessions[path[k]])
  {
    assert WaitsFor(s, path[k - 1], path[k]);
    BlockedMeansWaiting(s, path[k - 1]);
    if k < |path| - 1 {
      assert WaitsFor(s, path[k], path[k + 1]);
      BlockedMeansWaiting(s, path[k]);
    }
    WaitsUpwards(names, s, path[k - 1], path[k]);
    if k > 1 {
      ChainClimbs(names, s, path, k - 1);
    }
  }

  /** With one shared list no wait-for cycle is ever reachable, from any catalog
      and whatever queries are refused. */
  lemma NoWaitCycle(c: Catalog, names: seq<Rename>, n: nat, events: seq<Event>, path: seq<nat>)
    requires Injective(c) && DistinctNames(names) && |path| > 1
    ensures var s := Run(Fleet(c, names, n), events);
            WaitChain(s, path) ==> path[0] != path[|path| - 1]
  {
    FleetOrdered(c, names, n);
    RunOrdered(names, Fleet(c, names, n), events);
    var s := Run(Fleet(c, names, n), events);
    if WaitChain(s, path) && path[0] == path[|path| - 1] {
      assert WaitsFor(s, path[0], path[1]);
      BlockedMeansWaiting(s, path[0]);
      ChainClimbs(names, s, path, |path| - 1);
    }
  }

  /* ---- every run ends ---- */

  /** From any reachable state some live session can act: waiting never spreads
      to everybody. */
  lemma {:induction false} SomeoneCanAct(names: seq<Rename>, s: State, r: nat) returns (who: nat)
    requires DistinctNames(names) && Inv(s) && AllOrdered(names, s)
    requires r < |s.sessions| && s.sessions[r].Live()
    ensures Enabled(s, Send(who))
    decreases if Waiting(s, r) then 2 * |names| - Place(s.sessions[r]) else 0
  {
    if Blocked(s, r) {
      BlockedMeansWaiting(s, r);
      var q :| WaitsFor(s, r, q);
      if Blocked(s, q) {
        WaitsUpwards(names, s, r, q);
      }
      who := SomeoneCanAct(names, s, q);
    } else {
      who := r;
    }
  }

  /** An upper bound on the queries a session has still to send. */
  function WorkLeft(me: Session): nat {
    match me.phase
    case Working(i, q) =>
      2 + 10 * (if i < |me.renames| then |me.renames| - i - 1 else 0) +
      (match q
       case ReadSource => 10
       case ReadDest(_) => 9
       case MakeSavepoint => 8
       case LockTable => 7
       case MoveName(_) => 6
       case ReleaseSavepoint => 5
       case RollbackToSavepoint => 4
       case RereadSource => 3
       case RereadDest => 2
       case ReleaseRecovered => 1)
    case Committing => 2
    case RollingBack => 1
    case _ => 0
  }

  function TotalWork(sessions: seq<Session>): nat {
    if sessions == [] then 0 else WorkLeft(sessions[0]) + TotalWork(sessions[1..])
  }

  lemma {:induction false} TotalWorkUpdate(sessions: seq<Session>, r: nat, me': Session)
    requires r < |sessions|
    ensures TotalWork(sessions[r := me']) == TotalWork(sessions) - WorkLeft(sessions[r]) + WorkLeft(me')
  {
    if r == 0 {
      assert sessions[0 := me'][1..] == sessions[1..];
    } else {
      TotalWorkUpdate(sessions[1..], r - 1, me');
      assert sessions[r := me'][1..] == sessions[1..][r - 1 := me'];
    }
  }

  lemma StepWorks(s: State, e: Event)
    requires Enabled(s, e)
    ensures TotalWork(Step(s, e).sessions) < TotalWork(s.sessions)
  {
    var me := s.sessions[e.r];
    var me' := Step(s, e).sessions[e.r];
    assert WorkLeft(me') < WorkLeft(me);
    TotalWorkUpdate(s.sessions, e.r, me');
  }

  /** Every event of the run was enabled when it happened. */
  ghost predicate Proper(s: State, events: seq<Event>)
    decreases |events|
  {
    events == [] ||
    (Proper(s, events[..|events| - 1]) && Enabled(Run(s, events[..|events| - 1]), events[|events| - 1]))
  }

  /** No run of a fleet takes more steps than its work at the start. */
  lemma {:induction false} RunsAreBounded(s: State, events: seq<Event>)
    requires Proper(s, events)
    ensures |events| + TotalWork(Run(s, events).sessions) <= TotalWork(s.sessions)
    decreases |events|
  {
    if events != [] {
      RunsAreBounded(s, events[..|events| - 1]);
      StepWorks(Run(s, events[..|events| - 1]), events[|events| - 1]);
    }
  }

  lemma {:induction false} SessionCountKept(s: State, events: seq<Event>)
    ensures |Run(s, events).sessions| == |s.sessions|
    decreases |events|
  {
    if events != [] {
      SessionCountKept(s, events[..|events| - 1]);
    }
  }

  /** The whole adoption: from legacy names only, with no outside faults, a run
      that can go no further has every replica reporting success and exactly the
      new names in the catalog. */
  lemma FleetAdopts(c: Catalog, names: seq<Rename>, n: nat, events: seq<Event>)
    requires Injective(c) && Adoptable(c, names) && n > 0 && FaultFree(events)
    requires forall r :: !Enabled(Run(Fleet(c, names, n), events), Send(r))
    ensures var s := Run(Fleet(c, names, n), events);
            && |s.sessions| == n
            && (forall r :: 0 <= r < n ==> s.sessions[r].phase.Adopted?)
            && Renamed(c, names, s.catalog)
  {
    var s := Run(Fleet(c, names, n), events);
    SessionCountKept(Fleet(c, names, n), events);
    FleetOrdered(c, names, n);
    RunOrdered(names, Fleet(c, names, n), events);
    LosersRecover(c, names, n, events);
    AllOrNothing(c, names, n, events);
    forall r | 0 <= r < n
      ensures s.sessions[r].phase.Adopted?
    {
      if s.sessions[r].Live() {
        var who := SomeoneCanAct(names, s, r);
      }
    }
    assert s.sessions[0].phase.Adopted?;
  }
}
