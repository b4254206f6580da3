/** Replicas of one deployment: every replica carries the same rename list, all
    of whose names differ, and the database starts with the legacy names only.
    (src/legacy-migration.ts:26-29 builds such a list with two entries.) */
module LegacyMigrationShared {
  import opened LegacyMigration
  import opened LegacyMigrationSafety

  ghost predicate DistinctNames(names: seq<Rename>) {
    && (forall i, j :: 0 <= i < |names| && 0 <= j < |names| ==> names[i].from != names[j].to)
    && (forall i, j :: 0 <= i < j < |names| ==> names[i].from != names[j].from && names[i].to != names[j].to)
  }

  ghost predicate OnlyLegacy(c: Catalog, names: seq<Rename>) {
    forall i :: 0 <= i < |names| ==> names[i].from in c && names[i].to !in c
  }

  ghost predicate Adoptable(c: Catalog, names: seq<Rename>) {
    OnlyLegacy(c, names) && DistinctNames(names) && names != []
  }

  ghost predicate Touched(names: seq<Rename>, k: nat, n: Name)
    requires k <= |names|
  {
    exists i :: 0 <= i < k && (n == names[i].from || n == names[i].to)
  }

  /** `w` is what a session has written once it has done the first `k` renames. */
  ghost predicate Moved(c: Catalog, names: seq<Rename>, k: nat, w: Writes)
    requires Adoptable(c, names)
  {
    && k <= |names|
    && (forall n :: n in w ==> Touched(names, k, n))
    && (forall i :: 0 <= i < k ==> names[i].from in w && w[names[i].from] == Gone)
    && (forall i :: 0 <= i < k ==> names[i].to in w && w[names[i].to] == Here(c[names[i].from]))
  }

  /** `now` has only the new names, each with the table its legacy name had, and
      everything else as it was. */
  ghost predicate Renamed(c: Catalog, names: seq<Rename>, now: Catalog)
    requires Adoptable(c, names)
  {
    && (forall i :: 0 <= i < |names| ==> names[i].from !in now)
    && (forall i :: 0 <= i < |names| ==> names[i].to in now && now[names[i].to] == c[names[i].from])
    && (forall n :: !Touched(names, |names|, n) ==> (n in now <==> n in c) && (n in now ==> now[n] == c[n]))
  }

  lemma MovedNext(c: Catalog, names: seq<Rename>, k: nat, w: Writes)
    requires Adoptable(c, names) && k < |names| && Moved(c, names, k, w)
    ensures Moved(c, names, k + 1, w[names[k].from := Gone][names[k].to := Here(c[names[k].from])])
  {
    var w' := w[names[k].from := Gone][names[k].to := Here(c[names[k].from])];
    forall n | n in w'
      ensures Touched(names, k + 1, n)
    {
      if n in w {
        TouchedGrows(names, k, n);
      } else {
        assert n == names[k].from || n == names[k].to;
      }
    }
    forall i | 0 <= i < k + 1
      ensures names[i].from in w' && w'[names[i].from] == Gone
      ensures names[i].to in w' && w'[names[i].to] == Here(c[names[i].from])
    {
      assert names[i].from != names[k].to;
      assert i < k ==> names[i].from != names[k].from && names[i].to != names[k].to && names[k].from != names[i].to;
    }
  }

  lemma TouchedGrows(names: seq<Rename>, k: nat, n: Name)
    requires k < |names| && Touched(names, k, n)
    ensures Touched(names, k + 1, n)
  {
  }

  /** What a session with `k` renames done sees of the next one. */
  lemma NextInView(c: Catalog, names: seq<Rename>, k: nat, w: Writes)
    requires Adoptable(c, names) && k < |names| && Moved(c, names, k, w)
    ensures var seen := View(c, w);
            && names[k].from in seen && seen[names[k].from] == c[names[k].from]
            && names[k].to !in seen
  {
    assert names[k].from !in w && names[k].to !in w;
  }

  lemma MovedIsRenamed(c: Catalog, names: seq<Rename>, w: Writes)
    requires Adoptable(c, names) && Moved(c, names, |names|, w)
    ensures Renamed(c, names, View(c, w))
  {
  }

  /* ---- all or nothing ---- */

  /** A session while nothing has been committed. */
  ghost predicate BeforeCommit(c: Catalog, names: seq<Rename>, me: Session)
    requires Adoptable(c, names)
  {
    && me.renames == names
    && (me.writes == map[] || names[0].from in me.writes)
    && match me.phase
       case Working(i, q) =>
         i < |names| &&
         (match q
          case ReadSource | MakeSavepoint | RereadSource => Moved(c, names, i, me.writes)
          case ReadDest(src) => src && Moved(c, names, i, me.writes)
          case LockTable | MoveName(_) => me.writes == me.saved.writes && Moved(c, names, i, me.writes)
          case ReleaseSavepoint => Moved(c, names, i + 1, me.writes) && Moved(c, names, i, me.saved.writes)
          case RollbackToSavepoint => Moved(c, names, i, me.saved.writes)
          case RereadDest | ReleaseRecovered => false)
       case Committing => Moved(c, names, |names|, me.writes)
       case Adopted => false
       case _ => true
  }

  /** A session once some replica has committed. */
  ghost predicate AfterCommit(names: seq<Rename>, me: Session) {
    me.renames == names && me.writes == map[]
  }

  ghost predicate AllBefore(c: Catalog, names: seq<Rename>, s: State)
    requires Adoptable(c, names)
  {
    s.catalog == c && forall r :: 0 <= r < |s.sessions| ==> BeforeCommit(c, names, s.sessions[r])
  }

  ghost predicate AllAfter(c: Catalog, names: seq<Rename>, s: State)
    requires Adoptable(c, names)
  {
    Renamed(c, names, s.catalog) && forall r :: 0 <= r < |s.sessions| ==> AfterCommit(names, s.sessions[r])
  }

  lemma SendBefore(c: Catalog, names: seq<Rename>, me: Session)
    requires Adoptable(c, names)
    requires BeforeCommit(c, names, me) && me.InEntry() && (me.phase.query.MoveName? ==> HoldsSource(c, me))
    ensures BeforeCommit(c, names, Send1(c, me))
    ensures Send1(c, me).phase != RollingBack || me.phase.query == RereadSource
    ensures Send1(c, me).phase.Working? ==> Send1(c, me).phase.query != RollbackToSavepoint
    ensures Send1(c, me).phase.Working? && Send1(c, me).phase.query == RereadSource ==> me.phase.query == RollbackToSavepoint
  {
    if me.phase.query.MoveName? || me.phase.query.LockTable? {
      SendChangeBefore(c, names, me);
    } else {
      SendReadBefore(c, names, me);
    }
  }

  lemma SendReadBefore(c: Catalog, names: seq<Rename>, me: Session)
    requires Adoptable(c, names)
    requires BeforeCommit(c, names, me) && me.InEntry() && !me.phase.query.MoveName? && !me.phase.query.LockTable?
    ensures BeforeCommit(c, names, Send1(c, me))
    ensures Send1(c, me).phase != RollingBack || me.phase.query == RereadSource
    ensures Send1(c, me).phase.Working? ==> Send1(c, me).phase.query != RollbackToSavepoint
    ensures Send1(c, me).phase.Working? && Send1(c, me).phase.query == RereadSource ==> me.phase.query == RollbackToSavepoint
  {
    if Moved(c, names, me.phase.entry, me.writes) {
      NextInView(c, names, me.phase.entry, me.writes);
    }
  }

  lemma SendChangeBefore(c: Catalog, names: seq<Rename>, me: Session)
    requires Adoptable(c, names)
    requires BeforeCommit(c, names, me) && me.InEntry() && (me.phase.query.MoveName? || me.phase.query.LockTable?)
    requires me.phase.query.MoveName? ==> HoldsSource(c, me)
    ensures BeforeCommit(c, names, Send1(c, me))
    ensures Send1(c, me).phase.Working? && Send1(c, me).phase.query != RollbackToSavepoint && Send1(c, me).phase.query != RereadSource
  {
    if me.phase.query.LockTable? {
      LockBefore(c, names, me);
    } else {
      MoveBefore(c, names, me);
    }
  }

  lemma LockBefore(c: Catalog, names: seq<Rename>, me: Session)
    requires Adoptable(c, names) && BeforeCommit(c, names, me) && me.InEntry() && me.phase.query.LockTable?
    ensures BeforeCommit(c, names, Send1(c, me))
    ensures Send1(c, me).phase.Working? && Send1(c, me).phase.query != RollbackToSavepoint && Send1(c, me).phase.query != RereadSource
  {
    NextInView(c, names, me.phase.entry, me.writes);
  }

  lemma MoveBefore(c: Catalog, names: seq<Rename>, me: Session)
    requires Adoptable(c, names) && BeforeCommit(c, names, me) && me.InEntry() && me.phase.query.MoveName? && HoldsSource(c, me)
    ensures BeforeCommit(c, names, Send1(c, me))
    ensures Send1(c, me).phase.Working? && Send1(c, me).phase.query != RollbackToSavepoint && Send1(c, me).phase.query != RereadSource
  {
    var k := me.phase.entry;
    NextInView(c, names, k, me.writes);
    MovedNext(c, names, k, me.writes);
    MovedSession(c, names, me, me.writes[names[k].from := Gone][names[k].to := Here(c[names[k].from])]);
  }

  /** The session once its rename is done. */
  lemma MovedSession(c: Catalog, names: seq<Rename>, me: Session, w: Writes)
    requires Adoptable(c, names) && me.InEntry() && me.renames == names
    requires Moved(c, names, me.phase.entry + 1, w) && Moved(c, names, me.phase.entry, me.saved.writes)
    ensures BeforeCommit(c, names, me.At(ReleaseSavepoint).(writes := w))
  {
    assert names[0].from in w;
  }

  /** The first commit is complete, and finds every other session empty-handed. */
  lemma FirstCommit(c: Catalog, names: seq<Rename>, s: State, r: nat, outcome: Phase)
    requires Adoptable(c, names)
    requires Inv(s) && AllBefore(c, names, s) && r < |s.sessions| && s.sessions[r].phase.Committing?
    ensures AllAfter(c, names, State(View(c, s.sessions[r].writes), s.sessions[r := End(s.sessions[r], outcome)]))
  {
    MovedIsRenamed(c, names, s.sessions[r].writes);
    forall q | 0 <= q < |s.sessions| && q != r
      ensures s.sessions[q].writes == map[]
    {
      assert Apart(s.sessions[r], s.sessions[q]);
    }
  }

  lemma SendAfter(names: seq<Rename>, now: Catalog, me: Session)
    requires AfterCommit(names, me) && me.saved.writes == map[] && me.InEntry()
    requires me.Entry().from !in now && me.Entry().to in now
    requires me.phase.query.MoveName? ==> HoldsSource(now, me)
    ensures AfterCommit(names, Send1(now, me))
    ensures Send1(now, me).phase != RollingBack && Send1(now, me).phase != Failed
  {
    ViewNothing(now);
  }

  lemma ViewNothing(c: Catalog)
    ensures View(c, map[]) == c
  {
  }

  lemma StepBefore(c: Catalog, names: seq<Rename>, s: State, e: Event)
    requires Adoptable(c, names) && Inv(s) && AllBefore(c, names, s) && Enabled(s, e)
    ensures AllBefore(c, names, Step(s, e)) || AllAfter(c, names, Step(s, e))
  {
    var me := s.sessions[e.r];
    if me.phase.Committing? && !e.Refuse? {
      FirstCommit(c, names, s, e.r, if e.Send? then Adopted else Failed);
    } else {
      if me.phase.Working? && e.Send? {
        SendBefore(c, names, me);
      }
      assert BeforeCommit(c, names, Step(s, e).sessions[e.r]);
      assert AllBefore(c, names, Step(s, e));
    }
  }

  lemma StepAfter(c: Catalog, names: seq<Rename>, s: State, e: Event)
    requires Adoptable(c, names) && Inv(s) && AllAfter(c, names, s) && Enabled(s, e)
    ensures AllAfter(c, names, Step(s, e))
  {
    var me := s.sessions[e.r];
    ViewNothing(s.catalog);
    if me.phase.Working? && e.Send? {
      assert me.saved.writes == map[];
      SendAfter(names, s.catalog, me);
    }
    assert AfterCommit(names, Step(s, e).sessions[e.r]);
  }

  lemma StepAllOrNothing(c: Catalog, names: seq<Rename>, s: State, e: Event)
    requires Adoptable(c, names)
    requires Inv(s) && (AllBefore(c, names, s) || AllAfter(c, names, s))
    ensures AllBefore(c, names, Step(s, e)) || AllAfter(c, names, Step(s, e))
  {
    if Enabled(s, e) {
      if AllBefore(c, names, s) {
        StepBefore(c, names, s, e);
      } else {
        StepAfter(c, names, s, e);
      }
    }
  }

  lemma {:induction false} RunAllOrNothing(c: Catalog, names: seq<Rename>, s: State, events: seq<Event>)
    requires Adoptable(c, names)
    requires Inv(s) && AllBefore(c, names, s)
    ensures Inv(Run(s, events))
    ensures AllBefore(c, names, Run(s, events)) || AllAfter(c, names, Run(s, events))
    decreases |events|
  {
    if events != [] {
      var before := Run(s, events[..|events| - 1]);
      RunAllOrNothing(c, names, s, events[..|events| - 1]);
      StepKeepsInv(before, events[|events| - 1]);
      StepAllOrNothing(c, names, before, events[|events| - 1]);
    }
  }

  /** `n` replicas that boot with the same list. */
  function Fleet(c: Catalog, names: seq<Rename>, n: nat): State {
    Start(c, seq(n, _ => names))
  }

  lemma FleetStart(c: Catalog, names: seq<Rename>, n: nat)
    requires Injective(c) && Adoptable(c, names)
    ensures Inv(Fleet(c, names, n)) && AllBefore(c, names, Fleet(c, names, n))
  {
    StartOk(c, seq(n, _ => names));
    assert Moved(c, names, 0, map[]);
  }

  /** The renames commit together or not at all: whatever the interleaving and
      the faults, the committed catalog is the initial one or the fully renamed
      one, and a replica that reports success implies the latter. */
  lemma AllOrNothing(c: Catalog, names: seq<Rename>, n: nat, events: seq<Event>)
    requires Injective(c) && Adoptable(c, names)
    ensures var s := Run(Fleet(c, names, n), events);
            && (s.catalog == c || Renamed(c, names, s.catalog))
            && forall r :: 0 <= r < |s.sessions| && s.sessions[r].phase.Adopted? ==> Renamed(c, names, s.catalog)
  {
    FleetStart(c, names, n);
    RunAllOrNothing(c, names, Fleet(c, names, n), events);
  }

  /* ---- no replica fails unless the outside world makes it ---- */

  ghost predicate FaultFree(events: seq<Event>) {
    forall i :: 0 <= i < |events| ==> events[i].Send?
  }

  ghost predicate InCatch(me: Session) {
    me.phase.Working? && (me.phase.query.RollbackToSavepoint? || me.phase.query.RereadSource? || me.phase.query.RereadDest?)
  }

  /** No session is rolling back or failed, and a session is in the catch block
      only after another replica's commit. */
  ghost predicate Unharmed(c: Catalog, names: seq<Rename>, s: State)
    requires Adoptable(c, names)
  {
    forall r :: 0 <= r < |s.sessions| ==>
      && s.sessions[r].phase != RollingBack && s.sessions[r].phase != Failed
      && (InCatch(s.sessions[r]) ==> AllAfter(c, names, s))
  }

  /** What is asked of one session. */
  ghost predicate Safe(c: Catalog, names: seq<Rename>, s: State, me: Session)
    requires Adoptable(c, names)
  {
    me.phase != RollingBack && me.phase != Failed && (InCatch(me) ==> AllAfter(c, names, s))
  }

  lemma CommitUnharmed(c: Catalog, names: seq<Rename>, s: State, r: nat)
    requires Adoptable(c, names)
    requires Inv(s) && (AllBefore(c, names, s) || AllAfter(c, names, s)) && Unharmed(c, names, s)
    requires Enabled(s, Send(r)) && s.sessions[r].phase.Committing?
    ensures Unharmed(c, names, Step(s, Send(r)))
  {
    StepAllOrNothing(c, names, s, Send(r));
    if AllAfter(c, names, s) {
      StepAfter(c, names, s, Send(r));
    }
  }

  lemma UnharmedBefore(c: Catalog, names: seq<Rename>, s: State, r: nat)
    requires Adoptable(c, names)
    requires Inv(s) && AllBefore(c, names, s) && Unharmed(c, names, s) && Enabled(s, Send(r)) && !s.sessions[r].phase.Committing?
    ensures Unharmed(c, names, Step(s, Send(r)))
  {
    SendBefore(c, names, s.sessions[r]);
    assert !AllAfter(c, names, s) by { assert names[0].from in s.catalog; }
    forall q | 0 <= q < |s.sessions| && q != r ensures Safe(c, names, s, s.sessions[q]) {
    }
  }

  lemma UnharmedAfter(c: Catalog, names: seq<Rename>, s: State, r: nat)
    requires Adoptable(c, names)
    requires Inv(s) && AllAfter(c, names, s) && Unharmed(c, names, s) && Enabled(s, Send(r)) && !s.sessions[r].phase.Committing?
    ensures Unharmed(c, names, Step(s, Send(r)))
  {
    var s', me := Step(s, Send(r)), s.sessions[r];
    StepAfter(c, names, s, Send(r));
    assert me.saved.writes == map[];
    SendAfter(names, s.catalog, me);
    forall q | 0 <= q < |s'.sessions| ensures Safe(c, names, s', s'.sessions[q]) {
      assert q != r ==> s'.sessions[q] == s.sessions[q] && Safe(c, names, s, s.sessions[q]);
    }
  }

  lemma StepUnharmed(c: Catalog, names: seq<Rename>, s: State, r: nat)
    requires Adoptable(c, names)
    requires Inv(s) && (AllBefore(c, names, s) || AllAfter(c, names, s)) && Unharmed(c, names, s)
    ensures Unharmed(c, names, Step(s, Send(r)))
  {
    if Enabled(s, Send(r)) {
      if s.sessions[r].phase.Committing? {
        CommitUnharmed(c, names, s, r);
      } else if AllBefore(c, names, s) {
        UnharmedBefore(c, names, s, r);
      } else {
        UnharmedAfter(c, names, s, r);
      }
    }
  }

  lemma {:induction false} RunUnharmed(c: Catalog, names: seq<Rename>, s: State, events: seq<Event>)
    requires Adoptable(c, names)
    requires Inv(s) && AllBefore(c, names, s) && Unharmed(c, names, s) && FaultFree(events)
    ensures Unharmed(c, names, Run(s, events))
    decreases |events|
  {
    if events != [] {
      RunUnharmed(c, names, s, events[..|events| - 1]);
      RunAllOrNothing(c, names, s, events[..|events| - 1]);
      StepUnharmed(c, names, Run(s, events[..|events| - 1]), events[|events| - 1].r);
    }
  }

  /** Without outside faults no replica fails or rolls back, and a replica whose
      rename was refused finds the new names in place: it can only take the
      "completed by another actor" branch. */
  lemma LosersRecover(c: Catalog, names: seq<Rename>, n: nat, events: seq<Event>)
    requires Injective(c) && Adoptable(c, names) && FaultFree(events)
    ensures var s := Run(Fleet(c, names, n), events);
            forall r :: 0 <= r < |s.sessions| ==>
              && s.sessions[r].phase != RollingBack && s.sessions[r].phase != Failed
              && (InCatch(s.sessions[r]) ==> Renamed(c, names, s.catalog))
  {
    FleetStart(c, names, n);
    RunUnharmed(c, names, Fleet(c, names, n), events);
  }
}
