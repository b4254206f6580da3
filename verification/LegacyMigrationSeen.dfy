/** What a replica has seen by the time it goes on to its next rename
    (src/legacy-migration.ts:56-85), for any replicas, rename lists, interleaving
    and faults. */
module LegacyMigrationSeen {
  import opened LegacyMigration

  /** The `k`th event of the run is the answer to query `q` of replica `r` on its
      entry `i`, and at that moment the replica sees `name`, or does not. */
  ghost predicate Looks(s: State, events: seq<Event>, r: nat, i: nat, q: Query, name: Name, found: bool, k: nat) {
    && k < |events| && events[k] == Send(r)
    && var now := Run(s, events[..k]);
    && Enabled(now, Send(r)) && now.sessions[r].phase == Working(i, q)
    && (name in View(now.catalog, now.sessions[r].writes)) == found
  }

  ghost predicate Saw(s: State, events: seq<Event>, r: nat, i: nat, q: Query, name: Name, found: bool) {
    exists k: nat :: Looks(s, events, r, i, q, name, found, k)
  }

  /** At the check the source was missing, or the destination there. */
  ghost predicate Skipped(s: State, events: seq<Event>, r: nat, i: nat, e: Rename) {
    Saw(s, events, r, i, ReadSource, e.from, false) || Saw(s, events, r, i, ReadDest(true), e.to, true)
  }

  /** The rename was carried out, onto a name that was free. */
  ghost predicate Renamed(s: State, events: seq<Event>, r: nat, i: nat, e: Rename) {
    exists t :: Saw(s, events, r, i, MoveName(t), e.to, false)
  }

  /** After a failed rename the source was found missing and the destination present. */
  ghost predicate Recovered(s: State, events: seq<Event>, r: nat, i: nat, e: Rename) {
    Saw(s, events, r, i, RereadSource, e.from, false) && Saw(s, events, r, i, RereadDest, e.to, true)
  }

  ghost predicate Settled(s: State, events: seq<Event>, r: nat, i: nat, e: Rename) {
    Skipped(s, events, r, i, e) || Renamed(s, events, r, i, e) || Recovered(s, events, r, i, e)
  }

  /** How many entries a replica has left behind. */
  function Behind(me: Session): nat {
    match me.phase
    case Working(entry, _) => entry
    case Committing => |me.renames|
    case Adopted => |me.renames|
    case _ => 0
  }

  /** What the replica has seen for the entry it is working on. */
  ghost predicate Informed(s: State, events: seq<Event>, r: nat, me: Session) {
    me.InEntry() ==>
      match me.phase.query
      case ReadDest(src) => Saw(s, events, r, me.phase.entry, ReadSource, me.Entry().from, src)
      case ReleaseSavepoint => Renamed(s, events, r, me.phase.entry, me.Entry())
      case RereadDest => Saw(s, events, r, me.phase.entry, RereadSource, me.Entry().from, false)
      case ReleaseRecovered => Recovered(s, events, r, me.phase.entry, me.Entry())
      case _ => true
  }

  ghost predicate AllSettled(s: State, events: seq<Event>, r: nat, me: Session) {
    Behind(me) <= |me.renames| && forall i :: 0 <= i < Behind(me) ==> Settled(s, events, r, i, me.renames[i])
  }

  ghost predicate Explained(s: State, events: seq<Event>, r: nat) {
    var now := Run(s, events);
    r < |now.sessions| ==> AllSettled(s, events, r, now.sessions[r]) && Informed(s, events, r, now.sessions[r])
  }

  /** Replicas that have not sent anything yet. */
  ghost predicate Booting(s: State) {
    forall r :: 0 <= r < |s.sessions| ==> s.sessions[r] == NewSession(s.sessions[r].renames)
  }

  /* ---- what has been seen stays seen ---- */

  lemma SawGrows(s: State, events: seq<Event>, more: seq<Event>, r: nat, i: nat, q: Query, name: Name, found: bool)
    requires events <= more && Saw(s, events, r, i, q, name, found)
    ensures Saw(s, more, r, i, q, name, found)
  {
    var k: nat :| Looks(s, events, r, i, q, name, found, k);
    assert more[..k] == events[..k];
    assert Looks(s, more, r, i, q, name, found, k);
  }

  lemma SettledGrows(s: State, events: seq<Event>, more: seq<Event>, r: nat, i: nat, e: Rename)
    requires events <= more && Settled(s, events, r, i, e)
    ensures Settled(s, more, r, i, e)
  {
    if Saw(s, events, r, i, ReadSource, e.from, false) {
      SawGrows(s, events, more, r, i, ReadSource, e.from, false);
    } else if Saw(s, events, r, i, ReadDest(true), e.to, true) {
      SawGrows(s, events, more, r, i, ReadDest(true), e.to, true);
    } else if Renamed(s, events, r, i, e) {
      RenamedGrows(s, events, more, r, i, e);
    } else {
      RecoveredGrows(s, events, more, r, i, e);
    }
  }

  lemma RenamedGrows(s: State, events: seq<Event>, more: seq<Event>, r: nat, i: nat, e: Rename)
    requires events <= more && Renamed(s, events, r, i, e)
    ensures Renamed(s, more, r, i, e)
  {
    var t :| Saw(s, events, r, i, MoveName(t), e.to, false);
    SawGrows(s, events, more, r, i, MoveName(t), e.to, false);
  }

  lemma RecoveredGrows(s: State, events: seq<Event>, more: seq<Event>, r: nat, i: nat, e: Rename)
    requires events <= more && Recovered(s, events, r, i, e)
    ensures Recovered(s, more, r, i, e)
  {
    SawGrows(s, events, more, r, i, RereadSource, e.from, false);
    SawGrows(s, events, more, r, i, RereadDest, e.to, true);
  }

  lemma StaysExplained(s: State, events: seq<Event>, more: seq<Event>, r: nat, me: Session)
    requires events <= more && AllSettled(s, events, r, me) && Informed(s, events, r, me)
    ensures AllSettled(s, more, r, me) && Informed(s, more, r, me)
  {
    forall i | 0 <= i < Behind(me) ensures Settled(s, more, r, i, me.renames[i]) {
      SettledGrows(s, events, more, r, i, me.renames[i]);
    }
    if me.InEntry() {
      match me.phase.query
      case ReadDest(src) => SawGrows(s, events, more, r, me.phase.entry, ReadSource, me.Entry().from, src);
      case ReleaseSavepoint => RenamedGrows(s, events, more, r, me.phase.entry, me.Entry());
      case RereadDest => SawGrows(s, events, more, r, me.phase.entry, RereadSource, me.Entry().from, false);
      case ReleaseRecovered => RecoveredGrows(s, events, more, r, me.phase.entry, me.Entry());
      case _ =>
    }
  }

  /* ---- one step ---- */

  /** The answer that has just come in is one of the run's moments. */
  lemma JustSeen(s: State, events: seq<Event>, r: nat, name: Name)
    requires var now := Run(s, events); Enabled(now, Send(r)) && now.sessions[r].phase.Working?
    ensures var now := Run(s, events); var me := now.sessions[r];
            Saw(s, events + [Send(r)], r, me.phase.entry, me.phase.query, name, name in View(now.catalog, me.writes))
  {
    var now, more := Run(s, events), events + [Send(r)];
    var me := now.sessions[r];
    assert more[..|events|] == events;
    assert Looks(s, more, r, me.phase.entry, me.phase.query, name, name in View(now.catalog, me.writes), |events|);
  }

  /** What is known once the query of `me` has been answered over the catalog `c`. */
  ghost predicate Knows(s: State, events: seq<Event>, r: nat, c: Catalog, me: Session)
    requires me.InEntry()
  {
    && AllSettled(s, events, r, me) && Informed(s, events, r, me)
    && Saw(s, events, r, me.phase.entry, me.phase.query, me.Entry().from, me.Entry().from in View(c, me.writes))
    && Saw(s, events, r, me.phase.entry, me.phase.query, me.Entry().to, me.Entry().to in View(c, me.writes))
  }

  /** Having its query answered, a replica goes on only over what it has seen... */
  lemma NextIsSettled(s: State, events: seq<Event>, r: nat, c: Catalog, me: Session)
    requires me.InEntry() && Knows(s, events, r, c, me) && Send1(c, me).phase == FirstQuery(me.renames, me.phase.entry + 1)
    ensures Settled(s, events, r, me.phase.entry, me.Entry())
  {
  }

  lemma NextPhase(c: Catalog, me: Session)
    requires me.InEntry()
    ensures Send1(c, me).renames == me.renames
    ensures Send1(c, me).phase != FirstQuery(me.renames, me.phase.entry + 1) ==>
              Send1(c, me).phase.RollingBack? || (Send1(c, me).phase.Working? && Send1(c, me).phase.entry == me.phase.entry)
  {
  }

  lemma StillSettled(s: State, events: seq<Event>, r: nat, me: Session, me': Session)
    requires AllSettled(s, events, r, me) && me'.renames == me.renames && Behind(me') <= Behind(me)
    ensures AllSettled(s, events, r, me')
  {
  }

  lemma OneMoreSettled(s: State, events: seq<Event>, r: nat, me: Session, me': Session)
    requires AllSettled(s, events, r, me) && me'.renames == me.renames && Behind(me') == Behind(me) + 1 <= |me.renames|
    requires Settled(s, events, r, Behind(me), me.renames[Behind(me)])
    ensures AllSettled(s, events, r, me')
  {
  }

  lemma SendSettles(s: State, events: seq<Event>, r: nat, c: Catalog, me: Session)
    requires me.InEntry() && Knows(s, events, r, c, me)
    ensures AllSettled(s, events, r, Send1(c, me))
  {
    NextPhase(c, me);
    if Send1(c, me).phase == FirstQuery(me.renames, me.phase.entry + 1) {
      NextIsSettled(s, events, r, c, me);
      OneMoreSettled(s, events, r, me, Send1(c, me));
    } else {
      StillSettled(s, events, r, me, Send1(c, me));
    }
  }

  /** ... and asks the next question of an entry with what it has seen. */
  lemma SendInforms(s: State, events: seq<Event>, r: nat, c: Catalog, me: Session)
    requires me.InEntry() && Knows(s, events, r, c, me)
    ensures Informed(s, events, r, Send1(c, me))
  {
    NextPhase(c, me);
    if me.phase.query.MoveName? {
      MoveInforms(s, events, r, c, me);
    } else if me.phase.query.RereadDest? {
      RereadInforms(s, events, r, c, me);
    }
  }

  lemma MoveInforms(s: State, events: seq<Event>, r: nat, c: Catalog, me: Session)
    requires me.InEntry() && Knows(s, events, r, c, me) && me.phase.query.MoveName?
    ensures Send1(c, me).phase.query.ReleaseSavepoint? ==> Renamed(s, events, r, me.phase.entry, me.Entry())
  {
    if me.Entry().to !in View(c, me.writes) {
      assert Saw(s, events, r, me.phase.entry, MoveName(me.phase.query.table), me.Entry().to, false);
    }
  }

  lemma RereadInforms(s: State, events: seq<Event>, r: nat, c: Catalog, me: Session)
    requires me.InEntry() && Knows(s, events, r, c, me) && me.phase.query.RereadDest?
    ensures Send1(c, me).phase.Working? ==> Recovered(s, events, r, me.phase.entry, me.Entry())
  {
  }

  lemma SendExplained(s: State, events: seq<Event>, r: nat, now: State, me: Session)
    requires now == Run(s, events) && Enabled(now, Send(r)) && me == now.sessions[r] && me.InEntry()
    requires AllSettled(s, events, r, me) && Informed(s, events, r, me)
    ensures AllSettled(s, events + [Send(r)], r, Send1(now.catalog, me)) && Informed(s, events + [Send(r)], r, Send1(now.catalog, me))
  {
    var more := events + [Send(r)];
    StaysExplained(s, events, more, r, me);
    JustSeen(s, events, r, me.Entry().from);
    JustSeen(s, events, r, me.Entry().to);
    SendSettles(s, more, r, now.catalog, me);
    SendInforms(s, more, r, now.catalog, me);
  }

  lemma RefuseExplained(s: State, events: seq<Event>, r: nat, me: Session)
    requires me.Live() && AllSettled(s, events, r, me)
    ensures AllSettled(s, events, r, Refuse1(me)) && Informed(s, events, r, Refuse1(me))
  {
  }

  lemma EndExplained(s: State, events: seq<Event>, r: nat, me: Session, outcome: Phase)
    requires AllSettled(s, events, r, me) && (outcome == Failed || (outcome == Adopted && me.phase.Committing?))
    ensures AllSettled(s, events, r, End(me, outcome)) && Informed(s, events, r, End(me, outcome))
  {
  }

  lemma StepExplained(s: State, events: seq<Event>, e: Event, r: nat)
    requires Explained(s, events, r) && |Step(Run(s, events), e).sessions| == |Run(s, events).sessions|
    ensures Explained(s, events + [e], r)
  {
    var now, more := Run(s, events), events + [e];
    assert more[..|more| - 1] == events;
    assert Run(s, more) == Step(now, e);
    if r < |now.sessions| {
      var me := now.sessions[r];
      StaysExplained(s, events, more, r, me);
      if e.r == r && Enabled(now, e) {
        if e.Send? && me.phase.Working? {
          SendExplained(s, events, r, now, me);
        } else if e.Refuse? {
          RefuseExplained(s, more, r, me);
        } else {
          EndExplained(s, more, r, me, if e.Send? && me.phase.Committing? then Adopted else Failed);
        }
      }
    }
  }

  lemma StepKeepsCount(s: State, e: Event)
    ensures |Step(s, e).sessions| == |s.sessions|
  {
  }

  lemma BootExplained(s: State, r: nat)
    requires Booting(s)
    ensures Explained(s, [], r)
  {
  }

  lemma {:induction false} RunExplained(s: State, events: seq<Event>, r: nat)
    requires Booting(s)
    ensures Explained(s, events, r)
    decreases |events|
  {
    if events == [] {
      BootExplained(s, r);
    } else {
      var init, e := events[..|events| - 1], events[|events| - 1];
      RunExplained(s, init, r);
      StepKeepsCount(Run(s, init), e);
      StepExplained(s, init, e, r);
      assert init + [e] == events;
    }
  }

  predicate LeftBehind(phase: Phase, i: nat) { phase.Adopted? || phase.Committing? || (phase.Working? && i < phase.entry) }

  /** Every entry of a replica that reports success, or has come past it, was
      skipped over what the check saw, renamed, or recovered: only over a source
      seen missing and a destination seen present does the catch block go on. */
  lemma GoesOnOverWhatItSaw(c: Catalog, lists: seq<seq<Rename>>, events: seq<Event>, r: nat)
    requires r < |Run(Start(c, lists), events).sessions|
    ensures var s := Start(c, lists); var me := Run(s, events).sessions[r];
            && (forall i :: 0 <= i < |me.renames| && LeftBehind(me.phase, i) ==> Settled(s, events, r, i, me.renames[i]))
            && (me.InEntry() && me.phase.query.ReleaseRecovered? ==>
                  && Saw(s, events, r, me.phase.entry, RereadSource, me.Entry().from, false)
                  && Saw(s, events, r, me.phase.entry, RereadDest, me.Entry().to, true))
  {
    RunExplained(Start(c, lists), events, r);
  }
}
