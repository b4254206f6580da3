/** Co-deployed adapters with lists of their own that race for one legacy table
    (src/legacy-migration.ts:73-85): whoever comes second finds neither the source
    nor its own destination, and fails. */
module LegacyMigrationRace {
  import opened LegacyMigration
  import opened LegacyMigrationAlone

  /** All replicas but one hold no lock and have nothing uncommitted. */
  ghost predicate OthersIdle(s: State, r: nat) {
    forall q :: 0 <= q < |s.sessions| && q != r ==> s.sessions[q].locks == {} && s.sessions[q].writes == map[]
  }

  function SendsOf(r: nat, n: nat): seq<Event> { seq(n, _ => Send(r)) }

  function Replaced(s: State, r: nat, me: Session): State
    requires r < |s.sessions|
  {
    s.(sessions := s.sessions[r := me])
  }

  lemma OneSend(s: State, r: nat)
    requires OthersIdle(s, r) && r < |s.sessions| && s.sessions[r].InEntry()
    ensures Run(s, [Send(r)]) == Replaced(s, r, Send1(s.catalog, s.sessions[r]))
  {
    assert [Send(r)][..0] == [];
    assert !Blocked(s, r);
  }

  lemma {:induction false} LeadingIsRunningOf(s: State, r: nat, me': Session, n: nat)
    requires OthersIdle(s, r) && r < |s.sessions| && Leads(s.catalog, s.sessions[r], me', n)
    ensures Run(s, SendsOf(r, n)) == Replaced(s, r, me')
    decreases n
  {
    if n > 0 {
      OneSend(s, r);
      LeadingIsRunningOf(Replaced(s, r, Send1(s.catalog, s.sessions[r])), r, me', n - 1);
      assert SendsOf(r, n) == [Send(r)] + SendsOf(r, n - 1);
      RunThen(s, [Send(r)], SendsOf(r, n - 1));
    } else {
      assert SendsOf(r, 0) == [];
    }
  }

  lemma LastSend(s: State, r: nat)
    requires r < |s.sessions| && (s.sessions[r].phase.Committing? || s.sessions[r].phase.RollingBack?)
    ensures var me := s.sessions[r];
            Run(s, [Send(r)])
            == if me.phase.Committing? then State(View(s.catalog, me.writes), s.sessions[r := End(me, Adopted)])
               else Replaced(s, r, End(me, Failed))
  {
    assert [Send(r)][..0] == [];
  }

  /** The check goes through and the savepoint is made. */
  lemma ComesToTheRename(c: Catalog, me: Session)
    requires me.InEntry() && me.phase.query.ReadSource? && me.writes == map[] && me.locks == {} && me.Entry().from in c && me.Entry().to !in c
    ensures Leads(c, me, me.At(LockTable).(saved := Saved(map[], {})), 3)
  {
    ViewOfNothing(c);
    var checked := Checks(c, me);
    var next := me.At(LockTable).(saved := Saved(map[], {}));
    assert Leads(c, next, next, 0);
    LeadsFirst(c, checked, next, next, 0);
    LeadsOn(c, me, checked, next, 2, 1);
  }

  /** The ALTER fails on a source that is gone; rolled back to the savepoint the
      replica finds neither name, and gives up. */
  lemma FindsNeither(c: Catalog, me: Session)
    requires me.InEntry() && me.phase.query.LockTable? && me.writes == map[] && me.locks == {} && me.saved == Saved(map[], {})
    requires me.Entry().from !in c && me.Entry().to !in c
    ensures Leads(c, me, me.(phase := RollingBack), 4)
  {
    ViewOfNothing(c);
    var last := me.(phase := RollingBack);
    assert Leads(c, last, last, 0);
    LeadsFirst(c, me.At(RereadDest), last, last, 0);
    LeadsFirst(c, me.At(RereadSource), me.At(RereadDest), last, 1);
    LeadsFirst(c, me.At(RollbackToSavepoint), me.At(RereadSource), last, 2);
    LeadsFirst(c, me, me.At(RollbackToSavepoint), last, 3);
  }

  /** Replica 0 has come to COMMIT. */
  lemma Renames(c: Catalog, me: Session) returns (ready: Session, n: nat)
    requires me.InEntry() && |me.renames| == 1 && me.phase.entry == 0 && me.phase.query.ReadSource? && me.writes == map[]
    requires me.Entry().from in c && me.Entry().to !in c
    ensures Leads(c, me, ready, n) && ready.phase.Committing? && View(c, ready.writes) == (c - {me.Entry().from})[me.Entry().to := c[me.Entry().from]]
  {
    ViewOfNothing(c);
    ready, n := OneEntry(c, me);
  }

  /** From where both replicas are past their check, or rather the second is. */
  lemma SecondComesLate(s: State, r: nat)
    requires r < |s.sessions| && OthersIdle(s, r)
    requires var me := s.sessions[r];
             && me.InEntry() && me.phase.query.LockTable? && me.writes == map[] && me.locks == {} && me.saved == Saved(map[], {})
             && me.Entry().from !in s.catalog && me.Entry().to !in s.catalog
    ensures Run(s, SendsOf(r, 5)) == Replaced(s, r, End(s.sessions[r], Failed))
  {
    var me := s.sessions[r];
    FindsNeither(s.catalog, me);
    LeadingIsRunningOf(s, r, me.(phase := RollingBack), 4);
    assert SendsOf(r, 5) == SendsOf(r, 4) + [Send(r)];
    RunThen(s, SendsOf(r, 4), [Send(r)]);
    LastSend(Replaced(s, r, me.(phase := RollingBack)), r);
  }

  lemma InFourParts(s: State, e1: seq<Event>, e2: seq<Event>, e3: seq<Event>, e4: seq<Event>)
    ensures Run(s, e1 + e2 + e3 + e4) == Run(Run(Run(Run(s, e1), e2), e3), e4)
  {
    RunThen(s, e1, e2);
    RunThen(s, e1 + e2, e3);
    RunThen(s, e1 + e2 + e3, e4);
  }

  /** The second is waiting to rename; the first renames and commits. */
  lemma FirstCommits(c: Catalog, first: Session, waiting: Session) returns (n: nat)
    requires first.InEntry() && |first.renames| == 1 && first.phase.entry == 0 && first.phase.query.ReadSource?
    requires first.writes == waiting.writes == map[] && first.locks == waiting.locks == {}
    requires first.Entry().from in c && first.Entry().to !in c
    ensures Run(Run(State(c, [first, waiting]), SendsOf(0, n)), [Send(0)])
            == State((c - {first.Entry().from})[first.Entry().to := c[first.Entry().from]], [End(first, Adopted), waiting])
  {
    var ready;
    ready, n := Renames(c, first);
    var s := State(c, [first, waiting]);
    LeadingIsRunningOf(s, 0, ready, n);
    assert Replaced(s, 0, ready) == State(c, [ready, waiting]);
    LastSend(State(c, [ready, waiting]), 0);
    LeadsKeepsRenames(c, first, ready, n);
    assert [ready, waiting][0 := End(ready, Adopted)] == [End(first, Adopted), waiting];
  }

  lemma {:induction false} LeadsKeepsRenames(c: Catalog, me: Session, me': Session, n: nat)
    requires Leads(c, me, me', n)
    ensures me'.renames == me.renames
    decreases n
  {
    if n > 0 {
      LeadsKeepsRenames(c, Send1(c, me), me', n - 1);
    }
  }

  lemma SecondWaits(c: Catalog, first: Session, second: Session)
    requires first.writes == map[] && first.locks == {}
    requires second.InEntry() && second.phase.query.ReadSource? && second.writes == map[] && second.locks == {}
    requires second.Entry().from in c && second.Entry().to !in c
    ensures Run(State(c, [first, second]), SendsOf(1, 3)) == State(c, [first, second.At(LockTable).(saved := Saved(map[], {}))])
  {
    var s, waiting := State(c, [first, second]), second.At(LockTable).(saved := Saved(map[], {}));
    ComesToTheRename(c, second);
    LeadingIsRunningOf(s, 1, waiting, 3);
    assert [first, second][1 := waiting] == [first, waiting];
  }

  lemma TwoBoot(c: Catalog, one: seq<Rename>, two: seq<Rename>)
    ensures Start(c, [one, two]) == State(c, [NewSession(one), NewSession(two)])
  {
  }

  function RaceOf(n: nat): seq<Event> { SendsOf(1, 3) + SendsOf(0, n) + [Send(0)] + SendsOf(1, 5) }

  lemma SessionsRace(c: Catalog, first: Session, second: Session) returns (n: nat)
    requires first == NewSession(first.renames) && |first.renames| == 1 && second == NewSession(second.renames) && |second.renames| == 1
    requires first.Entry().from == second.Entry().from && first.Entry().from in c && first.Entry().to !in c && second.Entry().to !in c
    requires first.Entry().to != second.Entry().to
    ensures var s := Run(State(c, [first, second]), RaceOf(n)); var from := first.Entry().from;
            && |s.sessions| == 2 && s.sessions[0].phase == Adopted && s.sessions[1].phase == Failed
            && s.catalog == (c - {from})[first.Entry().to := c[from]]
  {
    var waiting := second.At(LockTable).(saved := Saved(map[], {}));
    SecondWaits(c, first, second);
    n := FirstCommits(c, first, waiting);
    SecondComesLate(State((c - {first.Entry().from})[first.Entry().to := c[first.Entry().from]], [End(first, Adopted), waiting]), 1);
    InFourParts(State(c, [first, second]), SendsOf(1, 3), SendsOf(0, n), [Send(0)], SendsOf(1, 5));
  }

  /** Two adapters, two destinations, one legacy table, no fault: the second has
      checked and made its savepoint when the first renames and commits. The
      first succeeds; the second fails, its destination never having existed. */
  lemma SecondListFails(c: Catalog, from: Name, a: Name, b: Name) returns (n: nat)
    requires from in c && a !in c && b !in c && a != b
    ensures forall i :: 0 <= i < |RaceOf(n)| ==> RaceOf(n)[i].Send?
    ensures var s := Run(Start(c, [[Rename(from, a)], [Rename(from, b)]]), RaceOf(n));
            && |s.sessions| == 2 && s.sessions[0].phase == Adopted && s.sessions[1].phase == Failed
            && s.catalog == (c - {from})[a := c[from]]
  {
    TwoBoot(c, [Rename(from, a)], [Rename(from, b)]);
    n := SessionsRace(c, NewSession([Rename(from, a)]), NewSession([Rename(from, b)]));
  }
}
