/** One replica by itself (src/legacy-migration.ts:21-86), with whatever rename
    list: its transaction renames one entry after the other, skipping those whose
    source is missing or whose destination exists. What that comes to for the
    program's own list depends on the schema. */
module LegacyMigrationAlone {
  import opened LegacyMigration
  import opened LegacyMigrationReplica

  function RenameOne(c: Catalog, r: Rename): Catalog {
    if r.from in c && r.to !in c then (c - {r.from})[r.to := c[r.from]] else c
  }

  /** The entries one after the other. */
  function Sequential(c: Catalog, names: seq<Rename>): Catalog {
    if names == [] then c else RenameOne(Sequential(c, names[..|names| - 1]), names[|names| - 1])
  }

  function Sends(n: nat): seq<Event> { seq(n, _ => Send(0)) }

  lemma {:induction false} RunThen(s: State, first: seq<Event>, second: seq<Event>)
    ensures Run(s, first + second) == Run(Run(s, first), second)
    decreases |second|
  {
    if second == [] {
      assert first + second == first;
    } else {
      RunThen(s, first, second[..|second| - 1]);
      assert (first + second)[..|first + second| - 1] == first + second[..|second| - 1];
    }
  }

  lemma SendOnce(s: State)
    ensures Run(s, [Send(0)]) == Step(s, Send(0))
  {
    assert [Send(0)][..0] == [];
  }

  /** Sending `n` queries, a session gets from `me` to `me'`. */
  ghost predicate Leads(c: Catalog, me: Session, me': Session, n: nat)
    decreases n
  {
    if n == 0 then me == me' else me.InEntry() && Leads(c, Send1(c, me), me', n - 1)
  }

  lemma {:induction false} LeadsOn(c: Catalog, me: Session, mid: Session, me': Session, m: nat, n: nat)
    requires Leads(c, me, mid, m) && Leads(c, mid, me', n)
    ensures Leads(c, me, me', m + n)
    decreases m
  {
    if m > 0 {
      LeadsOn(c, Send1(c, me), mid, me', m - 1, n);
    }
  }

  /** Nobody blocks it. */
  lemma NextQuery(c: Catalog, me: Session)
    requires me.InEntry()
    ensures Step(State(c, [me]), Send(0)) == State(c, [Send1(c, me)])
  {
    assert !Blocked(State(c, [me]), 0);
    assert [me][0 := Send1(c, me)] == [Send1(c, me)];
  }

  lemma {:induction false} LeadingIsRunning(c: Catalog, me: Session, me': Session, n: nat)
    requires Leads(c, me, me', n)
    ensures Run(State(c, [me]), Sends(n)) == State(c, [me'])
    decreases n
  {
    if n > 0 {
      NextQuery(c, me);
      SendOnce(State(c, [me]));
      LeadingIsRunning(c, Send1(c, me), me', n - 1);
      assert Sends(n) == [Send(0)] + Sends(n - 1);
      RunThen(State(c, [me]), [Send(0)], Sends(n - 1));
    } else {
      assert Sends(0) == [];
    }
  }

  lemma LeadsFirst(c: Catalog, me: Session, next: Session, me': Session, n: nat)
    requires me.InEntry() && Send1(c, me) == next && Leads(c, next, me', n)
    ensures Leads(c, me, me', n + 1)
  {
  }

  lemma Skips(c: Catalog, me: Session) returns (me': Session)
    requires me.InEntry() && me.phase.query.ReadSource?
    requires var seen := View(c, me.writes); me.Entry().from !in seen || me.Entry().to in seen
    ensures Leads(c, me, me', 2) && me' == me.(phase := FirstQuery(me.renames, me.phase.entry + 1))
  {
    var asked := me.At(ReadDest(me.Entry().from in View(c, me.writes)));
    me' := me.(phase := FirstQuery(me.renames, me.phase.entry + 1));
    assert Leads(c, me', me', 0);
    LeadsFirst(c, asked, me', me', 0);
    LeadsFirst(c, me, asked, me', 1);
  }

  /** From the check to the savepoint. */
  lemma Checks(c: Catalog, me: Session) returns (me': Session)
    requires me.InEntry() && me.phase.query.ReadSource?
    requires var seen := View(c, me.writes); me.Entry().from in seen && me.Entry().to !in seen
    ensures Leads(c, me, me', 2) && me' == me.At(MakeSavepoint)
  {
    me' := me.At(MakeSavepoint);
    assert Leads(c, me', me', 0);
    LeadsFirst(c, me.At(ReadDest(true)), me', me', 0);
    LeadsFirst(c, me, me.At(ReadDest(true)), me', 1);
  }

  /** From the savepoint to the lock. */
  lemma Locks(c: Catalog, me: Session) returns (me': Session)
    requires me.InEntry() && me.phase.query.MakeSavepoint? && me.Entry().from in View(c, me.writes)
    ensures Leads(c, me, me', 2) && me'.InEntry() && me'.renames == me.renames && me'.writes == me.writes
    ensures me'.phase == Working(me.phase.entry, MoveName(View(c, me.writes)[me.Entry().from]))
  {
    var saved := me.At(LockTable).(saved := Saved(me.writes, me.locks));
    var table := View(c, me.writes)[me.Entry().from];
    me' := saved.At(MoveName(table)).(locks := saved.locks + {table});
    assert Leads(c, me', me', 0);
    LeadsFirst(c, saved, me', me', 0);
    LeadsFirst(c, me, saved, me', 1);
  }

  /** From the lock to the next entry. */
  lemma MovesName(c: Catalog, me: Session) returns (me': Session)
    requires me.InEntry() && me.phase.query.MoveName? && me.Entry().to !in View(c, me.writes)
    ensures Leads(c, me, me', 2) && me'.renames == me.renames && me'.phase == FirstQuery(me.renames, me.phase.entry + 1)
    ensures me'.writes == me.writes[me.Entry().from := Gone][me.Entry().to := Here(me.phase.query.table)]
  {
    var moved := me.At(ReleaseSavepoint).(writes := me.writes[me.Entry().from := Gone][me.Entry().to := Here(me.phase.query.table)]);
    me' := moved.(phase := FirstQuery(me.renames, me.phase.entry + 1));
    assert Leads(c, me', me', 0);
    LeadsFirst(c, moved, me', me', 0);
    LeadsFirst(c, me, moved, me', 1);
  }

  lemma ViewMoves(c: Catalog, w: Writes, r: Rename)
    requires r.from in View(c, w) && r.to !in View(c, w)
    ensures View(c, w[r.from := Gone][r.to := Here(View(c, w)[r.from])]) == RenameOne(View(c, w), r)
  {
    assert r.from != r.to;
  }

  /** One entry, done or skipped. */
  lemma OneEntry(c: Catalog, me: Session) returns (me': Session, n: nat)
    requires me.InEntry() && me.phase.query.ReadSource?
    ensures Leads(c, me, me', n) && me'.renames == me.renames && me'.phase == FirstQuery(me.renames, me.phase.entry + 1)
    ensures View(c, me'.writes) == RenameOne(View(c, me.writes), me.Entry())
  {
    var seen, r := View(c, me.writes), me.Entry();
    if r.from in seen && r.to !in seen {
      var checked := Checks(c, me);
      var locked := Locks(c, checked);
      me' := MovesName(c, locked);
      LeadsOn(c, me, checked, locked, 2, 2);
      LeadsOn(c, me, locked, me', 4, 2);
      n := 6;
      ViewMoves(c, me.writes, r);
    } else {
      me' := Skips(c, me);
      n := 2;
    }
  }

  lemma {:induction false} RestOfList(c: Catalog, me: Session, i: nat) returns (me': Session, n: nat)
    requires i <= |me.renames| && me.phase == FirstQuery(me.renames, i) && View(c, me.writes) == Sequential(c, me.renames[..i])
    ensures Leads(c, me, me', n) && me'.phase.Committing? && View(c, me'.writes) == Sequential(c, me.renames)
    decreases |me.renames| - i
  {
    if i == |me.renames| {
      me', n := me, 0;
      assert me.renames[..i] == me.renames;
    } else {
      var mid, m := OneEntry(c, me);
      assert me.renames[..i + 1][..i] == me.renames[..i];
      me', n := RestOfList(c, mid, i + 1);
      LeadsOn(c, me, mid, me', m, n);
      n := m + n;
    }
  }

  lemma ViewOfNothing(c: Catalog)
    ensures View(c, map[]) == c
  {
  }

  /** One replica alone succeeds, whatever its list, and commits the entries one
      after the other. */
  lemma AloneIsSequential(c: Catalog, names: seq<Rename>) returns (n: nat)
    ensures var s := Run(Start(c, [names]), Sends(n));
            s.catalog == Sequential(c, names) && |s.sessions| == 1 && s.sessions[0].phase.Adopted?
  {
    var me := NewSession(names);
    assert Start(c, [names]) == State(c, [me]);
    ViewOfNothing(c);
    assert names[..0] == [];
    var ready, k := RestOfList(c, me, 0);
    LeadingIsRunning(c, me, ready, k);
    n := k + 1;
    assert Sends(n) == Sends(k) + [Send(0)];
    RunThen(State(c, [me]), Sends(k), [Send(0)]);
    Commits(c, ready);
  }

  lemma Commits(c: Catalog, me: Session)
    requires me.phase.Committing?
    ensures Run(State(c, [me]), [Send(0)]) == State(View(c, me.writes), [End(me, Adopted)])
  {
    SendOnce(State(c, [me]));
    assert [me][0 := End(me, Adopted)] == [End(me, Adopted)];
  }

  /* ---- the program's own list ---- */

  const ETHEREUM := "finp2p_ethereum_adapater"
  const VANILLA := "finp2p_vanilla_service"

  /** A database from before: both legacy tables, and no other name of the list taken. */
  predicate Before(c: Catalog, ledgerSchema: string) {
    && LEGACY_TABLE in c && VANILLA_TABLE in c
    && forall i :: 0 <= i < 2 && AdoptionList(ledgerSchema)[i].to != LEGACY_TABLE && AdoptionList(ledgerSchema)[i].to != VANILLA_TABLE ==>
         AdoptionList(ledgerSchema)[i].to !in c
  }

  /** Every table is under the name the schema gives it. */
  predicate AllAdopted(c: Catalog, ledgerSchema: string, now: Catalog) {
    forall i :: 0 <= i < 2 ==>
      var r := AdoptionList(ledgerSchema)[i];
      r.from in c && r.to in now && now[r.to] == c[r.from]
  }

  lemma InTwoSteps(c: Catalog, ledgerSchema: string)
    ensures var names := AdoptionList(ledgerSchema); Sequential(c, names) == RenameOne(RenameOne(c, names[0]), names[1])
  {
    var names := AdoptionList(ledgerSchema);
    assert names[..1] == [names[0]] && [names[0]][..0] == [];
    assert Sequential(c, [names[0]]) == RenameOne(c, names[0]);
  }

  /** Which of the four names may be the same. */
  lemma OnlyTheseCoincide(ledgerSchema: string)
    ensures var names := AdoptionList(ledgerSchema);
            && LEGACY_TABLE != VANILLA_TABLE && names[0].to != names[1].to
            && names[1].to != LEGACY_TABLE && names[1].to != VANILLA_TABLE
            && (names[0].to == LEGACY_TABLE <==> ledgerSchema == ETHEREUM)
            && (names[0].to == VANILLA_TABLE <==> ledgerSchema == VANILLA)
  {
    var names := AdoptionList(ledgerSchema);
    var to0, to1 := names[0].to.text, names[1].to.text;
    assert LEGACY_TABLE.text == ETHEREUM + "_migrations" && VANILLA_TABLE.text == VANILLA + "_migrations";
    if to0 == LEGACY_TABLE.text {
      SamePrefix(ledgerSchema, ETHEREUM, "_migrations");
    }
    if to0 == VANILLA_TABLE.text {
      SamePrefix(ledgerSchema, VANILLA, "_migrations");
    }
    assert to1[|to1| - 12] == 'e' && LEGACY_TABLE.text[|LEGACY_TABLE.text| - 12] == 'r';
    assert |to1| > |VANILLA_TABLE.text| && |to0| < |to1|;
    assert LEGACY_TABLE.text[7] != VANILLA_TABLE.text[7];
  }

  /** A replica that boots alone on a database from before leaves every table under
      its new name exactly if the schema is not the legacy name of the vanilla
      service: there the first destination is taken by the second source. The
      misspelt legacy name of the adapter does no harm: its table keeps its name. */
  lemma AloneAdoptsIff(c: Catalog, ledgerSchema: string)
    requires Before(c, ledgerSchema)
    ensures AllAdopted(c, ledgerSchema, Sequential(c, AdoptionList(ledgerSchema))) <==> ledgerSchema != VANILLA
  {
    var names := AdoptionList(ledgerSchema);
    OnlyTheseCoincide(ledgerSchema);
    InTwoSteps(c, ledgerSchema);
    assert names[0].from == LEGACY_TABLE && names[1].from == VANILLA_TABLE;
    if ledgerSchema == VANILLA {
      assert names[0].to !in Sequential(c, names);
    }
  }

  /** The run in which it fails: the replica reports success, the adapter's table
      still has its legacy name, and nothing has the name it should have got. */
  lemma VanillaSchemaIsNotAdopted(c: Catalog) returns (n: nat)
    requires Before(c, VANILLA)
    ensures var s := Run(Start(c, [AdoptionList(VANILLA)]), Sends(n));
            && |s.sessions| == 1 && s.sessions[0].phase.Adopted?
            && LEGACY_TABLE in s.catalog && s.catalog[LEGACY_TABLE] == c[LEGACY_TABLE] && AdoptionList(VANILLA)[0].to !in s.catalog
  {
    n := AloneIsSequential(c, AdoptionList(VANILLA));
    OnlyTheseCoincide(VANILLA);
    InTwoSteps(c, VANILLA);
    assert VANILLA != ETHEREUM by { assert VANILLA[7] != ETHEREUM[7]; }
  }
}
