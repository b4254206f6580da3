/** The program one replica runs (src/legacy-migration.ts:21-94), against a
    server on which the other replicas act between any two of its queries. */
module LegacyMigrationReplica {
  import opened LegacyMigration
  import opened LegacyMigrationShared
  import Seen = LegacyMigrationSeen

  const LEGACY_TABLE := Name("finp2p_ethereum_adapater_migrations")
  const VANILLA_TABLE := Name("finp2p_vanilla_service_migrations")

  /** The two renames of src/legacy-migration.ts:26-29. */
  function AdoptionList(ledgerSchema: string): seq<Rename> {
    [Rename(LEGACY_TABLE, Name(ledgerSchema + "_migrations")),
     Rename(VANILLA_TABLE, Name(ledgerSchema + "_" + VANILLA_TABLE.text))]
  }

  lemma SamePrefix(a: string, b: string, suffix: string)
    requires a + suffix == b + suffix
    ensures a == b
  {
    assert |a| == |b|;
    assert a == (a + suffix)[..|a|] && b == (b + suffix)[..|b|];
  }

  /** The four names differ exactly when the schema is not itself a legacy prefix,
      so that is when the results about a shared list apply to the program's own. */
  lemma AdoptionNamesDiffer(ledgerSchema: string)
    ensures DistinctNames(AdoptionList(ledgerSchema)) <==>
            ledgerSchema != "finp2p_ethereum_adapater" && ledgerSchema != "finp2p_vanilla_service"
  {
    var names := AdoptionList(ledgerSchema);
    var to0, to1 := names[0].to.text, names[1].to.text;
    assert LEGACY_TABLE.text == "finp2p_ethereum_adapater" + "_migrations";
    assert VANILLA_TABLE.text == "finp2p_vanilla_service" + "_migrations";
    if to0 == LEGACY_TABLE.text {
      SamePrefix(ledgerSchema, "finp2p_ethereum_adapater", "_migrations");
    }
    if to0 == VANILLA_TABLE.text {
      SamePrefix(ledgerSchema, "finp2p_vanilla_service", "_migrations");
    }
    assert to1[|to1| - 12] == 'e' && LEGACY_TABLE.text[|LEGACY_TABLE.text| - 12] == 'r';
    assert |to1| > |VANILLA_TABLE.text|;
    assert |to0| < |to1|;
    if ledgerSchema == "finp2p_ethereum_adapater" {
      assert names[0].to == names[0].from;
    } else if ledgerSchema == "finp2p_vanilla_service" {
      assert names[0].to == names[1].from;
    }
  }

  /** What came of one query: answered, refused, or no answer within the run. */
  datatype Reply = Answered | Refused | Unanswered

  /** How a call ended, from the caller's side. */
  datatype Outcome = Returned | Threw | Hanging

  /** What happens around one query: the other replicas' steps before it, and
      whether the server then refuses it. */
  datatype Round = Round(others: seq<Event>, refuse: bool)

  lemma OthersLeaveAlone(s: State, e: Event, r: nat)
    requires r < |s.sessions| && e.r != r
    ensures |Step(s, e).sessions| == |s.sessions| && Step(s, e).sessions[r] == s.sessions[r]
  {
  }

  class Server {
    var catalog: Catalog
    var sessions: seq<Session>
    /** The rounds still to come, as the environment will play them. */
    var rounds: seq<Round>
    ghost const boot: State
    ghost var history: seq<Event>

    ghost function Now(): State reads this { State(catalog, sessions) }

    ghost predicate Valid(r: nat)
      reads this
    {
      && Seen.Booting(boot) && Now() == Run(boot, history)
      && r < |sessions|
      && forall k, i :: 0 <= k < |rounds| && 0 <= i < |rounds[k].others| ==> rounds[k].others[i].r != r
    }

    constructor (c: Catalog, lists: seq<seq<Rename>>, rounds: seq<Round>)
      ensures boot == Start(c, lists) && Seen.Booting(boot) && history == [] && Now() == boot && this.rounds == rounds
    {
      var start := Start(c, lists);
      catalog, sessions, this.rounds := start.catalog, start.sessions, rounds;
      boot, history := start, [];
    }

    /** The other replicas take some steps; this one is not affected. */
    method Interfere(r: nat, others: seq<Event>)
      requires Valid(r) && forall i :: 0 <= i < |others| ==> others[i].r != r
      modifies this`catalog, this`sessions, this`history
      ensures Valid(r) && sessions[r] == old(sessions[r]) && |sessions| == old(|sessions|)
      ensures history == old(history) + others
    {
      var i := 0;
      while i < |others|
        invariant 0 <= i <= |others|
        invariant Valid(r) && sessions[r] == old(sessions[r]) && |sessions| == old(|sessions|)
        invariant history == old(history) + others[..i]
      {
        OthersLeaveAlone(State(catalog, sessions), others[i], r);
        Apply(r, others[i]);
        assert others[..i + 1] == others[..i] + [others[i]];
        i := i + 1;
      }
      assert others[..|others|] == others;
    }

    ghost method Record(e: Event)
      modifies this`history
      ensures history == old(history) + [e]
      ensures Run(boot, history) == Step(Run(boot, old(history)), e)
    {
      history := history + [e];
      assert history[..|history| - 1] == old(history);
    }

    /** Sends the replica's next query and waits for the reply: rounds pass while
        it is blocked, until one refuses it or finds it free to go. */
    method Send(r: nat) returns (reply: Reply)
      requires Valid(r) && sessions[r].Live() && (sessions[r].phase.Working? ==> sessions[r].InEntry())
      modifies this`catalog, this`sessions, this`history, this`rounds
      ensures Valid(r) && |sessions| == old(|sessions|) && old(history) <= history
      ensures reply.Unanswered? ==> sessions[r] == old(sessions[r]) && rounds == []
      ensures !reply.Unanswered? ==> |rounds| < |old(rounds)| && (reply.Refused? <==> old(rounds)[|old(rounds)| - |rounds| - 1].refuse)
      ensures reply.Refused? ==> sessions[r] == Refuse1(old(sessions[r]))
      ensures reply.Answered? && !old(sessions[r]).phase.Committing? ==> sessions[r] == Answered1(catalog, old(sessions[r]))
      ensures reply.Answered? && old(sessions[r]).phase.Committing? ==> sessions[r] == End(old(sessions[r]), Adopted)
    {
      while rounds != []
        invariant Valid(r) && sessions[r] == old(sessions[r]) && |sessions| == old(|sessions|) && old(history) <= history
        invariant |rounds| <= |old(rounds)| && rounds == old(rounds)[|old(rounds)| - |rounds|..]
        decreases |rounds|
      {
        reply := PlayRound(r);
        if !reply.Unanswered? { return; }
      }
      return Unanswered;
    }

    /** One round: the others act, then the server refuses the query, answers it,
        or leaves the replica waiting. */
    method PlayRound(r: nat) returns (reply: Reply)
      requires Valid(r) && sessions[r].Live() && (sessions[r].phase.Working? ==> sessions[r].InEntry()) && rounds != []
      modifies this`catalog, this`sessions, this`history, this`rounds
      ensures Valid(r) && |sessions| == old(|sessions|) && old(history) <= history && rounds == old(rounds)[1..]
      ensures reply.Unanswered? ==> sessions[r] == old(sessions[r])
      ensures reply.Refused? <==> old(rounds)[0].refuse
      ensures reply.Refused? ==> sessions[r] == Refuse1(old(sessions[r]))
      ensures reply.Answered? && !old(sessions[r]).phase.Committing? ==> sessions[r] == Answered1(catalog, old(sessions[r]))
      ensures reply.Answered? && old(sessions[r]).phase.Committing? ==> sessions[r] == End(old(sessions[r]), Adopted)
      ensures reply.Unanswered? ==> Blocked(Now(), r)
    {
      var round := rounds[0];
      rounds := rounds[1..];
      Interfere(r, round.others);
      if round.refuse {
        Apply(r, Event.Refuse(r));
        return Refused;
      }
      if Blocked(State(catalog, sessions), r) { return Unanswered; }
      Apply(r, Event.Send(r));
      return Answered;
    }

    /** One step of the system happens. */
    method Apply(r: nat, e: Event)
      requires Valid(r)
      modifies this`catalog, this`sessions, this`history
      ensures Valid(r) && Now() == Step(old(Now()), e) && history == old(history) + [e]
    {
      var next := Step(State(catalog, sessions), e);
      Record(e);
      catalog, sessions := next.catalog, next.sessions;
    }

    /** `SELECT to_regclass(...)`: the answer is what the session sees. */
    method TableExists(r: nat, name: Name) returns (reply: Reply, found: bool)
      requires Valid(r) && sessions[r].InEntry()
      requires match sessions[r].phase.query
               case ReadSource | RereadSource => name == sessions[r].Entry().from
               case ReadDest(_) | RereadDest => name == sessions[r].Entry().to
               case _ => false
      modifies this`catalog, this`sessions, this`history, this`rounds
      ensures Valid(r) && |sessions| == old(|sessions|)
      ensures reply.Unanswered? ==> sessions[r] == old(sessions[r]) && rounds == []
      ensures reply.Refused? ==> sessions[r] == Refuse1(old(sessions[r]))
      ensures reply.Answered? ==> sessions[r] == Send1(catalog, old(sessions[r]))
                                  && found == (name in View(catalog, old(sessions[r]).writes))
    {
      reply := Send(r);
      found := name in View(catalog, sessions[r].writes);
    }

    /** renameLegacyTableInTransaction, src/legacy-migration.ts:49-86: it returns
        only over an entry skipped at the check, renamed, or recovered. */
    method RenameLegacyTable(r: nat, entry: nat) returns (outcome: Outcome)
      requires Valid(r) && entry < |sessions[r].renames| && sessions[r].phase == Working(entry, ReadSource)
      modifies this`catalog, this`sessions, this`history, this`rounds
      ensures Valid(r) && sessions[r].renames == old(sessions[r].renames)
      ensures outcome.Returned? ==> sessions[r].phase == FirstQuery(sessions[r].renames, entry + 1)
      ensures outcome.Returned? ==> Seen.Settled(boot, history, r, entry, sessions[r].renames[entry])
      ensures outcome.Threw? ==> sessions[r].phase == RollingBack
      ensures outcome.Hanging? ==> sessions[r].Live() && rounds == []
    {
      var from, to := sessions[r].renames[entry].from, sessions[r].renames[entry].to;
      var reply, sourceExists := TableExists(r, from);
      if !reply.Answered? { return OnError(reply); }
      var destExists;
      reply, destExists := TableExists(r, to);
      if !reply.Answered? { return OnError(reply); }
      if !sourceExists || destExists {
        Seen.RunExplained(boot, history, r);
        return Returned;
      }
      reply := Send(r);  // SAVEPOINT
      if !reply.Answered? { return OnError(reply); }
      outcome := TryRename(r, entry);
      if outcome.Threw? {
        outcome := CatchRename(r, entry);
      }
      Seen.RunExplained(boot, history, r);
    }

    /** The try block: the rename and the release of its savepoint. */
    method TryRename(r: nat, entry: nat) returns (outcome: Outcome)
      requires Valid(r) && entry < |sessions[r].renames| && sessions[r].phase == Working(entry, LockTable)
      modifies this`catalog, this`sessions, this`history, this`rounds
      ensures Valid(r) && sessions[r].renames == old(sessions[r].renames)
      ensures outcome.Returned? ==> sessions[r].phase == FirstQuery(sessions[r].renames, entry + 1)
      ensures outcome.Threw? ==> sessions[r].phase == Working(entry, RollbackToSavepoint)
      ensures outcome.Hanging? ==> sessions[r].Live() && rounds == []
    {
      var reply := Send(r);  // ALTER TABLE ... RENAME, waiting for the table
      if reply.Unanswered? { return Hanging; }
      if reply.Refused? || sessions[r].phase.query.RollbackToSavepoint? { return Threw; }
      outcome := MoveAndRelease(r, entry);
    }

    /** The rest of the try block, once the table is locked. */
    method MoveAndRelease(r: nat, entry: nat) returns (outcome: Outcome)
      requires Valid(r) && entry < |sessions[r].renames| && sessions[r].InEntry() && sessions[r].phase.entry == entry && sessions[r].phase.query.MoveName?
      modifies this`catalog, this`sessions, this`history, this`rounds
      ensures Valid(r) && sessions[r].renames == old(sessions[r].renames)
      ensures outcome.Returned? ==> sessions[r].phase == FirstQuery(sessions[r].renames, entry + 1)
      ensures outcome.Threw? ==> sessions[r].phase == Working(entry, RollbackToSavepoint)
      ensures outcome.Hanging? ==> sessions[r].Live() && rounds == []
    {
      var reply := Send(r);  // the same statement, waiting for the name
      if reply.Unanswered? { return Hanging; }
      if reply.Refused? || sessions[r].phase.query.RollbackToSavepoint? { return Threw; }
      reply := Send(r);  // RELEASE SAVEPOINT
      return if reply.Unanswered? then Hanging else if reply.Refused? then Threw else Returned;
    }

    /** The catch block: accept the rename if another replica has completed it,
        that is over a source seen missing and a destination seen present. */
    method CatchRename(r: nat, entry: nat) returns (outcome: Outcome)
      requires Valid(r) && entry < |sessions[r].renames| && sessions[r].phase == Working(entry, RollbackToSavepoint)
      modifies this`catalog, this`sessions, this`history, this`rounds
      ensures Valid(r) && sessions[r].renames == old(sessions[r].renames)
      ensures outcome.Returned? ==> sessions[r].phase == FirstQuery(sessions[r].renames, entry + 1)
      ensures outcome.Returned? ==> Seen.Recovered(boot, history, r, entry, sessions[r].renames[entry])
      ensures outcome.Threw? ==> sessions[r].phase == RollingBack
      ensures outcome.Hanging? ==> sessions[r].Live() && rounds == []
    {
      var reply := Send(r);  // ROLLBACK TO SAVEPOINT
      if !reply.Answered? { return OnError(reply); }
      outcome := AcceptIfCompleted(r, entry);
    }

    /** Look again, and go on only if another replica has completed the rename. */
    method AcceptIfCompleted(r: nat, entry: nat) returns (outcome: Outcome)
      requires Valid(r) && entry < |sessions[r].renames| && sessions[r].phase == Working(entry, RereadSource)
      modifies this`catalog, this`sessions, this`history, this`rounds
      ensures Valid(r) && sessions[r].renames == old(sessions[r].renames)
      ensures outcome.Returned? ==> sessions[r].phase == FirstQuery(sessions[r].renames, entry + 1)
      ensures outcome.Returned? ==> Seen.Recovered(boot, history, r, entry, sessions[r].renames[entry])
      ensures outcome.Threw? ==> sessions[r].phase == RollingBack
      ensures outcome.Hanging? ==> sessions[r].Live() && rounds == []
    {
      var from, to := sessions[r].renames[entry].from, sessions[r].renames[entry].to;
      var reply;
      var sourceExists, destExists;
      reply, sourceExists := TableExists(r, from);
      if !reply.Answered? { return OnError(reply); }
      if sourceExists { return Threw; }
      reply, destExists := TableExists(r, to);
      if !reply.Answered? { return OnError(reply); }
      if !destExists { return Threw; }
      outcome := ReleaseAsCompleted(r, entry);
    }

    /** RELEASE SAVEPOINT: the rename was completed by another actor. */
    method ReleaseAsCompleted(r: nat, entry: nat) returns (outcome: Outcome)
      requires Valid(r) && entry < |sessions[r].renames| && sessions[r].phase == Working(entry, ReleaseRecovered)
      modifies this`catalog, this`sessions, this`history, this`rounds
      ensures Valid(r) && sessions[r].renames == old(sessions[r].renames)
      ensures outcome.Returned? ==> sessions[r].phase == FirstQuery(sessions[r].renames, entry + 1)
      ensures outcome.Returned? ==> Seen.Recovered(boot, history, r, entry, sessions[r].renames[entry])
      ensures outcome.Threw? ==> sessions[r].phase == RollingBack
      ensures outcome.Hanging? ==> sessions[r].Live() && rounds == []
    {
      ghost var seen := history;
      Seen.RunExplained(boot, seen, r);
      var reply := Send(r);
      if !reply.Answered? { return OnError(reply); }
      Seen.RecoveredGrows(boot, seen, history, r, entry, sessions[r].renames[entry]);
      return Returned;
    }

    /** adoptLegacyMigrationTables, src/legacy-migration.ts:21-47. Whatever the
        others do, the program walks the protocol's own steps: it returns only
        after its COMMIT, every entry skipped at its check, renamed or recovered,
        and throws only once its transaction is rolled back. */
    method AdoptLegacyMigrationTables(r: nat) returns (outcome: Outcome)
      requires Valid(r) && sessions[r].phase == FirstQuery(sessions[r].renames, 0)
      modifies this`catalog, this`sessions, this`history, this`rounds
      ensures Valid(r) && Now() == Run(boot, history)
      ensures outcome.Returned? ==> sessions[r].phase == Adopted
      ensures outcome.Returned? ==> forall i :: 0 <= i < |sessions[r].renames| ==> Seen.Settled(boot, history, r, i, sessions[r].renames[i])
      ensures outcome.Threw? ==> sessions[r].phase == Failed
      ensures outcome.Hanging? ==> sessions[r].Live() && rounds == []
    {
      var entry := 0;
      var error := false;
      while entry < |sessions[r].renames| && !error
        invariant Valid(r) && 0 <= entry <= |sessions[r].renames|
        invariant sessions[r].renames == old(sessions[r].renames)
        invariant sessions[r].phase == if error then RollingBack else FirstQuery(sessions[r].renames, entry)
        decreases |sessions[r].renames| - entry, !error
      {
        outcome := RenameLegacyTable(r, entry);
        if outcome.Hanging? { return; }
        if outcome.Threw? { error := true; } else { entry := entry + 1; }
      }
      if !error {
        var reply := Send(r);  // COMMIT
        if reply.Unanswered? { return Hanging; }
        if reply.Answered? {
          Seen.RunExplained(boot, history, r);
          return Returned;
        }
      }
      var reply := Send(r);  // ROLLBACK, whose own failure is swallowed
      return if reply.Unanswered? then Hanging else Threw;
    }
  }

  /** An unexpected error leaves the rename by an exception. */
  function OnError(reply: Reply): Outcome {
    if reply.Unanswered? then Hanging else Threw
  }
}
