/** The adoption of the legacy migration tables (src/legacy-migration.ts) as a
    protocol between any number of replicas and one PostgreSQL server.

    Every awaited query is one step, so replicas interleave between queries.
    What is assumed of the server:
    - a session sees the committed catalog with its own uncommitted renames on top;
    - a rename first takes an exclusive lock on the table its name resolves to,
      and waits while another session holds that lock;
    - a rename onto a name another session has touched and not yet committed
      waits for that session; onto a name the session can see it is refused;
    - locks and uncommitted renames live until commit, abort or roll back to
      the savepoint that precedes them. */
module LegacyMigration {
  import opened Wrappers

  datatype Name = Name(text: string)

  /** A table is its identity and its rows; neither changes, only the name does. */
  datatype Table = Table(oid: nat, rows: seq<int>)

  type Catalog = map<Name, Table>

  /** One entry of the rename list. */
  datatype Rename = Rename(from: Name, to: Name)

  /** What a session has done to one name since its transaction began. */
  datatype Cell = Gone | Here(table: Table)
  type Writes = map<Name, Cell>

  /** The query a replica is about to send while it works on one entry. */
  datatype Query =
    | ReadSource
    | ReadDest(sourceExists: bool)
    | MakeSavepoint
    | LockTable
    | MoveName(table: Table)
    | ReleaseSavepoint
    | RollbackToSavepoint
    | RereadSource
    | RereadDest
    | ReleaseRecovered

  datatype Phase =
    | Working(entry: nat, query: Query)
    | Committing
    | RollingBack
    | Adopted
    | Failed

  datatype Saved = Saved(writes: Writes, locks: set<Table>)

  datatype Session = Session(renames: seq<Rename>, phase: Phase, writes: Writes, locks: set<Table>, saved: Saved)
  {
    predicate Live() { phase.Working? || phase.Committing? || phase.RollingBack? }
    predicate InEntry() { phase.Working? && phase.entry < |renames| }
    function Entry(): Rename requires InEntry() { renames[phase.entry] }
    function At(q: Query): Session requires InEntry() { this.(phase := Working(phase.entry, q)) }
  }

  datatype State = State(catalog: Catalog, sessions: seq<Session>)

  /** What can happen next: replica `r` sends its next query, has it refused, or
      has its COMMIT applied while the reply is lost. */
  datatype Event = Send(r: nat) | Refuse(r: nat) | LoseCommitReply(r: nat)

  /** The catalog as a session with uncommitted writes `w` sees it. */
  function View(c: Catalog, w: Writes): Catalog {
    map n | n in c.Keys + w.Keys && (n in w ==> w[n].Here?) :: if n in w then w[n].table else c[n]
  }

  function NewSession(renames: seq<Rename>): Session {
    Session(renames, FirstQuery(renames, 0), map[], {}, Saved(map[], {}))
  }

  function Start(c: Catalog, lists: seq<seq<Rename>>): State {
    State(c, seq(|lists|, r requires 0 <= r < |lists| => NewSession(lists[r])))
  }

  function FirstQuery(renames: seq<Rename>, entry: nat): Phase {
    if entry < |renames| then Working(entry, ReadSource) else Committing
  }

  predicate LockedByOther(s: State, r: nat, t: Table) {
    exists q :: 0 <= q < |s.sessions| && q != r && t in s.sessions[q].locks
  }

  predicate NameTakenByOther(s: State, r: nat, n: Name) {
    exists q :: 0 <= q < |s.sessions| && q != r && n in s.sessions[q].writes
  }

  /** A rename that has to wait for another session. */
  predicate Blocked(s: State, r: nat)
    requires r < |s.sessions|
  {
    var me := s.sessions[r];
    var seen := View(s.catalog, me.writes);
    me.InEntry() &&
    match me.phase.query
    case LockTable => me.Entry().from in seen && LockedByOther(s, r, seen[me.Entry().from])
    case MoveName(_) => me.Entry().to !in seen && NameTakenByOther(s, r, me.Entry().to)
    case _ => false
  }

  /** The replica's own next query and what the program does with the reply. */
  function Send1(c: Catalog, me: Session): Session
    requires me.InEntry()
  {
    var seen := View(c, me.writes);
    var e := me.Entry();
    match me.phase.query
    case ReadSource => me.At(ReadDest(e.from in seen))
    case ReadDest(src) =>
      if !src || e.to in seen then me.(phase := FirstQuery(me.renames, me.phase.entry + 1))
      else me.At(MakeSavepoint)
    case MakeSavepoint => me.At(LockTable).(saved := Saved(me.writes, me.locks))
    case LockTable =>
      if e.from !in seen then me.At(RollbackToSavepoint)
      else me.At(MoveName(seen[e.from])).(locks := me.locks + {seen[e.from]})
    case MoveName(t) =>
      if e.to in seen then me.At(RollbackToSavepoint)
      else me.At(ReleaseSavepoint).(writes := me.writes[e.from := Gone][e.to := Here(t)])
    case ReleaseSavepoint => me.(phase := FirstQuery(me.renames, me.phase.entry + 1))
    case RollbackToSavepoint => me.At(RereadSource).(writes := me.saved.writes, locks := me.saved.locks)
    case RereadSource => if e.from in seen then me.(phase := RollingBack) else me.At(RereadDest)
    case RereadDest => if e.to in seen then me.At(ReleaseRecovered) else me.(phase := RollingBack)
    case ReleaseRecovered => me.(phase := FirstQuery(me.renames, me.phase.entry + 1))
  }

  /** A query the server refuses: inside the try block of the rename it leads to
      the catch block, anywhere else to the outer one, which rolls back. */
  function Refuse1(me: Session): Session
    requires me.Live()
  {
    match me.phase
    case Working(i, LockTable) => me.(phase := Working(i, RollbackToSavepoint))
    case Working(i, MoveName(_)) => me.(phase := Working(i, RollbackToSavepoint))
    case Working(i, ReleaseSavepoint) => me.(phase := Working(i, RollbackToSavepoint))
    case RollingBack => End(me, Failed)
    case _ => me.(phase := RollingBack)
  }

  /** The end of the transaction drops every lock and every uncommitted write. */
  function End(me: Session, outcome: Phase): Session {
    me.(phase := outcome, writes := map[], locks := {}, saved := Saved(map[], {}))
  }

  /** A live session once its next query has been answered. */
  function Answered1(c: Catalog, me: Session): Session
    requires me.Live() && (me.phase.Working? ==> me.InEntry())
  {
    if me.phase.Committing? then End(me, Adopted)
    else if me.phase.RollingBack? then End(me, Failed)
    else Send1(c, me)
  }

  predicate Enabled(s: State, e: Event) {
    e.r < |s.sessions| && s.sessions[e.r].Live() &&
    match e
    case Send(r) => (s.sessions[r].phase.Working? ==> s.sessions[r].InEntry()) && !Blocked(s, r)
    case Refuse(r) => true
    case LoseCommitReply(r) => s.sessions[r].phase.Committing?
  }

  /** One step of the whole system; an event that is not enabled changes nothing. */
  function Step(s: State, e: Event): State {
    if !Enabled(s, e) then s else
    var me := s.sessions[e.r];
    match e
    case Send(r) =>
      State(if me.phase.Committing? then View(s.catalog, me.writes) else s.catalog,
            s.sessions[r := Answered1(s.catalog, me)])
    case Refuse(r) => s.(sessions := s.sessions[r := Refuse1(me)])
    case LoseCommitReply(r) => State(View(s.catalog, me.writes), s.sessions[r := End(me, Failed)])
  }

  function Run(s: State, events: seq<Event>): State
    decreases |events|
  {
    if events == [] then s else Step(Run(s, events[..|events| - 1]), events[|events| - 1])
  }
}
