/** The pull-deposit watcher (src/integrations/deposits/pull-deposit/
    approval-watcher.ts) with the chain it polls. Every await ends a step; what
    runs between two awaits is one event. Polls of one contract may overlap. */
module PullWatcher {
  import opened Wrappers
  import opened Chain
  import opened Amounts

  datatype Cid = Cid(text: string)

  datatype PullDeposit = PullDeposit(cid: Cid, contract: Address, decimals: nat, destination: Address,
                                     expected: Expectation, createdAt: int)

  /** An Approval(owner, operator) event. `contract` is the emitting contract in
      lower case, the form under which the watcher keeps its books. */
  datatype Approval = Approval(contract: Address, block: nat, owner: Address, value: nat)

  /** The blocks so far: the last block number and all approvals, oldest first. */
  datatype Blocks = Blocks(head: nat, logs: seq<Approval>)

  /** The await an activation of ensurePolling, or of pollOnce, is suspended in. */
  datatype SeedAwait = AskHead | HeadSeen(block: nat) | Seeded
  datatype Seeding = Seeding(contract: Address, at: SeedAwait)

  datatype Await =
    | Head
    | HeadInFlight(block: nat)
    | Logs
    | LogsInFlight
    | NextLog
    | Allowance(d: PullDeposit)
    | AllowanceInFlight(d: PullDeposit, allowance: nat)
    | Gas(d: PullDeposit, desired: int)
    | Mining(d: PullDeposit, amount: nat)
    | Reverted
    | Pulled(d: PullDeposit, amount: nat, tx: nat)
    | Callback
    | Abandoned(d: PullDeposit, amount: nat)   // over, but its transaction may yet be mined
    | Ended

  /** `batch` holds the positions of the logs fetched, `next` the one in hand. */
  datatype Poll = Poll(contract: Address, from: nat, latest: nat, batch: seq<nat>, next: nat, at: Await)

  /** A confirmed transferFrom, and whether the callback has been told of it. */
  datatype Pull = Pull(d: PullDeposit, owner: Address, amount: nat, told: bool)

  /** One call of onPullCompleted. */
  datatype Report = Report(d: PullDeposit, amount: string, tx: nat)

  /** The watcher's maps; `deposits` in insertion order, `intervals` the running timers. */
  datatype Watch = Watch(deposits: seq<PullDeposit>, timers: map<Address, nat>, intervals: map<nat, Address>,
                         lastSeen: map<Address, nat>, nextTimer: nat)

  /** History: deposits ever added, confirmed pulls, reports, logs handled
      without a throw, the highest seed installed per contract, and the deposits
      whose transaction the watcher lost sight of, once per loss. */
  datatype Log = Log(known: map<Cid, PullDeposit>, pulls: seq<Pull>, reports: seq<Report>, handled: set<nat>,
                     seeds: map<Address, nat>, lost: multiset<Cid>)

  datatype State = State(watch: Watch, inFlight: set<Address>, seedings: seq<Seeding>, polls: seq<Poll>,
                         blocks: Blocks, balances: Balances, log: Log)

  datatype Event =
    | AddDeposit(deposit: PullDeposit)
    | ServeSeed(q: nat)
    | OnSeed(q: nat)
    | FailSeed(q: nat)
    | Tick(timer: nat)
    | ServeHead(p: nat)
    | OnHead(p: nat)
    | ServeLogs(p: nat)
    | OnLogs(p: nat)
    | OnNextLog(p: nat)
    | ServeAllowance(p: nat, value: nat)
    | OnAllowance(p: nat)
    | OnGas(p: nat)
    | Mine(p: nat, accepted: bool)
    | OnReceipt(p: nat)
    | OnCallback(p: nat)
    | Fail(p: nat)                             // the awaited call throws
    | NewBlock(logs: seq<Approval>)
    | Move(token: Address, from: Address, to: Address, amount: nat)

  function Start(balances: Balances): State {
    State(Watch([], map[], map[], map[], 0), {}, [], [], Blocks(0, []), balances, Log(map[], [], [], {}, map[], multiset{}))
  }

  /* ---- the watcher's own helpers ---- */

  predicate HasOpenDeposit(deposits: seq<PullDeposit>, contract: Address) {
    exists i :: 0 <= i < |deposits| && Lower(deposits[i].contract) == Lower(contract)
  }

  datatype Match = NoMatch | Found(d: PullDeposit)

  /** The oldest open deposit on the contract, the earlier entry on a tie. */
  function FindMatching(deposits: seq<PullDeposit>, contract: Address): Match {
    if deposits == [] then NoMatch else
    var best := FindMatching(deposits[..|deposits| - 1], contract);
    var last := deposits[|deposits| - 1];
    if Lower(last.contract) != Lower(contract) then best
    else if best.NoMatch? || last.createdAt < best.d.createdAt then Found(last)
    else best
  }

  function Remove(deposits: seq<PullDeposit>, cid: Cid): seq<PullDeposit> {
    if deposits == [] then [] else
    var last := deposits[|deposits| - 1];
    Remove(deposits[..|deposits| - 1], cid) + if last.cid == cid then [] else [last]
  }

  function SeedFrom(block: nat): nat { if block == 0 then 0 else block - 1 }

  function StopPolling(w: Watch, contract: Address): Watch {
    var key := Lower(contract);
    Watch(w.deposits, w.timers - {key},
          if key in w.timers then w.intervals - {w.timers[key]} else w.intervals,
          w.lastSeen - {key}, w.nextTimer)
  }

  /** A log of contract `key` in blocks from..to, as eth_getLogs matches it. */
  predicate Matches(log: Approval, key: Address, from: nat, to: nat) {
    log.contract == key && from <= log.block <= to
  }

  /** The positions of the matching logs, in order. */
  function Matching(logs: seq<Approval>, key: Address, from: nat, to: nat): (r: seq<nat>)
    ensures forall i :: i in r <==> 0 <= i < |logs| && Matches(logs[i], key, from, to)
  {
    if logs == [] then [] else
    var n := |logs| - 1;
    Matching(logs[..n], key, from, to) + if Matches(logs[n], key, from, to) then [n] else []
  }

  /** Base units to pull: what was announced, else what the event says. */
  function Desired(d: PullDeposit, eventValue: nat): int
    requires !d.expected.Unreadable?
  {
    if d.expected.Units? then d.expected.units else eventValue
  }

  /* ---- the steps ---- */

  predicate At(s: State, p: nat) { p < |s.polls| }

  function Put(s: State, p: nat, at: Await): State
    requires At(s, p)
  {
    s.(polls := s.polls[p := s.polls[p].(at := at)])
  }

  /** Leaves the try block: the finally clause runs. */
  function Leave(s: State, p: nat, at: Await): State
    requires At(s, p)
  {
    s.(polls := s.polls[p := s.polls[p].(at := at)], inFlight := s.inFlight - {Lower(s.polls[p].contract)})
  }

  /** handleApproval has returned without a throw: on to the next log. */
  function Handled(s: State, p: nat): State
    requires At(s, p) && s.polls[p].next < |s.polls[p].batch|
  {
    s.(polls := s.polls[p := s.polls[p].(at := NextLog, next := s.polls[p].next + 1)],
       log := s.log.(handled := s.log.handled + {s.polls[p].batch[s.polls[p].next]}))
  }

  function SetCursor(w: Watch, contract: Address, block: nat): Watch {
    w.(lastSeen := w.lastSeen[Lower(contract) := block])
  }

  function DoAdd(s: State, d: PullDeposit): State {
    if HasOpenDeposit(s.watch.deposits, d.contract) then s   // addDeposit throws
    else
      s.(watch := s.watch.(deposits := s.watch.deposits + [d]),
         log := s.log.(known := s.log.known[d.cid := d]),
         seedings := if Lower(d.contract) in s.watch.timers then s.seedings
                     else s.seedings + [Seeding(d.contract, AskHead)])
  }

  function SeedWatch(w: Watch, contract: Address, seed: nat): Watch {
    var key := Lower(contract);
    Watch(w.deposits, w.timers[key := w.nextTimer], w.intervals[w.nextTimer := contract],
          w.lastSeen[key := seed], w.nextTimer + 1)
  }

  function RaiseSeed(seeds: map<Address, nat>, key: Address, seed: nat): map<Address, nat> {
    seeds[key := if key in seeds && seeds[key] > seed then seeds[key] else seed]
  }

  function DoSeed(s: State, q: nat): State
    requires q < |s.seedings| && s.seedings[q].at.HeadSeen?
  {
    var contract, seed := s.seedings[q].contract, SeedFrom(s.seedings[q].at.block);
    s.(seedings := s.seedings[q := Seeding(contract, Seeded)],
       watch := SeedWatch(s.watch, contract, seed),
       log := s.log.(seeds := RaiseSeed(s.log.seeds, Lower(contract), seed)))
  }

  function DoTick(s: State, timer: nat): State
    requires timer in s.watch.intervals
  {
    var contract := s.watch.intervals[timer];
    var key := Lower(contract);
    if key in s.inFlight then s
    else if !HasOpenDeposit(s.watch.deposits, contract) then s.(watch := StopPolling(s.watch, contract))
    else
      var cursor := if key in s.watch.lastSeen then s.watch.lastSeen[key] else 0;
      s.(polls := s.polls + [Poll(contract, cursor + 1, 0, [], 0, Head)])
  }

  function DoHead(s: State, p: nat): State
    requires At(s, p) && s.polls[p].at.HeadInFlight?
  {
    var block := s.polls[p].at.block;
    if block < s.polls[p].from then Put(s, p, Ended)
    else s.(polls := s.polls[p := s.polls[p].(latest := block, at := Logs)])
  }

  function DoServeLogs(s: State, p: nat): State
    requires At(s, p)
  {
    var poll := s.polls[p];
    s.(polls := s.polls[p := poll.(batch := Matching(s.blocks.logs, Lower(poll.contract), poll.from, poll.latest),
                                   at := LogsInFlight)])
  }

  function DoLogs(s: State, p: nat): State
    requires At(s, p)
  {
    var poll := s.polls[p];
    if poll.batch == [] then Put(s, p, Ended).(watch := SetCursor(s.watch, poll.contract, poll.latest))
    else Put(s, p, NextLog).(inFlight := s.inFlight + {Lower(poll.contract)})
  }

  function DoNextLog(s: State, p: nat): State
    requires At(s, p) && s.polls[p].next <= |s.polls[p].batch|
  {
    var poll := s.polls[p];
    if poll.next == |poll.batch| then Leave(s, p, Ended).(watch := SetCursor(s.watch, poll.contract, poll.latest))
    else match FindMatching(s.watch.deposits, poll.contract)
         case NoMatch => Handled(s, p)
         case Found(d) => Put(s, p, Allowance(d))
  }

  predicate LogInHand(s: State, p: nat) {
    At(s, p) && s.polls[p].next < |s.polls[p].batch| && s.polls[p].batch[s.polls[p].next] < |s.blocks.logs|
  }

  function LogOf(s: State, p: nat): Approval
    requires LogInHand(s, p)
  {
    s.blocks.logs[s.polls[p].batch[s.polls[p].next]]
  }

  function DoAllowance(s: State, p: nat): State
    requires LogInHand(s, p) && s.polls[p].at.AllowanceInFlight?
  {
    var d := s.polls[p].at.d;
    if d.expected.Unreadable? then Leave(s, p, Ended)
    else if s.polls[p].at.allowance < Desired(d, LogOf(s, p).value) then Handled(s, p)
    else Put(s, p, Gas(d, Desired(d, LogOf(s, p).value)))
  }

  /** ensureGas, if there is a gas station, then transferFrom; a negative amount
      cannot be encoded and throws. */
  function DoGas(s: State, p: nat): State
    requires At(s, p) && s.polls[p].at.Gas?
  {
    if s.polls[p].at.desired < 0 then Leave(s, p, Ended)
    else Put(s, p, Mining(s.polls[p].at.d, s.polls[p].at.desired))
  }

  predicate InMempool(s: State, p: nat) {
    LogInHand(s, p) && (s.polls[p].at.Mining? || s.polls[p].at.Abandoned?)
  }

  function DoMine(s: State, p: nat, accepted: bool): State
    requires InMempool(s, p)
  {
    var d, amount, owner := s.polls[p].at.d, s.polls[p].at.amount, LogOf(s, p).owner;
    var token, over := Lower(d.contract), s.polls[p].at.Abandoned?;
    if accepted && amount <= BalanceOf(s.balances, token, owner) then
      Put(s, p, if over then Ended else Pulled(d, amount, |s.log.pulls|))
        .(balances := Transfer(s.balances, token, owner, d.destination, amount),
          log := s.log.(pulls := s.log.pulls + [Pull(d, owner, amount, false)]))
    else Put(s, p, if over then Ended else Reverted)
  }

  /** deposits.delete, stopPolling if nothing is left on the contract, and the callback. */
  function DoReceipt(s: State, p: nat): State
    requires At(s, p) && s.polls[p].at.Pulled? && s.polls[p].at.tx < |s.log.pulls|
  {
    var d, amount, tx := s.polls[p].at.d, s.polls[p].at.amount, s.polls[p].at.tx;
    var left := s.watch.(deposits := Remove(s.watch.deposits, d.cid));
    Put(s, p, Callback)
      .(watch := if HasOpenDeposit(left.deposits, s.polls[p].contract) then left else StopPolling(left, s.polls[p].contract),
        log := s.log.(pulls := s.log.pulls[tx := s.log.pulls[tx].(told := true)],
                      reports := s.log.reports + [Report(d, FormatUnits(amount, d.decimals), tx)]))
  }

  function Lose(s: State, cid: Cid): State {
    s.(log := s.log.(lost := s.log.lost + multiset{cid}))
  }

  /** The awaited call throws: before the batch outside the try block, then inside. */
  function DoFail(s: State, p: nat): State
    requires At(s, p)
  {
    match s.polls[p].at
    case Head => Put(s, p, Ended)
    case HeadInFlight(_) => Put(s, p, Ended)
    case Logs => Put(s, p, Ended)
    case LogsInFlight => Put(s, p, Ended)
    case Mining(d, amount) => Lose(Leave(s, p, Abandoned(d, amount)), d.cid)
    case Pulled(d, _, _) => Lose(Leave(s, p, Ended), d.cid)
    case _ => Leave(s, p, Ended)
  }

  predicate Enabled(s: State, e: Event) {
    match e
    case AddDeposit(d) => d.cid !in s.log.known   // generateCid never repeats
    case ServeSeed(q) => q < |s.seedings| && s.seedings[q].at.AskHead?
    case OnSeed(q) => q < |s.seedings| && s.seedings[q].at.HeadSeen?
    case FailSeed(q) => q < |s.seedings| && !s.seedings[q].at.Seeded?
    case Tick(timer) => timer in s.watch.intervals
    case ServeHead(p) => At(s, p) && s.polls[p].at.Head?
    case OnHead(p) => At(s, p) && s.polls[p].at.HeadInFlight?
    case ServeLogs(p) => At(s, p) && s.polls[p].at.Logs?
    case OnLogs(p) => At(s, p) && s.polls[p].at.LogsInFlight?
    case OnNextLog(p) => At(s, p) && s.polls[p].at.NextLog? && s.polls[p].next <= |s.polls[p].batch|
    case ServeAllowance(p, _) => At(s, p) && s.polls[p].at.Allowance?
    case OnAllowance(p) => LogInHand(s, p) && s.polls[p].at.AllowanceInFlight?
    case OnGas(p) => At(s, p) && s.polls[p].at.Gas?
    case Mine(p, _) => InMempool(s, p)
    case OnReceipt(p) => LogInHand(s, p) && (s.polls[p].at.Reverted? || (s.polls[p].at.Pulled? && s.polls[p].at.tx < |s.log.pulls|))
    case OnCallback(p) => LogInHand(s, p) && s.polls[p].at.Callback?
    case Fail(p) => At(s, p) && !s.polls[p].at.Ended? && !s.polls[p].at.Abandoned? && !s.polls[p].at.NextLog?
    case NewBlock(logs) => forall i :: 0 <= i < |logs| ==> logs[i].block == s.blocks.head + 1
    case Move(token, from, _, amount) => amount <= BalanceOf(s.balances, token, from)
  }

  /** One event; an event that is not enabled changes nothing. */
  function Step(s: State, e: Event): State {
    if !Enabled(s, e) then s else
    match e
    case AddDeposit(d) => DoAdd(s, d)
    case ServeSeed(q) => s.(seedings := s.seedings[q := Seeding(s.seedings[q].contract, HeadSeen(s.blocks.head))])
    case OnSeed(q) => DoSeed(s, q)
    case FailSeed(q) => s.(seedings := s.seedings[q := Seeding(s.seedings[q].contract, Seeded)])
    case Tick(timer) => DoTick(s, timer)
    case ServeHead(p) => Put(s, p, HeadInFlight(s.blocks.head))
    case OnHead(p) => DoHead(s, p)
    case ServeLogs(p) => DoServeLogs(s, p)
    case OnLogs(p) => DoLogs(s, p)
    case OnNextLog(p) => DoNextLog(s, p)
    case ServeAllowance(p, value) => Put(s, p, AllowanceInFlight(s.polls[p].at.d, value))
    case OnAllowance(p) => DoAllowance(s, p)
    case OnGas(p) => DoGas(s, p)
    case Mine(p, accepted) => DoMine(s, p, accepted)
    case OnReceipt(p) => if s.polls[p].at.Reverted? then Handled(s, p) else DoReceipt(s, p)
    case OnCallback(p) => Handled(s, p)
    case Fail(p) => DoFail(s, p)
    case NewBlock(logs) => s.(blocks := Blocks(s.blocks.head + 1, s.blocks.logs + logs))
    case Move(token, from, to, amount) => s.(balances := Transfer(s.balances, token, from, to, amount))
  }

  function Run(s: State, events: seq<Event>): State
    decreases |events|
  {
    if events == [] then s else Step(Run(s, events[..|events| - 1]), events[|events| - 1])
  }

  /* ---- totals ---- */

  predicate BoundFor(d: PullDeposit, token: Address, destination: Address) {
    Lower(d.contract) == token && d.destination == destination
  }

  function ReportedUnits(r: Report): int {
    match ParseUnits(r.amount, r.d.decimals)
    case Ok(units) => units
    case Err(_) => 0
  }

  /** The base units reported for deposits to one destination. */
  function ReportedTo(reports: seq<Report>, token: Address, destination: Address): int {
    if reports == [] then 0 else
    var last := reports[|reports| - 1];
    ReportedTo(reports[..|reports| - 1], token, destination) +
    if BoundFor(last.d, token, destination) then ReportedUnits(last) else 0
  }

  /** The base units pulled to one destination, or those of them the callback was told of. */
  function PulledTo(pulls: seq<Pull>, token: Address, destination: Address, toldOnly: bool): nat {
    if pulls == [] then 0 else
    var last := pulls[|pulls| - 1];
    PulledTo(pulls[..|pulls| - 1], token, destination, toldOnly) +
    if BoundFor(last.d, token, destination) && (last.told || !toldOnly) then last.amount else 0
  }

  /** How many transfers were confirmed for a deposit, and how many were told. */
  function PullCount(pulls: seq<Pull>, cid: Cid, toldOnly: bool): nat {
    if pulls == [] then 0 else
    var last := pulls[|pulls| - 1];
    PullCount(pulls[..|pulls| - 1], cid, toldOnly) + if last.d.cid == cid && (last.told || !toldOnly) then 1 else 0
  }
}
