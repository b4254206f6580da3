/** The one-time-address deposit watcher (src/integrations/deposits/ota-deposit/
    balance-watcher.ts) with the chain it polls. Every await ends a step; what
    runs between two awaits is one event. Polls of one deposit may overlap. */
module OtaWatcher {
  import opened Wrappers
  import opened Chain
  import opened Amounts

  datatype Cid = Cid(text: string)

  datatype OtaDeposit = OtaDeposit(cid: Cid, token: Address, decimals: nat, ephemeral: Address, target: Address,
                                   expected: Expectation)

  /** The await an activation of pollOnce is suspended in. `tx` names a confirmed
      sweep by its position in the list of sweeps. */
  datatype Await =
    | Balance
    | BalanceInFlight(balance: nat)
    | Gas(amount: nat)
    | Mining(amount: nat)
    | Reverted(amount: nat)
    | Mined(amount: nat, tx: nat)
    | Callback
    | Abandoned(amount: nat)   // over, but its transaction may yet be mined
    | Ended

  datatype Poll = Poll(d: OtaDeposit, at: Await)

  /** A confirmed sweep, and whether the watcher has told its callback of it. */
  datatype Sweep = Sweep(d: OtaDeposit, amount: nat, told: bool)

  /** One call of onTransferDetected. */
  datatype Report = Report(d: OtaDeposit, receivedAmount: string, tx: nat)

  /** Tokens that reached an address. */
  datatype Inflow = Inflow(token: Address, to: Address, amount: nat)

  /** The watcher's maps; `intervals` are the timers that are running. */
  datatype Watch = Watch(deposits: map<Cid, OtaDeposit>, timers: map<Cid, nat>, intervals: map<nat, OtaDeposit>,
                         nextTimer: nat)

  /** The token balances, everything that ever reached an address, and the
      accounts from which anyone but the watcher has ever paid. */
  datatype Tokens = Tokens(balances: Balances, inflows: seq<Inflow>, payers: set<Account>)

  /** History: every deposit ever added, every sweep and every report. */
  datatype Log = Log(known: map<Cid, OtaDeposit>, sweeps: seq<Sweep>, reports: seq<Report>)

  datatype State = State(gasStation: bool, watch: Watch, inFlight: set<Cid>, polls: seq<Poll>, tokens: Tokens, log: Log)

  datatype Event =
    | AddDeposit(deposit: OtaDeposit)
    | Tick(timer: nat)
    | ServeBalance(p: nat)
    | OnBalance(p: nat)
    | OnGas(p: nat)
    | Mine(p: nat, accepted: bool)
    | OnReceipt(p: nat)
    | OnCallback(p: nat)
    | Fail(p: nat)                        // the awaited call throws
    | Arrive(inflow: Inflow)
    | Spend(token: Address, from: Address, to: Address, amount: nat)

  function Start(gasStation: bool, balances: Balances): State {
    State(gasStation, Watch(map[], map[], map[], 0), {}, [], Tokens(balances, [], {}), Log(map[], [], []))
  }

  function SetPoll(polls: seq<Poll>, p: nat, at: Await): seq<Poll>
    requires p < |polls|
  {
    polls[p := Poll(polls[p].d, at)]
  }

  function Put(s: State, p: nat, at: Await): State
    requires p < |s.polls|
  {
    s.(polls := SetPoll(s.polls, p, at))
  }

  /** Leaves the try block: the finally clause runs. */
  function Leave(s: State, p: nat, at: Await): State
    requires p < |s.polls|
  {
    s.(polls := SetPoll(s.polls, p, at), inFlight := s.inFlight - {s.polls[p].d.cid})
  }

  function AddTo(w: Watch, d: OtaDeposit): Watch {
    Watch(w.deposits[d.cid := d], w.timers[d.cid := w.nextTimer], w.intervals[w.nextTimer := d], w.nextTimer + 1)
  }

  /** stop(correlationId), but for the inFlight entry. */
  function StopIn(w: Watch, cid: Cid): Watch {
    Watch(w.deposits - {cid}, w.timers - {cid},
          if cid in w.timers then w.intervals - {w.timers[cid]} else w.intervals, w.nextTimer)
  }

  function DoTick(s: State, timer: nat): State
    requires timer in s.watch.intervals
  {
    var d := s.watch.intervals[timer];
    if d.cid in s.inFlight || d.cid !in s.watch.deposits then s
    else s.(polls := s.polls + [Poll(d, Balance)])
  }

  function DoServe(s: State, p: nat): State
    requires p < |s.polls|
  {
    Put(s, p, BalanceInFlight(BalanceOf(s.tokens.balances, s.polls[p].d.token, s.polls[p].d.ephemeral)))
  }

  function DoBalance(s: State, p: nat): State
    requires p < |s.polls| && s.polls[p].at.BalanceInFlight?
  {
    var d, balance := s.polls[p].d, s.polls[p].at.balance;
    if balance == 0 || !Satisfies(d.expected, balance) then Put(s, p, Ended)
    else if !s.gasStation then Leave(s, p, Ended)
    else s.(polls := SetPoll(s.polls, p, Gas(balance)), inFlight := s.inFlight + {d.cid})
  }

  predicate InMempool(s: State, p: nat) {
    p < |s.polls| && (s.polls[p].at.Mining? || s.polls[p].at.Abandoned?)
  }

  function DoMine(s: State, p: nat, accepted: bool): State
    requires InMempool(s, p)
  {
    var d, amount := s.polls[p].d, s.polls[p].at.amount;
    var over := s.polls[p].at.Abandoned?;
    if accepted && amount <= BalanceOf(s.tokens.balances, d.token, d.ephemeral) then
      s.(polls := SetPoll(s.polls, p, if over then Ended else Mined(amount, |s.log.sweeps|)),
         tokens := s.tokens.(balances := Transfer(s.tokens.balances, d.token, d.ephemeral, d.target, amount),
                             inflows := s.tokens.inflows + [Inflow(d.token, d.target, amount)]),
         log := s.log.(sweeps := s.log.sweeps + [Sweep(d, amount, false)]))
    else Put(s, p, if over then Ended else Reverted(amount))
  }

  function DoReceipt(s: State, p: nat): State
    requires p < |s.polls| && s.polls[p].at.Mined? && s.polls[p].at.tx < |s.log.sweeps|
  {
    var d, tx := s.polls[p].d, s.polls[p].at.tx;
    State(s.gasStation, StopIn(s.watch, d.cid), s.inFlight - {d.cid}, SetPoll(s.polls, p, Callback), s.tokens,
          Log(s.log.known,
              s.log.sweeps[tx := s.log.sweeps[tx].(told := true)],
              s.log.reports + [Report(d, FormatUnits(s.polls[p].at.amount, d.decimals), tx)]))
  }

  /** The awaited call throws. Reading the balance comes before the try block,
      everything else is inside. */
  function DoFail(s: State, p: nat): State
    requires p < |s.polls|
  {
    match s.polls[p].at
    case Balance => Put(s, p, Ended)
    case BalanceInFlight(_) => Put(s, p, Ended)
    case Mining(amount) => Leave(s, p, Abandoned(amount))
    case _ => Leave(s, p, Ended)
  }

  function DoSpend(s: State, token: Address, from: Address, to: Address, amount: nat): State
    requires amount <= BalanceOf(s.tokens.balances, token, from)
  {
    s.(tokens := Tokens(Transfer(s.tokens.balances, token, from, to, amount),
                        s.tokens.inflows + [Inflow(token, to, amount)],
                        s.tokens.payers + {Account(token, from)}))
  }

  /** A one-time address belongs to some deposit, past or present. */
  predicate IsEphemeral(known: map<Cid, OtaDeposit>, token: Address, holder: Address) {
    exists cid :: cid in known && known[cid].token == token && known[cid].ephemeral == holder
  }

  predicate At(s: State, p: nat) { p < |s.polls| }

  predicate Enabled(s: State, e: Event) {
    match e
    // generateCid never repeats, and the address is freshly provisioned
    case AddDeposit(d) => d.cid !in s.log.known && Account(d.token, d.ephemeral) !in s.tokens.payers
    case Tick(timer) => timer in s.watch.intervals
    case ServeBalance(p) => At(s, p) && s.polls[p].at.Balance?
    case OnBalance(p) => At(s, p) && s.polls[p].at.BalanceInFlight?
    case OnGas(p) => At(s, p) && s.polls[p].at.Gas?
    case Mine(p, _) => InMempool(s, p)
    case OnReceipt(p) => At(s, p) && (s.polls[p].at.Reverted? || (s.polls[p].at.Mined? && s.polls[p].at.tx < |s.log.sweeps|))
    case OnCallback(p) => At(s, p) && s.polls[p].at.Callback?
    case Fail(p) => At(s, p) && !s.polls[p].at.Ended? && !s.polls[p].at.Abandoned?
    case Arrive(inflow) => true
    case Spend(token, from, _, amount) =>
      !IsEphemeral(s.log.known, token, from) && amount <= BalanceOf(s.tokens.balances, token, from)
  }

  /** One event; an event that is not enabled changes nothing. */
  function Step(s: State, e: Event): State {
    if !Enabled(s, e) then s else
    match e
    case AddDeposit(d) => s.(watch := AddTo(s.watch, d), log := s.log.(known := s.log.known[d.cid := d]))
    case Tick(timer) => DoTick(s, timer)
    case ServeBalance(p) => DoServe(s, p)
    case OnBalance(p) => DoBalance(s, p)
    case OnGas(p) => Put(s, p, Mining(s.polls[p].at.amount))
    case Mine(p, accepted) => DoMine(s, p, accepted)
    case OnReceipt(p) => if s.polls[p].at.Reverted? then Leave(s, p, Ended) else DoReceipt(s, p)
    case OnCallback(p) => Leave(s, p, Ended)
    case Fail(p) => DoFail(s, p)
    case Arrive(inflow) =>
      s.(tokens := s.tokens.(balances := Credit(s.tokens.balances, inflow.token, inflow.to, inflow.amount),
                             inflows := s.tokens.inflows + [inflow]))
    case Spend(token, from, to, amount) => DoSpend(s, token, from, to, amount)
  }

  function Run(s: State, events: seq<Event>): State
    decreases |events|
  {
    if events == [] then s else Step(Run(s, events[..|events| - 1]), events[|events| - 1])
  }

  /* ---- the promises ---- */

  function SweptOf(sweeps: seq<Sweep>, d: OtaDeposit): nat {
    if sweeps == [] then 0 else
    var last := sweeps[|sweeps| - 1];
    SweptOf(sweeps[..|sweeps| - 1], d) + if last.d == d then last.amount else 0
  }

  function ToldOf(sweeps: seq<Sweep>, d: OtaDeposit): nat {
    if sweeps == [] then 0 else
    var last := sweeps[|sweeps| - 1];
    ToldOf(sweeps[..|sweeps| - 1], d) + if last.d == d && last.told then last.amount else 0
  }

  /** What a report says in base units, as any reader of the text computes it. */
  function ReportedUnits(r: Report): int {
    match ParseUnits(r.receivedAmount, r.d.decimals)
    case Ok(units) => units
    case Err(_) => 0
  }

  function ReportedOf(reports: seq<Report>, d: OtaDeposit): int {
    if reports == [] then 0 else
    var last := reports[|reports| - 1];
    ReportedOf(reports[..|reports| - 1], d) + if last.d == d then ReportedUnits(last) else 0
  }

  function SentTo(inflows: seq<Inflow>, token: Address, to: Address): nat {
    if inflows == [] then 0 else
    var last := inflows[|inflows| - 1];
    SentTo(inflows[..|inflows| - 1], token, to) + if last.token == token && last.to == to then last.amount else 0
  }

  function SweptFrom(sweeps: seq<Sweep>, token: Address, from: Address): nat {
    if sweeps == [] then 0 else
    var last := sweeps[|sweeps| - 1];
    SweptFrom(sweeps[..|sweeps| - 1], token, from) +
    if last.d.token == token && last.d.ephemeral == from then last.amount else 0
  }
}
