/** The pull-deposit watcher object (approval-watcher.ts:32-190): the code
    between two awaits updates its maps in place, and each such stretch of code
    is one event of the model. */
module PullApprovalWatcher {
  import opened Chain
  import opened Amounts
  import opened PullWatcher

  class ApprovalWatcher {
    var deposits: seq<PullDeposit>      // in the order in which they were added
    var timers: map<Address, nat>
    var lastSeen: map<Address, nat>
    var inFlight: set<Address>
    // the timers the runtime is running, and the suspended activations
    var intervals: map<nat, Address>
    var nextTimer: nat
    var seedings: seq<Seeding>
    var polls: seq<Poll>
    // the chain, and what has happened so far
    var blocks: Blocks
    var balances: Balances
    var log: Log

    function Now(): State
      reads this
    {
      State(Watch(deposits, timers, intervals, lastSeen, nextTimer), inFlight, seedings, polls, blocks, balances, log)
    }

    constructor (balances: Balances)
      ensures Now() == Start(balances)
    {
      deposits, timers, lastSeen, inFlight, intervals, nextTimer := [], map[], map[], {}, map[], 0;
      seedings, polls := [], [];
      blocks, this.balances, log := Blocks(0, []), balances, Log(map[], [], [], {}, map[], multiset{});
    }

    method HasOpenDepositFor(contract: Address) returns (has: bool)
      ensures has == HasOpenDeposit(deposits, contract)
    {
      var lower := Lower(contract);
      for i := 0 to |deposits|
        invariant forall j :: 0 <= j < i ==> Lower(deposits[j].contract) != lower
      {
        if Lower(deposits[i].contract) == lower { return true; }
      }
      return false;
    }

    method FindMatchingDeposit(contract: Address) returns (found: Match)
      ensures found == FindMatching(deposits, contract)
    {
      found := NoMatch;
      for i := 0 to |deposits|
        invariant found == FindMatching(deposits[..i], contract)
      {
        assert deposits[..i + 1][..i] == deposits[..i];
        if Lower(deposits[i].contract) != Lower(contract) { continue; }
        if found.NoMatch? || deposits[i].createdAt < found.d.createdAt {
          found := Found(deposits[i]);
        }
      }
      assert deposits[..|deposits|] == deposits;
    }

    /** addDeposit, and ensurePolling up to its await. */
    method AddDeposit(deposit: PullDeposit) returns (accepted: bool)
      requires Enabled(Now(), PullWatcher.AddDeposit(deposit))
      modifies this`deposits, this`seedings, this`log
      ensures Now() == Step(old(Now()), PullWatcher.AddDeposit(deposit))
      ensures accepted <==> !HasOpenDeposit(old(deposits), deposit.contract)
    {
      var taken := HasOpenDepositFor(deposit.contract);
      if taken { return false; }
      deposits := deposits + [deposit];
      log := log.(known := log.known[deposit.cid := deposit]);
      if Lower(deposit.contract) !in timers {
        seedings := seedings + [Seeding(deposit.contract, AskHead)];
      }
      return true;
    }

    /** The rest of ensurePolling: seed the cursor and start the timer. */
    method ResumeSeeding(q: nat)
      requires Enabled(Now(), OnSeed(q))
      modifies this
      ensures Now() == Step(old(Now()), OnSeed(q))
    {
      var contract, seed := seedings[q].contract, SeedFrom(seedings[q].at.block);
      log := log.(seeds := RaiseSeed(log.seeds, Lower(contract), seed));
      StartPolling(contract, seed);
      seedings := seedings[q := Seeding(contract, Seeded)];
    }

    method StartPolling(contract: Address, seed: nat)
      modifies this`lastSeen, this`intervals, this`timers, this`nextTimer
      ensures Now() == old(Now()).(watch := SeedWatch(old(Now()).watch, contract, seed))
    {
      var key := Lower(contract);
      lastSeen := lastSeen[key := seed];
      intervals := intervals[nextTimer := contract];
      timers := timers[key := nextTimer];
      nextTimer := nextTimer + 1;
    }

    method Stop(contract: Address)
      modifies this`intervals, this`timers, this`lastSeen
      ensures Now() == old(Now()).(watch := StopPolling(old(Now()).watch, contract))
    {
      var key := Lower(contract);
      if key in timers {
        intervals := intervals - {timers[key]};
      }
      timers := timers - {key};
      lastSeen := lastSeen - {key};
    }

    /** The interval fires: pollOnce up to its first await. */
    method PollOnce(timer: nat)
      requires Enabled(Now(), Tick(timer))
      modifies this`intervals, this`timers, this`lastSeen, this`polls
      ensures Now() == Step(old(Now()), Tick(timer))
    {
      var contract := intervals[timer];
      var key := Lower(contract);
      if key in inFlight { return; }
      var has := HasOpenDepositFor(contract);
      if !has {
        Stop(contract);
        return;
      }
      var cursor := if key in lastSeen then lastSeen[key] else 0;
      polls := polls + [Poll(contract, cursor + 1, 0, [], 0, Head)];
    }

    /** getBlockNumber has answered. */
    method ResumeWithHead(p: nat)
      requires Enabled(Now(), OnHead(p))
      modifies this`polls
      ensures Now() == Step(old(Now()), OnHead(p))
    {
      var latest := polls[p].at.block;
      if latest < polls[p].from {
        polls := polls[p := polls[p].(at := Ended)];
        return;
      }
      polls := polls[p := polls[p].(latest := latest, at := Logs)];
    }

    /** getLogs has answered: nothing, or a batch to go through. */
    method ResumeWithLogs(p: nat)
      requires Enabled(Now(), OnLogs(p))
      modifies this`polls, this`lastSeen, this`inFlight
      ensures Now() == Step(old(Now()), OnLogs(p))
    {
      var key := Lower(polls[p].contract);
      if polls[p].batch == [] {
        lastSeen := lastSeen[key := polls[p].latest];
        polls := polls[p := polls[p].(at := Ended)];
        return;
      }
      inFlight := inFlight + {key};
      polls := polls[p := polls[p].(at := NextLog)];
    }

    /** The head of the loop over the batch: handleApproval up to its first
        await, or the end of the batch, the cursor and the finally clause. */
    method TakeNextLog(p: nat)
      requires Enabled(Now(), OnNextLog(p))
      modifies this`polls, this`lastSeen, this`inFlight, this`log
      ensures Now() == Step(old(Now()), OnNextLog(p))
    {
      var poll := polls[p];
      if poll.next == |poll.batch| {
        lastSeen := lastSeen[Lower(poll.contract) := poll.latest];
        inFlight := inFlight - {Lower(poll.contract)};
        polls := polls[p := poll.(at := Ended)];
        return;
      }
      var found := FindMatchingDeposit(poll.contract);
      if found.NoMatch? {
        FinishLog(p);
        return;
      }
      polls := polls[p := poll.(at := Allowance(found.d))];
    }

    /** handleApproval returns. */
    method FinishLog(p: nat)
      requires At(Now(), p) && polls[p].next < |polls[p].batch|
      modifies this`polls, this`log
      ensures Now() == Handled(old(Now()), p)
    {
      log := log.(handled := log.handled + {polls[p].batch[polls[p].next]});
      polls := polls[p := polls[p].(at := NextLog, next := polls[p].next + 1)];
    }

    /** allowance has answered: compare it with what is desired. */
    method ResumeWithAllowance(p: nat)
      requires Enabled(Now(), OnAllowance(p))
      modifies this`polls, this`inFlight, this`log
      ensures Now() == Step(old(Now()), OnAllowance(p))
    {
      var d, allowance := polls[p].at.d, polls[p].at.allowance;
      if d.expected.Unreadable? {
        inFlight := inFlight - {Lower(polls[p].contract)};
        polls := polls[p := polls[p].(at := Ended)];
        return;
      }
      var desired := Desired(d, LogOf(Now(), p).value);
      if allowance < desired {
        FinishLog(p);
        return;
      }
      polls := polls[p := polls[p].(at := Gas(d, desired))];
    }

    /** ensureGas has returned: submit transferFrom. */
    method ResumeWithGas(p: nat)
      requires Enabled(Now(), OnGas(p))
      modifies this`polls, this`inFlight
      ensures Now() == Step(old(Now()), OnGas(p))
    {
      var d, desired := polls[p].at.d, polls[p].at.desired;
      if desired < 0 {
        inFlight := inFlight - {Lower(polls[p].contract)};
        polls := polls[p := polls[p].(at := Ended)];
        return;
      }
      polls := polls[p := polls[p].(at := Mining(d, desired))];
    }

    /** The receipt has arrived: keep the deposit, or close it and report. */
    method ResumeWithReceipt(p: nat)
      requires Enabled(Now(), OnReceipt(p))
      modifies this
      ensures Now() == Step(old(Now()), OnReceipt(p))
    {
      if polls[p].at.Reverted? {
        FinishLog(p);
      } else {
        CloseAndTell(p);
      }
    }

    method CloseAndTell(p: nat)
      requires At(Now(), p) && polls[p].at.Pulled? && polls[p].at.tx < |log.pulls|
      modifies this
      ensures Now() == DoReceipt(old(Now()), p)
    {
      var d, amount, tx := polls[p].at.d, polls[p].at.amount, polls[p].at.tx;
      deposits := Remove(deposits, d.cid);
      var has := HasOpenDepositFor(polls[p].contract);
      if !has {
        Stop(polls[p].contract);
      }
      log := log.(pulls := log.pulls[tx := log.pulls[tx].(told := true)],
                  reports := log.reports + [Report(d, FormatUnits(amount, d.decimals), tx)]);
      polls := polls[p := polls[p].(at := Callback)];
    }

    /** onPullCompleted has returned. */
    method ResumeAfterCallback(p: nat)
      requires Enabled(Now(), OnCallback(p))
      modifies this`polls, this`log
      ensures Now() == Step(old(Now()), OnCallback(p))
    {
      FinishLog(p);
    }

    /** The awaited call has thrown; within the batch the finally clause runs.
        A transaction that was already sent may still be mined. */
    method ResumeWithError(p: nat)
      requires Enabled(Now(), Fail(p))
      modifies this`polls, this`inFlight, this`log
      ensures Now() == Step(old(Now()), Fail(p))
    {
      var contract, at := polls[p].contract, polls[p].at;
      polls := polls[p := polls[p].(at := if at.Mining? then Abandoned(at.d, at.amount) else Ended)];
      if at.Head? || at.HeadInFlight? || at.Logs? || at.LogsInFlight? { return; }
      inFlight := inFlight - {Lower(contract)};
      if at.Mining? || at.Pulled? {
        log := log.(lost := log.lost + multiset{at.d.cid});
      }
    }
  }
}
