/** The watcher object itself (balance-watcher.ts:20-109): its maps are updated
    in place by the code between two awaits, and each such stretch of code is one
    event of the model. */
module OtaBalanceWatcher {
  import opened Chain
  import opened Amounts
  import opened OtaWatcher

  class BalanceWatcher {
    const gasStation: bool
    var deposits: map<Cid, OtaDeposit>
    var timers: map<Cid, nat>
    var inFlight: set<Cid>
    // the timers the runtime is running, and the suspended activations
    var intervals: map<nat, OtaDeposit>
    var nextTimer: nat
    var polls: seq<Poll>
    // the chain, and what has happened so far
    var tokens: Tokens
    var log: Log

    function Now(): State
      reads this
    {
      State(gasStation, Watch(deposits, timers, intervals, nextTimer), inFlight, polls, tokens, log)
    }

    constructor (gasStation: bool, balances: Balances)
      ensures Now() == Start(gasStation, balances)
    {
      this.gasStation := gasStation;
      deposits, timers, inFlight, intervals, nextTimer, polls := map[], map[], {}, map[], 0, [];
      tokens, log := Tokens(balances, [], {}), Log(map[], [], []);
    }

    method AddDeposit(d: OtaDeposit)
      requires Enabled(Now(), OtaWatcher.AddDeposit(d))
      modifies this
      ensures Now() == Step(old(Now()), OtaWatcher.AddDeposit(d))
    {
      deposits := deposits[d.cid := d];
      intervals := intervals[nextTimer := d];
      timers := timers[d.cid := nextTimer];
      nextTimer := nextTimer + 1;
      log := log.(known := log.known[d.cid := d]);
    }

    method Stop(cid: Cid)
      modifies this`intervals, this`timers, this`deposits, this`inFlight
      ensures Now() == old(Now()).(watch := StopIn(old(Now()).watch, cid), inFlight := old(inFlight) - {cid})
    {
      if cid in timers {
        intervals := intervals - {timers[cid]};
      }
      timers := timers - {cid};
      deposits := deposits - {cid};
      inFlight := inFlight - {cid};
    }

    /** The interval fires: pollOnce runs up to its first await. */
    method PollOnce(timer: nat)
      requires Enabled(Now(), Tick(timer))
      modifies this`polls
      ensures Now() == Step(old(Now()), Tick(timer))
    {
      var d := intervals[timer];
      if d.cid in inFlight { return; }
      if d.cid !in deposits { return; }
      polls := polls + [Poll(d, Balance)];
    }

    /** balanceOf has answered: decide, and start the sweep. */
    method ResumeWithBalance(p: nat)
      requires Enabled(Now(), OnBalance(p))
      modifies this`polls, this`inFlight
      ensures Now() == Step(old(Now()), OnBalance(p))
      ensures var expected, balance := old(polls[p].d.expected), old(polls[p].at.balance);
              polls[p].at == if balance > 0 && gasStation && (expected.Anything? || (expected.Units? && balance >= expected.units))
                             then Gas(balance) else Ended
    {
      var d, balance := polls[p].d, polls[p].at.balance;
      if balance == 0 {
        polls := SetPoll(polls, p, Ended);
        return;
      }
      if d.expected.Unreadable? || (d.expected.Units? && balance < d.expected.units) {
        polls := SetPoll(polls, p, Ended);
        return;
      }
      inFlight := inFlight + {d.cid};
      if !gasStation {
        inFlight := inFlight - {d.cid};
        polls := SetPoll(polls, p, Ended);
        assert old(inFlight) + {d.cid} - {d.cid} == old(inFlight) - {d.cid};
        return;
      }
      polls := SetPoll(polls, p, Gas(balance));
    }

    /** ensureGas has returned: submit the sweep of the balance seen. */
    method ResumeWithGas(p: nat)
      requires Enabled(Now(), OnGas(p))
      modifies this`polls
      ensures Now() == Step(old(Now()), OnGas(p))
    {
      polls := SetPoll(polls, p, Mining(polls[p].at.amount));
    }

    /** The receipt has arrived: close and report, or keep the deposit for a retry. */
    method ResumeWithReceipt(p: nat)
      requires Enabled(Now(), OnReceipt(p))
      modifies this
      ensures Now() == Step(old(Now()), OnReceipt(p))
    {
      var d := polls[p].d;
      if polls[p].at.Reverted? {
        inFlight := inFlight - {d.cid};
        polls := SetPoll(polls, p, Ended);
        return;
      }
      var amount, tx := polls[p].at.amount, polls[p].at.tx;
      Stop(d.cid);
      polls := SetPoll(polls, p, Callback);
      log := Log(log.known, log.sweeps[tx := log.sweeps[tx].(told := true)],
                 log.reports + [Report(d, FormatUnits(amount, d.decimals), tx)]);
    }

    /** onTransferDetected has returned. */
    method ResumeAfterCallback(p: nat)
      requires Enabled(Now(), OnCallback(p))
      modifies this`polls, this`inFlight
      ensures Now() == Step(old(Now()), OnCallback(p))
    {
      inFlight := inFlight - {polls[p].d.cid};
      polls := SetPoll(polls, p, Ended);
    }

    /** The awaited call has thrown; past the try, the finally clause runs. */
    method ResumeWithError(p: nat)
      requires Enabled(Now(), Fail(p))
      modifies this`polls, this`inFlight
      ensures Now() == Step(old(Now()), Fail(p))
    {
      var d, at := polls[p].d, polls[p].at;
      polls := SetPoll(polls, p, if at.Mining? then Abandoned(at.amount) else Ended);
      if !at.Balance? && !at.BalanceInFlight? {
        inFlight := inFlight - {d.cid};
      }
    }
  }
}
