/** The block cursor of the pull-deposit watcher: under every interleaving no
    Approval log between the seed and the cursor has been skipped. */
module PullCoverage {
  import opened Chain
  import opened PullWatcher

  /** Every log of contract `key` in the blocks after `lo` up to `hi` has been
      handled without a throw, and no such log can still appear. */
  ghost predicate Covered(b: Blocks, handled: set<nat>, key: Address, lo: nat, hi: nat) {
    hi <= b.head && forall i :: 0 <= i < |b.logs| && b.logs[i].contract == key && lo < b.logs[i].block <= hi ==> i in handled
  }

  ghost predicate CoveredFrom(s: State, key: Address, hi: nat) {
    key in s.log.seeds && Covered(s.blocks, s.log.handled, key, s.log.seeds[key], hi)
  }

  predicate Over(at: Await) { at.Ended? || at.Abandoned? }
  predicate HasRange(at: Await) { !Over(at) && !at.Head? && !at.HeadInFlight? }
  predicate HasBatch(at: Await) { HasRange(at) && !at.Logs? }
  predicate HasLog(at: Await) { HasBatch(at) && !at.LogsInFlight? && !at.NextLog? }

  /** The batch is the logs of its block range, those before `next` handled. */
  ghost predicate BatchOk(b: Blocks, handled: set<nat>, poll: Poll) {
    && poll.next <= |poll.batch|
    && (forall i :: 0 <= i < |b.logs| && Matches(b.logs[i], Lower(poll.contract), poll.from, poll.latest) ==> i in poll.batch)
    && (forall k :: 0 <= k < poll.next ==> poll.batch[k] in handled)
  }

  ghost predicate PollCov(s: State, poll: Poll) {
    && (!Over(poll.at) ==> poll.from > 0 && CoveredFrom(s, Lower(poll.contract), poll.from - 1))
    && (poll.at.HeadInFlight? ==> poll.at.block <= s.blocks.head)
    && (HasRange(poll.at) ==> poll.from <= poll.latest <= s.blocks.head)
    && (HasBatch(poll.at) ==> BatchOk(s.blocks, s.log.handled, poll))
    && (HasLog(poll.at) ==> poll.next < |poll.batch|)
  }

  ghost predicate CovInv(s: State) {
    && (forall i :: 0 <= i < |s.blocks.logs| ==> s.blocks.logs[i].block <= s.blocks.head)
    && (forall key :: key in s.watch.lastSeen ==> CoveredFrom(s, key, s.watch.lastSeen[key]))
    && (forall t :: t in s.watch.intervals ==> Lower(s.watch.intervals[t]) in s.log.seeds)
    && (forall q :: 0 <= q < |s.seedings| && s.seedings[q].at.HeadSeen? ==> s.seedings[q].at.block <= s.blocks.head)
    && (forall p :: 0 <= p < |s.polls| ==> PollCov(s, s.polls[p]))
  }

  /** Nothing already covered is uncovered: logs only appear in new blocks,
      handled logs stay handled, and seeds only rise. */
  ghost predicate Grows(s: State, s': State) {
    && s.blocks.head <= s'.blocks.head && s.blocks.logs <= s'.blocks.logs
    && (forall i :: |s.blocks.logs| <= i < |s'.blocks.logs| ==> s.blocks.head < s'.blocks.logs[i].block <= s'.blocks.head)
    && s.log.handled <= s'.log.handled
    && (forall key :: key in s.log.seeds ==> key in s'.log.seeds && s.log.seeds[key] <= s'.log.seeds[key])
  }

  lemma StillCovered(s: State, s': State, key: Address, hi: nat)
    requires Grows(s, s') && CoveredFrom(s, key, hi)
    ensures CoveredFrom(s', key, hi)
  {
  }

  lemma PollStillCov(s: State, s': State, poll: Poll)
    requires Grows(s, s') && PollCov(s, poll)
    ensures PollCov(s', poll)
  {
    if !Over(poll.at) {
      StillCovered(s, s', Lower(poll.contract), poll.from - 1);
    }
  }

  /** A whole batch handled extends the cover to the end of its range. */
  lemma BatchExtends(s: State, poll: Poll)
    requires PollCov(s, poll) && HasBatch(poll.at) && poll.next == |poll.batch|
    ensures CoveredFrom(s, Lower(poll.contract), poll.latest)
  {
    var key := Lower(poll.contract);
    forall i | 0 <= i < |s.blocks.logs| && s.blocks.logs[i].contract == key && s.log.seeds[key] < s.blocks.logs[i].block <= poll.latest
      ensures i in s.log.handled
    {
      if s.blocks.logs[i].block >= poll.from {
        assert Matches(s.blocks.logs[i], key, poll.from, poll.latest);
        var k :| 0 <= k < |poll.batch| && poll.batch[k] == i;
      }
    }
  }

  /** A step of one poll: it grows the cover, and leaves the others alone. */
  ghost predicate PollSteps(s: State, s': State, p: nat) {
    && Grows(s, s') && At(s, p) && s'.blocks == s.blocks && s'.seedings == s.seedings
    && |s'.polls| == |s.polls| && (forall q :: 0 <= q < |s.polls| && q != p ==> s'.polls[q] == s.polls[q])
    && PollCov(s', s'.polls[p])
    && (forall t :: t in s'.watch.intervals ==> t in s.watch.intervals && s'.watch.intervals[t] == s.watch.intervals[t])
    && (forall key :: key in s'.watch.lastSeen ==>
          (key in s.watch.lastSeen && s'.watch.lastSeen[key] == s.watch.lastSeen[key]) || CoveredFrom(s', key, s'.watch.lastSeen[key]))
  }

  lemma PollStepKeeps(s: State, s': State, p: nat)
    requires CovInv(s) && PollSteps(s, s', p)
    ensures CovInv(s')
  {
    forall key | key in s'.watch.lastSeen ensures CoveredFrom(s', key, s'.watch.lastSeen[key]) {
      if key in s.watch.lastSeen {
        StillCovered(s, s', key, s.watch.lastSeen[key]);
      }
    }
    forall q | 0 <= q < |s'.polls| ensures PollCov(s', s'.polls[q]) {
      if q != p {
        PollStillCov(s, s', s.polls[q]);
      }
    }
  }

  lemma HandledSteps(s: State, p: nat)
    requires At(s, p) && PollCov(s, s.polls[p]) && HasBatch(s.polls[p].at) && s.polls[p].next < |s.polls[p].batch|
    ensures PollSteps(s, Handled(s, p), p)
  {
    PollStillCov(s, Handled(s, p), s.polls[p]);
  }

  /** The poll moves on without handling a log or touching the cursor. */
  lemma MovesOn(s: State, s': State, p: nat)
    requires At(s, p) && s'.blocks == s.blocks && s'.seedings == s.seedings && s'.watch == s.watch
    requires s'.log.handled == s.log.handled && s'.log.seeds == s.log.seeds
    requires |s'.polls| == |s.polls| && (forall q :: 0 <= q < |s.polls| && q != p ==> s'.polls[q] == s.polls[q])
    requires PollCov(s, s'.polls[p])
    ensures PollSteps(s, s', p)
  {
    PollStillCov(s, s', s'.polls[p]);
  }

  lemma HeadSteps(s: State, p: nat)
    requires At(s, p) && s.polls[p].at.HeadInFlight? && PollCov(s, s.polls[p])
    ensures PollSteps(s, DoHead(s, p), p)
  {
    MovesOn(s, DoHead(s, p), p);
  }

  lemma ServeLogsSteps(s: State, p: nat)
    requires At(s, p) && s.polls[p].at.Logs? && PollCov(s, s.polls[p]) && s.polls[p].next == 0
    ensures PollSteps(s, DoServeLogs(s, p), p)
  {
    MovesOn(s, DoServeLogs(s, p), p);
  }

  lemma LogsSteps(s: State, p: nat)
    requires At(s, p) && s.polls[p].at.LogsInFlight? && PollCov(s, s.polls[p])
    ensures PollSteps(s, DoLogs(s, p), p)
  {
    var s' := DoLogs(s, p);
    if s.polls[p].batch == [] {
      BatchExtends(s, s.polls[p]);
      StillCovered(s, s', Lower(s.polls[p].contract), s.polls[p].latest);
    } else {
      MovesOn(s, s', p);
    }
  }

  lemma NextLogSteps(s: State, p: nat)
    requires At(s, p) && s.polls[p].at.NextLog? && PollCov(s, s.polls[p])
    ensures PollSteps(s, DoNextLog(s, p), p)
  {
    var poll, s' := s.polls[p], DoNextLog(s, p);
    if poll.next == |poll.batch| {
      BatchExtends(s, poll);
      StillCovered(s, s', Lower(poll.contract), poll.latest);
    } else if FindMatching(s.watch.deposits, poll.contract).NoMatch? {
      HandledSteps(s, p);
    } else {
      MovesOn(s, s', p);
    }
  }

  lemma AllowanceSteps(s: State, p: nat)
    requires LogInHand(s, p) && s.polls[p].at.AllowanceInFlight? && PollCov(s, s.polls[p])
    ensures PollSteps(s, DoAllowance(s, p), p)
  {
    var d, s' := s.polls[p].at.d, DoAllowance(s, p);
    if !d.expected.Unreadable? && s.polls[p].at.allowance < Desired(d, LogOf(s, p).value) {
      HandledSteps(s, p);
    } else {
      MovesOn(s, s', p);
    }
  }

  lemma ReceiptSteps(s: State, p: nat)
    requires At(s, p) && s.polls[p].at.Pulled? && s.polls[p].at.tx < |s.log.pulls| && PollCov(s, s.polls[p])
    ensures PollSteps(s, DoReceipt(s, p), p)
  {
    PollStillCov(s, DoReceipt(s, p), DoReceipt(s, p).polls[p]);
  }

  /** The events that resume a poll, or serve what it asked for. */
  predicate OfPoll(e: Event) {
    e.ServeHead? || e.OnHead? || e.ServeLogs? || e.OnLogs? || e.OnNextLog? || e.ServeAllowance? || e.OnAllowance?
    || e.OnGas? || e.Mine? || e.OnReceipt? || e.OnCallback? || e.Fail?
  }

  lemma OfPollSteps(s: State, e: Event)
    requires Enabled(s, e) && OfPoll(e) && PollCov(s, s.polls[e.p]) && (s.polls[e.p].at.Logs? ==> s.polls[e.p].next == 0)
    ensures PollSteps(s, Step(s, e), e.p)
  {
    var p := e.p;
    if e.OnHead? {
      HeadSteps(s, p);
    } else if e.ServeLogs? {
      ServeLogsSteps(s, p);
    } else if e.OnLogs? {
      LogsSteps(s, p);
    } else if e.OnNextLog? {
      NextLogSteps(s, p);
    } else if e.OnAllowance? {
      AllowanceSteps(s, p);
    } else if e.OnReceipt? && s.polls[p].at.Pulled? {
      ReceiptSteps(s, p);
    } else if e.OnReceipt? || e.OnCallback? {
      HandledSteps(s, p);
    } else {
      QuietSteps(s, e);
    }
  }

  lemma MineSteps(s: State, p: nat, accepted: bool)
    requires InMempool(s, p) && PollCov(s, s.polls[p])
    ensures PollSteps(s, DoMine(s, p, accepted), p)
  {
    MovesOn(s, DoMine(s, p, accepted), p);
  }

  lemma FailSteps(s: State, p: nat)
    requires At(s, p) && PollCov(s, s.polls[p])
    ensures PollSteps(s, DoFail(s, p), p)
  {
    MovesOn(s, DoFail(s, p), p);
  }

  lemma QuietSteps(s: State, e: Event)
    requires Enabled(s, e) && (e.ServeHead? || e.ServeAllowance? || e.OnGas? || e.Mine? || e.Fail?) && PollCov(s, s.polls[e.p])
    ensures PollSteps(s, Step(s, e), e.p)
  {
    if e.Mine? {
      MineSteps(s, e.p, e.accepted);
    } else if e.Fail? {
      FailSteps(s, e.p);
    } else if e.OnGas? {
      GasSteps(s, e.p);
    } else {
      MovesOn(s, Step(s, e), e.p);
    }
  }

  lemma GasSteps(s: State, p: nat)
    requires At(s, p) && s.polls[p].at.Gas? && PollCov(s, s.polls[p])
    ensures PollSteps(s, DoGas(s, p), p)
  {
    MovesOn(s, DoGas(s, p), p);
  }

  /** A poll that is not yet in a batch has handled nothing of it. */
  ghost predicate Fresh(s: State) {
    forall p :: 0 <= p < |s.polls| && (s.polls[p].at.Head? || s.polls[p].at.HeadInFlight? || s.polls[p].at.Logs?) ==> s.polls[p].next == 0
  }

  lemma OthersKeep(s: State, e: Event)
    requires CovInv(s) && Enabled(s, e) && !OfPoll(e) && !e.Tick? && !e.OnSeed?
    ensures CovInv(Step(s, e))
  {
    var s' := Step(s, e);
    assert Grows(s, s');
    forall key | key in s'.watch.lastSeen ensures CoveredFrom(s', key, s'.watch.lastSeen[key]) {
      StillCovered(s, s', key, s.watch.lastSeen[key]);
    }
    forall q | 0 <= q < |s'.polls| ensures PollCov(s', s'.polls[q]) {
      PollStillCov(s, s', s.polls[q]);
    }
  }

  lemma SeedKeeps(s: State, q: nat)
    requires CovInv(s) && q < |s.seedings| && s.seedings[q].at.HeadSeen?
    ensures CovInv(DoSeed(s, q))
  {
    var s' := DoSeed(s, q);
    assert Grows(s, s');
    forall key | key in s'.watch.lastSeen ensures CoveredFrom(s', key, s'.watch.lastSeen[key]) {
      if key != Lower(s.seedings[q].contract) {
        StillCovered(s, s', key, s.watch.lastSeen[key]);
      }
    }
    forall p | 0 <= p < |s'.polls| ensures PollCov(s', s'.polls[p]) {
      PollStillCov(s, s', s.polls[p]);
    }
  }

  lemma TickKeeps(s: State, timer: nat)
    requires CovInv(s) && timer in s.watch.intervals
    ensures CovInv(DoTick(s, timer))
  {
    var s' := DoTick(s, timer);
    var key := Lower(s.watch.intervals[timer]);
    forall p | 0 <= p < |s'.polls| ensures PollCov(s', s'.polls[p]) {
      if p < |s.polls| {
        PollStillCov(s, s', s.polls[p]);
      } else {
        assert CoveredFrom(s, key, 0);
      }
    }
    forall k | k in s'.watch.lastSeen ensures CoveredFrom(s', k, s'.watch.lastSeen[k]) {
      StillCovered(s, s', k, s.watch.lastSeen[k]);
    }
  }

  lemma StepKeepsCov(s: State, e: Event)
    requires CovInv(s) && Fresh(s)
    ensures CovInv(Step(s, e))
  {
    if Enabled(s, e) {
      if OfPoll(e) {
        assert PollCov(s, s.polls[e.p]);
        OfPollSteps(s, e);
        PollStepKeeps(s, Step(s, e), e.p);
      } else if e.Tick? {
        TickKeeps(s, e.timer);
      } else if e.OnSeed? {
        SeedKeeps(s, e.q);
      } else {
        OthersKeep(s, e);
      }
    }
  }

  lemma StepKeepsFresh(s: State, e: Event)
    requires Fresh(s)
    ensures Fresh(Step(s, e))
  {
    if Enabled(s, e) && OfPoll(e) {
      PollKeepsFresh(s, e);
    }
  }

  predicate FreshAt(poll: Poll) { poll.at.Head? || poll.at.HeadInFlight? || poll.at.Logs? ==> poll.next == 0 }

  /** Only activation `p` goes on, and what holds of it then. */
  predicate FreshMove(s: State, s': State, p: nat) {
    p < |s.polls| == |s'.polls| && s'.polls == s.polls[p := s'.polls[p]] && FreshAt(s'.polls[p])
  }

  lemma PollKeepsFresh(s: State, e: Event)
    requires Fresh(s) && Enabled(s, e) && OfPoll(e)
    ensures Fresh(Step(s, e))
  {
    assert FreshAt(s.polls[e.p]);
    if e.ServeHead? || e.OnHead? || e.ServeLogs? || e.OnLogs? {
      FetchKeepsFresh(s, e);
    } else if e.Mine? || e.Fail? || e.OnReceipt? {
      SettlingKeepsFresh(s, e);
    } else {
      HandlingKeepsFresh(s, e);
    }
  }

  lemma FetchKeepsFresh(s: State, e: Event)
    requires Enabled(s, e) && (e.ServeHead? || e.OnHead? || e.ServeLogs? || e.OnLogs?) && FreshAt(s.polls[e.p])
    ensures FreshMove(s, Step(s, e), e.p)
  {
  }

  lemma HandlingKeepsFresh(s: State, e: Event)
    requires Enabled(s, e) && (e.OnNextLog? || e.ServeAllowance? || e.OnAllowance? || e.OnGas? || e.OnCallback?)
    ensures FreshMove(s, Step(s, e), e.p)
  {
  }

  lemma SettlingKeepsFresh(s: State, e: Event)
    requires Enabled(s, e) && (e.Mine? || e.Fail? || e.OnReceipt?)
    ensures FreshMove(s, Step(s, e), e.p)
  {
  }

  lemma {:induction false} RunKeepsCov(balances: Balances, events: seq<Event>)
    ensures CovInv(Run(Start(balances), events)) && Fresh(Run(Start(balances), events))
    decreases |events|
  {
    if events != [] {
      RunKeepsCov(balances, events[..|events| - 1]);
      StepKeepsCov(Run(Start(balances), events[..|events| - 1]), events[|events| - 1]);
      StepKeepsFresh(Run(Start(balances), events[..|events| - 1]), events[|events| - 1]);
    }
  }

  /** Under every interleaving, overlapping polls and sessions included: every
      Approval log of a contract in the blocks after its seed, up to and
      including its cursor, has been handled without a throw. */
  lemma NoApprovalSkipped(balances: Balances, events: seq<Event>, key: Address, i: nat)
    requires var s := Run(Start(balances), events);
             && key in s.watch.lastSeen && i < |s.blocks.logs| && s.blocks.logs[i].contract == key
             && s.blocks.logs[i].block <= s.watch.lastSeen[key]
    ensures var s := Run(Start(balances), events);
            && key in s.log.seeds
            && (s.blocks.logs[i].block > s.log.seeds[key] ==> i in s.log.handled)
  {
    RunKeepsCov(balances, events);
    var s := Run(Start(balances), events);
    assert CoveredFrom(s, key, s.watch.lastSeen[key]);
  }

  /* ---- the highest seed is the session's own, unless seedings overlap ---- */

  /** At most one ensurePolling of a contract is waiting for its block number. */
  ghost predicate SeedsApart(s: State) {
    forall q, r :: 0 <= q < r < |s.seedings| && !s.seedings[q].at.Seeded? && !s.seedings[r].at.Seeded? ==>
      Lower(s.seedings[q].contract) != Lower(s.seedings[r].contract)
  }

  ghost predicate SeedsInOrder(s: State) {
    && (forall key :: key in s.log.seeds ==> s.log.seeds[key] <= SeedFrom(s.blocks.head))
    && (forall q :: 0 <= q < |s.seedings| && s.seedings[q].at.HeadSeen? ==>
          s.seedings[q].at.block <= s.blocks.head
          && (Lower(s.seedings[q].contract) in s.log.seeds ==> s.log.seeds[Lower(s.seedings[q].contract)] <= SeedFrom(s.seedings[q].at.block)))
  }

  /** While seedings of a contract do not overlap, each new session starts at
      or after every earlier one, so its own seed is the highest. */
  lemma StepKeepsSeedsInOrder(s: State, e: Event)
    requires SeedsApart(s) && SeedsInOrder(s)
    ensures SeedsInOrder(Step(s, e))
    ensures e.OnSeed? && Enabled(s, e) ==>
              var key := Lower(s.seedings[e.q].contract);
              Step(s, e).log.seeds[key] == SeedFrom(s.seedings[e.q].at.block) == Step(s, e).watch.lastSeen[key]
  {
    if Enabled(s, e) && e.OnSeed? {
      SeedInOrder(s, e.q);
    } else {
      SeedsUntouched(s, e);
    }
  }

  ghost predicate SeedsNeverOverlap(s: State, events: seq<Event>)
    decreases |events|
  {
    SeedsApart(Run(s, events)) && (events == [] || SeedsNeverOverlap(s, events[..|events| - 1]))
  }

  lemma {:induction false} RunKeepsSeedsInOrder(balances: Balances, events: seq<Event>)
    requires SeedsNeverOverlap(Start(balances), events)
    ensures SeedsInOrder(Run(Start(balances), events))
    decreases |events|
  {
    if events != [] {
      RunKeepsSeedsInOrder(balances, events[..|events| - 1]);
      assert SeedsNeverOverlap(Start(balances), events[..|events| - 1]);
      StepKeepsSeedsInOrder(Run(Start(balances), events[..|events| - 1]), events[|events| - 1]);
    }
  }

  lemma SeedsUntouched(s: State, e: Event)
    requires SeedsInOrder(s) && !(e.OnSeed? && Enabled(s, e))
    ensures SeedsInOrder(Step(s, e))
  {
    if e.ServeSeed? || e.FailSeed? || e.AddDeposit? || e.NewBlock? {
      SeedingMoves(s, e);
    } else {
      SeedingsStay(s, e);
    }
  }

  lemma SeedingMoves(s: State, e: Event)
    requires SeedsInOrder(s) && (e.ServeSeed? || e.FailSeed? || e.AddDeposit? || e.NewBlock?)
    ensures SeedsInOrder(Step(s, e))
  {
  }

  lemma SeedingsStay(s: State, e: Event)
    requires !((e.OnSeed? || e.ServeSeed? || e.FailSeed? || e.AddDeposit? || e.NewBlock?) && Enabled(s, e))
    ensures Step(s, e).log.seeds == s.log.seeds && Step(s, e).blocks == s.blocks && Step(s, e).seedings == s.seedings
  {
    if Enabled(s, e) && OfPoll(e) {
      PollLeavesSeedings(s, e);
    }
  }

  lemma PollLeavesSeedings(s: State, e: Event)
    requires Enabled(s, e) && OfPoll(e)
    ensures Step(s, e).log.seeds == s.log.seeds && Step(s, e).blocks == s.blocks && Step(s, e).seedings == s.seedings
  {
    if e.ServeHead? || e.OnHead? || e.ServeLogs? || e.OnLogs? || e.OnNextLog? {
      FetchLeavesSeedings(s, e);
    }
  }

  lemma FetchLeavesSeedings(s: State, e: Event)
    requires Enabled(s, e) && (e.ServeHead? || e.OnHead? || e.ServeLogs? || e.OnLogs? || e.OnNextLog?)
    ensures Step(s, e).log.seeds == s.log.seeds && Step(s, e).blocks == s.blocks && Step(s, e).seedings == s.seedings
  {
  }

  lemma SeedInOrder(s: State, q: nat)
    requires SeedsApart(s) && SeedsInOrder(s) && q < |s.seedings| && s.seedings[q].at.HeadSeen?
    ensures SeedsInOrder(DoSeed(s, q))
    ensures var key := Lower(s.seedings[q].contract);
            DoSeed(s, q).log.seeds[key] == SeedFrom(s.seedings[q].at.block)
  {
    var s' := DoSeed(s, q);
    forall r | 0 <= r < |s'.seedings| && s'.seedings[r].at.HeadSeen?
      ensures Lower(s'.seedings[r].contract) != Lower(s.seedings[q].contract)
    {
      assert r < q || q < r;
    }
  }
}
