/** The worker pool of a tag round: one producer, up to five workers, a buffered channel, a wait group, and
    an error counter that the workers increment without a lock. */
module TagPool {
  import opened Counting
  import opened Tags

  const MAX_WORKERS: nat := 5

  /** A worker's place in its loop. `*errNum++` reads the counter and writes it back in two steps, between
      which other workers may write. */
  datatype Worker =
    | Idle
    | Tagging(disk: Disk)
    | ReadCount
    | WriteCount(seen: int)
    | Finishing

  datatype Producer = Adding(next: nat) | Sending(next: nat) | Waiting | Returned(failed: bool)

  datatype Pool = Pool(
    disks: seq<Disk>,
    producer: Producer,
    queue: seq<Disk>,
    workers: seq<Worker>,
    wg: int,
    errNum: int,
    log: seq<Attempt>)

  /** The channel has room for every disk. */
  function Capacity(s: Pool): nat {
    |s.disks|
  }

  function Start(disks: seq<Disk>): Pool {
    var n := if |disks| < MAX_WORKERS then |disks| else MAX_WORKERS;
    Pool(disks, Adding(0), [], seq(n, _ => Idle), 0, 0, [])
  }

  datatype Event = Produce | Work(w: nat, applied: bool, error: bool)

  function ProducerStep(s: Pool): Pool {
    match s.producer
    case Adding(i) =>
      if i < |s.disks| then s.(wg := s.wg + 1, producer := Sending(i)) else s.(producer := Waiting)
    case Sending(i) =>
      if i < |s.disks| && |s.queue| < Capacity(s) then
        s.(queue := s.queue + [s.disks[i]], producer := Adding(i + 1))
      else s
    case Waiting => if s.wg == 0 then s.(producer := Returned(s.errNum != 0)) else s
    case Returned(_) => s
  }

  function WorkerStep(s: Pool, w: nat, applied: bool, error: bool): Pool
    requires w < |s.workers|
  {
    match s.workers[w]
    case Idle =>
      if s.queue == [] then s
      else s.(workers := s.workers[w := Tagging(s.queue[0])], queue := s.queue[1..])
    case Tagging(d) =>
      if !applied && !error then s
      else s.(workers := s.workers[w := if error then ReadCount else Finishing],
              log := s.log + [Attempt(d, applied, error)])
    case ReadCount => s.(workers := s.workers[w := WriteCount(s.errNum)])
    case WriteCount(seen) => s.(workers := s.workers[w := Finishing], errNum := seen + 1)
    case Finishing => s.(workers := s.workers[w := Idle], wg := s.wg - 1)
  }

  /** Once the producer returned, its deferred cancel stops the workers. */
  function Next(s: Pool, e: Event): Pool {
    match e
    case Produce => ProducerStep(s)
    case Work(w, applied, error) =>
      if w < |s.workers| && !s.producer.Returned? then WorkerStep(s, w, applied, error) else s
  }

  function Run(s: Pool, events: seq<Event>): Pool
    decreases |events|
  {
    if events == [] then s else Run(Next(s, events[0]), events[1..])
  }

  // ----- The invariant

  predicate Busy(w: Worker) { !w.Idle? }

  predicate Uncounted(w: Worker) { w.ReadCount? || w.WriteCount? }

  predicate IsError(a: Attempt) { a.error }

  predicate InHand(w: Worker) { w.Tagging? }

  function Holding(d: Disk): Worker -> bool {
    (w: Worker) => w == Tagging(d)
  }

  function Logged(log: seq<Attempt>): (r: seq<Disk>)
    ensures |r| == |log| && forall i :: 0 <= i < |log| ==> r[i] == log[i].disk
  {
    seq(|log|, i requires 0 <= i < |log| => log[i].disk)
  }

  function Sent(s: Pool): nat {
    if s.producer.Adding? || s.producer.Sending? then s.producer.next else |s.disks|
  }

  /** Where the copies of a disk are that have been sent: queued, in a worker's hand, or attempted. */
  ghost function Accounted(s: Pool, d: Disk): nat {
    multiset(s.queue)[d] + Count(s.workers, Holding(d)) + multiset(Logged(s.log))[d]
  }

  /** The errors whose increment is complete. */
  function Counted(s: Pool): int {
    Count(s.log, IsError) - Count(s.workers, Uncounted)
  }

  predicate WaitGroupOk(s: Pool) {
    s.wg == |s.queue| + Count(s.workers, Busy) + One(s.producer.Sending?)
  }

  predicate SizesOk(s: Pool) {
    && Sent(s) <= |s.disks|
    && (s.producer.Sending? ==> s.producer.next < |s.disks|)
    && |s.queue| + Count(s.workers, InHand) + |s.log| == Sent(s)
    && |s.workers| == (if |s.disks| < MAX_WORKERS then |s.disks| else MAX_WORKERS)
  }

  ghost predicate DisksOk(s: Pool)
    requires Sent(s) <= |s.disks|
  {
    forall d :: multiset(s.disks[..Sent(s)])[d] == Accounted(s, d)
  }

  predicate ErrorsOk(s: Pool) {
    && 0 <= s.errNum <= Counted(s)
    && (s.errNum > 0 <==> Counted(s) > 0)
    && (forall w :: 0 <= w < |s.workers| && s.workers[w].WriteCount? ==> 0 <= s.workers[w].seen <= Counted(s))
  }

  ghost predicate Inv(s: Pool) {
    && WaitGroupOk(s)
    && SizesOk(s)
    && DisksOk(s)
    && ErrorsOk(s)
    && ReturnOk(s)
  }

  lemma StartInv(disks: seq<Disk>)
    ensures Inv(Start(disks))
  {
    var s := Start(disks);
    CountIsZero(s.workers, Busy);
    CountIsZero(s.workers, Uncounted);
    CountIsZero(s.workers, InHand);
    forall d ensures Accounted(s, d) == 0 {
      CountIsZero(s.workers, Holding(d));
    }
  }

  lemma SendAccounts(s: Pool, d: Disk)
    requires s.producer.Sending? && s.producer.next < |s.disks|
    requires multiset(s.disks[..Sent(s)])[d] == Accounted(s, d)
    ensures var s' := ProducerStep(s);
            Sent(s') <= |s.disks| && multiset(s.disks[..Sent(s')])[d] == Accounted(s', d)
  {
    var i := s.producer.next;
    assert s.disks[..i + 1] == s.disks[..i] + [s.disks[i]];
  }

  lemma ProducerDisks(s: Pool)
    requires SizesOk(s) && DisksOk(s)
    ensures SizesOk(ProducerStep(s)) && DisksOk(ProducerStep(s))
  {
    var s' := ProducerStep(s);
    forall d ensures multiset(s'.disks[..Sent(s')])[d] == Accounted(s', d) {
      assert multiset(s.disks[..Sent(s)])[d] == Accounted(s, d);
      if s.producer.Sending? {
        SendAccounts(s, d);
      } else {
        assert Sent(s') == Sent(s) && Accounted(s', d) == Accounted(s, d);
      }
    }
  }

  lemma WorkerWaitGroup(s: Pool, w: nat, applied: bool, error: bool)
    requires WaitGroupOk(s) && w < |s.workers|
    ensures WaitGroupOk(WorkerStep(s, w, applied, error))
  {
    var s' := WorkerStep(s, w, applied, error);
    CountUpdate(s.workers, w, s'.workers[w], Busy);
    assert s.workers[w := s'.workers[w]] == s'.workers;
  }

  lemma WorkerSizes(s: Pool, w: nat, applied: bool, error: bool)
    requires SizesOk(s) && w < |s.workers|
    ensures SizesOk(WorkerStep(s, w, applied, error))
  {
    var s' := WorkerStep(s, w, applied, error);
    CountUpdate(s.workers, w, s'.workers[w], InHand);
    assert s.workers[w := s'.workers[w]] == s'.workers;
  }

  lemma TakeAccounts(s: Pool, w: nat, d: Disk)
    requires w < |s.workers| && s.workers[w].Idle? && s.queue != []
    ensures Accounted(WorkerStep(s, w, true, false), d) == Accounted(s, d)
  {
    CountUpdate(s.workers, w, Tagging(s.queue[0]), Holding(d));
    assert s.queue == [s.queue[0]] + s.queue[1..];
  }

  lemma AttemptAccounts(s: Pool, w: nat, applied: bool, error: bool, d: Disk)
    requires w < |s.workers| && s.workers[w].Tagging? && (applied || error)
    ensures Accounted(WorkerStep(s, w, applied, error), d) == Accounted(s, d)
  {
    var s' := WorkerStep(s, w, applied, error);
    CountUpdate(s.workers, w, if error then ReadCount else Finishing, Holding(d));
    assert Logged(s'.log) == Logged(s.log) + [s.workers[w].disk];
  }

  lemma WorkerAccounts(s: Pool, w: nat, applied: bool, error: bool, d: Disk)
    requires w < |s.workers|
    ensures Accounted(WorkerStep(s, w, applied, error), d) == Accounted(s, d)
  {
    match s.workers[w]
    case Idle =>
      if s.queue != [] {
        TakeAccounts(s, w, d);
      }
    case Tagging(_) =>
      if applied || error {
        AttemptAccounts(s, w, applied, error, d);
      }
    case ReadCount => CountUpdate(s.workers, w, WriteCount(s.errNum), Holding(d));
    case WriteCount(_) => CountUpdate(s.workers, w, Finishing, Holding(d));
    case Finishing => CountUpdate(s.workers, w, Idle, Holding(d));
  }

  lemma WorkerErrors(s: Pool, w: nat, applied: bool, error: bool)
    requires ErrorsOk(s) && w < |s.workers|
    ensures ErrorsOk(WorkerStep(s, w, applied, error))
  {
    var s' := WorkerStep(s, w, applied, error);
    CountUpdate(s.workers, w, s'.workers[w], Uncounted);
    assert s.workers[w := s'.workers[w]] == s'.workers;
    if s.workers[w].Tagging? {
      CountAppend(s.log, Attempt(s.workers[w].disk, applied, error), IsError);
    }
  }

  lemma WorkerDisks(s: Pool, w: nat, applied: bool, error: bool)
    requires SizesOk(s) && DisksOk(s) && w < |s.workers|
    ensures SizesOk(WorkerStep(s, w, applied, error)) && DisksOk(WorkerStep(s, w, applied, error))
  {
    var s' := WorkerStep(s, w, applied, error);
    WorkerSizes(s, w, applied, error);
    assert s'.disks[..Sent(s')] == s.disks[..Sent(s)];
    forall d ensures multiset(s'.disks[..Sent(s')])[d] == Accounted(s', d) {
      WorkerAccounts(s, w, applied, error, d);
      assert multiset(s.disks[..Sent(s)])[d] == Accounted(s, d);
    }
  }

  ghost predicate ReturnOk(s: Pool) {
    && (forall i :: 0 <= i < |s.log| ==> s.log[i].Possible())
    && (s.producer.Returned? ==> s.wg == 0 && s.producer.failed == (s.errNum != 0))
  }

  lemma ReturnInv(s: Pool, e: Event)
    requires ReturnOk(s)
    ensures ReturnOk(Next(s, e))
  {
  }

  lemma NextInv(s: Pool, e: Event)
    requires Inv(s)
    ensures Inv(Next(s, e))
  {
    ReturnInv(s, e);
    if e.Produce? {
      ProducerDisks(s);
    } else if e.w < |s.workers| && !s.producer.Returned? {
      WorkerWaitGroup(s, e.w, e.applied, e.error);
      WorkerDisks(s, e.w, e.applied, e.error);
      WorkerErrors(s, e.w, e.applied, e.error);
    }
  }

  lemma {:induction false} RunInv(s: Pool, events: seq<Event>)
    requires Inv(s)
    ensures Inv(Run(s, events)) && Run(s, events).disks == s.disks
    decreases |events|
  {
    if events != [] {
      NextInv(s, events[0]);
      RunInv(Next(s, events[0]), events[1..]);
    }
  }

  // ----- What it means for every interleaving

  /** There are five workers, or as many as disks if these are fewer. The wait group counts the disks queued and in
      hand, and the one between Add and send, so it is never negative; and a send never finds the channel full. */
  lemma SendsNeverBlock(disks: seq<Disk>, events: seq<Event>)
    ensures var s := Run(Start(disks), events);
            && s.wg == |s.queue| + Count(s.workers, Busy) + One(s.producer.Sending?) >= 0
            && |s.workers| == (if |disks| < 5 then |disks| else 5)
            && (s.producer.Sending? ==> |s.queue| < |disks| == Capacity(s) && Next(s, Produce) != s)
  {
    StartInv(disks);
    RunInv(Start(disks), events);
  }

  /** Until the producer has returned somebody can take a step: the producer itself, or, while it waits for a
      positive count, a worker, whose request is answered one way or the other. */
  lemma NeverStuck(disks: seq<Disk>, events: seq<Event>)
    ensures var s := Run(Start(disks), events);
            && (!s.producer.Returned? ==> exists e :: Next(s, e) != s)
            && (s.producer.Waiting? && s.wg > 0 ==>
                  exists w: nat :: w < |s.workers| && Next(s, Work(w, true, false)) != s)
  {
    StartInv(disks);
    RunInv(Start(disks), events);
    SendsNeverBlock(disks, events);
    var s := Run(Start(disks), events);
    if s.producer.Waiting? && s.wg > 0 {
      if Count(s.workers, Busy) > 0 {
        CountIsZero(s.workers, Busy);
        var w: nat :| w < |s.workers| && Busy(s.workers[w]);
        BusyCanStep(s, w);
      } else {
        CountIsZero(s.workers, Busy);
        assert |s.queue| > 0;
        assert |s.disks| > 0 && |s.workers| > 0 && s.workers[0].Idle?;
        assert Next(s, Work(0, true, false)) != s;
      }
    } else if !s.producer.Returned? {
      assert Next(s, Produce) != s;
    }
  }

  lemma BusyCanStep(s: Pool, w: nat)
    requires w < |s.workers| && Busy(s.workers[w]) && !s.producer.Returned?
    ensures Next(s, Work(w, true, false)) != s
  {
    var s' := Next(s, Work(w, true, false));
    assert s'.workers[w] != s.workers[w];
  }

  /** Work left to do, in steps. */
  function Left(w: Worker): nat {
    match w
    case Idle => 0
    case Tagging(_) => 4
    case ReadCount => 3
    case WriteCount(_) => 2
    case Finishing => 1
  }

  function Measure(s: Pool): int {
    var unsent := 7 * (|s.disks| - Sent(s)) - One(s.producer.Sending?);
    unsent + 5 * |s.queue| + Sum(s.workers, Left)
    + (match s.producer case Returned(_) => 0 case Waiting => 1 case _ => 2)
  }

  lemma WorkerProgress(s: Pool, w: nat, applied: bool, error: bool)
    requires w < |s.workers| && WorkerStep(s, w, applied, error) != s
    ensures Measure(WorkerStep(s, w, applied, error)) < Measure(s)
  {
    var s' := WorkerStep(s, w, applied, error);
    SumUpdate(s.workers, w, s'.workers[w], Left);
    assert s.workers[w := s'.workers[w]] == s'.workers;
  }

  lemma ProducerProgress(s: Pool)
    requires SizesOk(s) && ProducerStep(s) != s
    ensures Measure(ProducerStep(s)) < Measure(s)
  {
  }

  /** Every step that changes anything uses up some of a bounded amount of work, so no run takes more than
      `7 n + 2` steps before the producer returns, whatever the schedule. */
  lemma EveryStepIsProgress(s: Pool, e: Event)
    requires Inv(s)
    ensures Measure(s) >= 0
    ensures Next(s, e) != s ==> Measure(Next(s, e)) < Measure(s)
  {
    if Next(s, e) != s {
      match e
      case Produce => ProducerProgress(s);
      case Work(w, applied, error) => WorkerProgress(s, w, applied, error);
    }
  }

  ghost predicate NoIdleSteps(s: Pool, events: seq<Event>)
    decreases |events|
  {
    events != [] ==> Next(s, events[0]) != s && NoIdleSteps(Next(s, events[0]), events[1..])
  }

  lemma {:induction false} RunsAreBounded(s: Pool, events: seq<Event>)
    requires Inv(s) && NoIdleSteps(s, events)
    ensures |events| <= Measure(s) - Measure(Run(s, events))
    decreases |events|
  {
    if events != [] {
      EveryStepIsProgress(s, events[0]);
      NextInv(s, events[0]);
      RunsAreBounded(Next(s, events[0]), events[1..]);
    }
  }

  /** Main result: termination. Under any schedule the pool takes at most `7 n + 2` steps, and when no step is
      left the producer has returned. */
  lemma PoolTerminates(disks: seq<Disk>, events: seq<Event>)
    requires NoIdleSteps(Start(disks), events)
    ensures |events| <= 7 * |disks| + 2
    ensures (forall e :: Next(Run(Start(disks), events), e) == Run(Start(disks), events)) ==>
              Run(Start(disks), events).producer.Returned?
  {
    var s := Start(disks);
    StartInv(disks);
    RunInv(s, events);
    RunsAreBounded(s, events);
    EveryStepIsProgress(Run(s, events), Produce);
    IdleSum(s.workers);
    NeverStuck(disks, events);
  }

  lemma {:induction false} IdleSum(workers: seq<Worker>)
    requires forall i :: 0 <= i < |workers| ==> workers[i].Idle?
    ensures Sum(workers, Left) == 0
  {
    if workers != [] {
      assert forall i :: 0 <= i < |workers[1..]| ==> workers[1..][i] == workers[i + 1];
      IdleSum(workers[1..]);
    }
  }

  lemma AllAttempted(s: Pool)
    requires Inv(s) && s.producer.Returned?
    ensures multiset(Logged(s.log)) == multiset(s.disks)
  {
    CountIsZero(s.workers, Busy);
    assert s.disks[..|s.disks|] == s.disks;
    forall d ensures multiset(Logged(s.log))[d] == multiset(s.disks)[d] {
      CountIsZero(s.workers, Holding(d));
      assert multiset(s.disks[..Sent(s)])[d] == Accounted(s, d);
    }
  }

  lemma AttemptsAreComplete(log: seq<Attempt>, disks: seq<Disk>)
    requires multiset(Logged(log)) == multiset(disks)
    requires forall i :: 0 <= i < |log| ==> log[i].Possible()
    ensures Complete(log, set d | d in disks)
  {
    forall i | 0 <= i < |log| ensures log[i].disk in disks {
      assert Logged(log)[i] in multiset(Logged(log));
      assert log[i].disk in multiset(disks);
    }
    forall d | d in disks ensures exists i :: 0 <= i < |log| && log[i].disk == d {
      assert d in multiset(disks);
      assert d in Logged(log);
    }
  }

  /** Main result: when Wait has returned every disk has been attempted exactly once, and although the counter
      loses updates the round is reported failed exactly when some request failed; the counter never exceeds
      the number of failures. */
  lemma PoolIsFaithful(disks: seq<Disk>, events: seq<Event>)
    requires Run(Start(disks), events).producer.Returned?
    ensures var s := Run(Start(disks), events);
            && multiset(Logged(s.log)) == multiset(disks)
            && Complete(s.log, set d | d in disks)
            && s.producer.failed == !NoErrors(s.log)
            && (s.errNum != 0 <==> Count(s.log, IsError) > 0)
            && 0 <= s.errNum <= Count(s.log, IsError)
  {
    StartInv(disks);
    RunInv(Start(disks), events);
    var s := Run(Start(disks), events);
    AllAttempted(s);
    AttemptsAreComplete(s.log, disks);
    CountIsZero(s.workers, Busy);
    CountIsZero(s.workers, Uncounted);
    CountIsZero(s.log, IsError);
  }

  /** Updates do get lost: when two workers read the counter before either writes it back, two failures count
      as one. */
  lemma UpdatesGetLost(s: Pool, w: nat, w': nat)
    requires w < |s.workers| && w' < |s.workers| && w != w' && !s.producer.Returned?
    requires s.workers[w].ReadCount? && s.workers[w'].ReadCount?
    ensures var s1 := Next(Next(s, Work(w, false, false)), Work(w', false, false));
            var s2 := Next(Next(s1, Work(w, false, false)), Work(w', false, false));
            && s2.workers[w].Finishing? && s2.workers[w'].Finishing?
            && s2.errNum == s.errNum + 1
  {
  }

  /** End to end: after any failing rounds, a round whose pool ran over all disks under any schedule, lost updates
      included, and returned without reporting a failure makes the saved tags the cluster's and brings exactly
      the disks that were ready for it to their target. */
  lemma PoolRoundConverges(s: Sync, rounds: seq<Tags.Event>, cluster: TagMap, disks: seq<Disk>, steps: seq<Event>)
    requires FailingRounds(s, rounds) && Against(rounds, cluster)
    requires (set d | d in disks) == Tags.Run(s, rounds).fleet.Keys
    requires Run(Start(disks), steps).producer == Returned(false)
    ensures var now := Tags.Run(s, rounds);
            var (done, ok) := Round(now, cluster, Run(Start(disks), steps).log, RoundIo(true, true, true));
            && ok && done.saved == cluster && done.fleet.Keys == now.fleet.Keys
            && forall d :: d in done.fleet ==> Converged(done.fleet[d], Origin(s, rounds, d), cluster, s.saved)
  {
    PoolIsFaithful(disks, steps);
    TagsConverge(s, rounds, cluster, Run(Start(disks), steps).log, RoundIo(true, true, true));
  }
}
