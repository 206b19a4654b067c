/** The controller's fan-out: the call adds to a wait group and starts one goroutine per disk, each goroutine
    sends one response into a channel with a slot per disk and then runs its deferred Done, the call waits,
    closes the channel and collects the errors. `L` is where a goroutine stands in its own work. */
module FanOut {
  import opened Counting

  datatype Response = Ok | Error

  datatype Goroutine<L> = NotStarted | Running(at: L) | Sent(response: Response) | Finished(response: Response)

  datatype Main = Adding(next: nat) | Starting(next: nat) | Waiting | Returned(success: bool)

  datatype Fan<L> = Fan(main: Main, gs: seq<Goroutine<L>>, chan: seq<Response>, wg: int)

  function Begin<L>(n: nat): Fan<L> {
    Fan(Adding(0), seq(n, _ => NotStarted), [], 0)
  }

  /** The responses that are not nil, in the order they were sent. */
  function Errors(responses: seq<Response>): (errs: seq<Response>) {
    if responses == [] then []
    else (if responses[0].Error? then [responses[0]] else []) + Errors(responses[1..])
  }

  method CollectErrors(responses: seq<Response>) returns (errs: seq<Response>)
    ensures errs == Errors(responses)
  {
    errs := [];
    for i := 0 to |responses|
      invariant errs + Errors(responses[i..]) == Errors(responses)
    {
      assert responses[i..][1..] == responses[i + 1..];
      if responses[i].Error? {
        errs := errs + [responses[i]];
      }
    }
  }

  lemma {:induction false} ErrorsAreCounted(responses: seq<Response>)
    ensures |Errors(responses)| == Count(responses, IsError)
  {
    if responses != [] {
      ErrorsAreCounted(responses[1..]);
    }
  }

  /** One step of the call itself; `first` is where each goroutine starts. */
  function MainStep<L>(f: Fan<L>, first: L): Fan<L> {
    match f.main
    case Adding(i) =>
      if i < |f.gs| then f.(wg := f.wg + 1, main := Starting(i)) else f.(main := Waiting)
    case Starting(i) =>
      if i < |f.gs| then f.(gs := f.gs[i := Running(first)], main := Adding(i + 1)) else f
    case Waiting => if f.wg == 0 then f.(main := Returned(|Errors(f.chan)| == 0)) else f
    case Returned(_) => f
  }

  function Move<L>(f: Fan<L>, i: nat, at: L): Fan<L>
    requires i < |f.gs|
  {
    f.(gs := f.gs[i := Running(at)])
  }

  function Send<L>(f: Fan<L>, i: nat, r: Response): Fan<L>
    requires i < |f.gs|
  {
    if |f.chan| < |f.gs| then f.(gs := f.gs[i := Sent(r)], chan := f.chan + [r]) else f
  }

  function Done<L>(f: Fan<L>, i: nat): Fan<L>
    requires i < |f.gs| && f.gs[i].Sent?
  {
    f.(gs := f.gs[i := Finished(f.gs[i].response)], wg := f.wg - 1)
  }

  /** One step of goroutine `i`, whose own next step is `work`. */
  datatype Work<L> = Goto(at: L) | Reply(response: Response)

  function GoroutineStep<L>(f: Fan<L>, i: nat, work: Work<L>): Fan<L>
    requires i < |f.gs|
  {
    match f.gs[i]
    case Running(_) => (match work case Goto(at) => Move(f, i, at) case Reply(r) => Send(f, i, r))
    case Sent(_) => Done(f, i)
    case _ => f
  }

  // ----- Conservation

  predicate Pending<L>(g: Goroutine<L>) { g.Running? || g.Sent? }

  predicate Responded<L>(g: Goroutine<L>) { g.Sent? || g.Finished? }

  predicate Failed<L>(g: Goroutine<L>) { Responded(g) && g.response.Error? }

  predicate IsError(r: Response) { r.Error? }

  function Started<L>(f: Fan<L>): nat {
    if f.main.Adding? || f.main.Starting? then f.main.next else |f.gs|
  }

  predicate Inv<L(==)>(f: Fan<L>) {
    && Started(f) <= |f.gs|
    && (f.main.Starting? ==> f.main.next < |f.gs|)
    && (forall i :: 0 <= i < |f.gs| ==> (f.gs[i].NotStarted? <==> i >= Started(f)))
    && f.wg == Count(f.gs, Pending) + One(f.main.Starting?)
    && |f.chan| == Count(f.gs, Responded)
    && Count(f.chan, IsError) == Count(f.gs, Failed)
    && (f.main.Returned? ==> f.wg == 0 && f.main.success == (|Errors(f.chan)| == 0))
  }

  lemma BeginInv<L>(n: nat)
    ensures Inv(Begin<L>(n))
  {
    var f := Begin<L>(n);
    CountIsZero(f.gs, Pending);
    CountIsZero(f.gs, Responded);
    CountIsZero(f.gs, Failed);
  }

  lemma CountsUpdate<L>(f: Fan<L>, i: nat, g: Goroutine<L>)
    requires i < |f.gs|
    ensures Count(f.gs[i := g], Pending) == Count(f.gs, Pending) - One(Pending(f.gs[i])) + One(Pending(g))
    ensures Count(f.gs[i := g], Responded) == Count(f.gs, Responded) - One(Responded(f.gs[i])) + One(Responded(g))
    ensures Count(f.gs[i := g], Failed) == Count(f.gs, Failed) - One(Failed(f.gs[i])) + One(Failed(g))
  {
    CountUpdate(f.gs, i, g, Pending);
    CountUpdate(f.gs, i, g, Responded);
    CountUpdate(f.gs, i, g, Failed);
  }

  lemma MainInv<L>(f: Fan<L>, first: L)
    requires Inv(f)
    ensures Inv(MainStep(f, first))
  {
    if f.main.Starting? {
      CountsUpdate(f, f.main.next, Running(first));
    }
  }

  /** A goroutine that has not sent finds a free slot, so its send never blocks. */
  lemma SendNeverBlocks<L>(f: Fan<L>, i: nat)
    requires Inv(f) && i < |f.gs| && f.gs[i].Running?
    ensures |f.chan| < |f.gs|
  {
    CountIsAll(f.gs, Responded);
  }

  lemma GoroutineInv<L>(f: Fan<L>, i: nat, work: Work<L>)
    requires Inv(f) && i < |f.gs|
    ensures Inv(GoroutineStep(f, i, work))
  {
    match f.gs[i]
    case Running(_) =>
      SendNeverBlocks(f, i);
      PendingPositive(f, i);
      match work {
        case Goto(at) => CountsUpdate(f, i, Running(at));
        case Reply(r) =>
          CountsUpdate(f, i, Goroutine<L>.Sent(r));
          CountAppend(f.chan, r, IsError);
      }
    case Sent(r) =>
      CountsUpdate(f, i, Finished(r));
      PendingPositive(f, i);
    case _ =>
  }

  /** The deferred Done never brings the counter below zero, nor runs after Wait has returned. */
  lemma PendingPositive<L>(f: Fan<L>, i: nat)
    requires Inv(f) && i < |f.gs| && Pending(f.gs[i])
    ensures f.wg > 0 && !f.main.Returned?
  {
    CountIsZero(f.gs, Pending);
  }

  /** Main result. When the call has returned, every goroutine has sent exactly one response and finished, the
      channel holds as many responses as there are disks, and the call succeeded exactly when all of them are nil. */
  lemma ReturnedMeansAllResponded<L>(f: Fan<L>)
    requires Inv(f) && f.main.Returned?
    ensures |f.chan| == |f.gs|
    ensures forall i :: 0 <= i < |f.gs| ==> f.gs[i].Finished?
    ensures f.main.success <==> forall i :: 0 <= i < |f.gs| ==> f.gs[i].response.Ok?
  {
    CountIsZero(f.gs, Pending);
    CountIsAll(f.gs, Responded);
    CountIsZero(f.gs, Failed);
    ErrorsAreCounted(f.chan);
  }

  /** Once every goroutine has finished, Wait is free to return. */
  lemma AllFinishedWakesWait<L>(f: Fan<L>)
    requires Inv(f) && f.main.Waiting? && forall i :: 0 <= i < |f.gs| ==> f.gs[i].Finished?
    ensures f.wg == 0
  {
    CountIsZero(f.gs, Pending);
  }

  /** No deadlock: a call that has not returned can step itself, or waits for a goroutine that can. */
  lemma NeverStuck<L>(f: Fan<L>, first: L)
    requires Inv(f) && !f.main.Returned?
    ensures MainStep(f, first) != f ||
            exists i :: 0 <= i < |f.gs| && Pending(f.gs[i]) && GoroutineStep(f, i, Reply(Ok)) != f
  {
    if MainStep(f, first) == f {
      CountIsZero(f.gs, Pending);
      var i :| 0 <= i < |f.gs| && Pending(f.gs[i]);
      if f.gs[i].Running? {
        SendNeverBlocks(f, i);
        assert GoroutineStep(f, i, Reply(Ok)).gs[i] != f.gs[i];
      } else {
        assert GoroutineStep(f, i, Reply(Ok)).gs[i] != f.gs[i];
      }
    }
  }

  // ----- Every run of a fan-out

  datatype Turn<L> = MainTurn | GoroutineTurn(i: nat, work: Work<L>)

  function TurnStep<L>(f: Fan<L>, first: L, e: Turn<L>): Fan<L> {
    match e
    case MainTurn => MainStep(f, first)
    case GoroutineTurn(i, work) => if i < |f.gs| then GoroutineStep(f, i, work) else f
  }

  function TurnsRun<L>(f: Fan<L>, first: L, turns: seq<Turn<L>>): Fan<L>
    decreases |turns|
  {
    if turns == [] then f else TurnsRun(TurnStep(f, first, turns[0]), first, turns[1..])
  }

  lemma {:induction false} TurnsInv<L>(f: Fan<L>, first: L, turns: seq<Turn<L>>)
    requires Inv(f)
    ensures Inv(TurnsRun(f, first, turns)) && |TurnsRun(f, first, turns).gs| == |f.gs|
    decreases |turns|
  {
    if turns != [] {
      match turns[0] {
        case MainTurn => MainInv(f, first);
        case GoroutineTurn(i, work) =>
          if i < |f.gs| {
            GoroutineInv(f, i, work);
          }
      }
      TurnsInv(TurnStep(f, first, turns[0]), first, turns[1..]);
    }
  }

  /** Main result, for a fan-out over any number of disks, whatever its goroutines do and however they interleave, at
      every moment: sends find room, no Done comes too often or too late, somebody can step until the call has
      returned; and when it has, every goroutine has sent one response and finished, and the call has succeeded
      exactly when all responses are nil. */
  lemma EveryRunIsFaithful<L>(n: nat, first: L, turns: seq<Turn<L>>)
    ensures var f := TurnsRun(Begin<L>(n), first, turns);
            && |f.gs| == n
            && (forall i :: 0 <= i < n && f.gs[i].Running? ==> |f.chan| < n)
            && (forall i :: 0 <= i < n && Pending(f.gs[i]) ==> f.wg > 0 && !f.main.Returned?)
            && (f.main.Returned? || MainStep(f, first) != f ||
                exists i :: 0 <= i < n && Pending(f.gs[i]) && GoroutineStep(f, i, Reply(Ok)) != f)
            && (f.main.Returned? ==>
                  && |f.chan| == n && (forall i :: 0 <= i < n ==> f.gs[i].Finished?)
                  && (f.main.success <==> forall i :: 0 <= i < n ==> f.gs[i].response.Ok?))
  {
    var f := TurnsRun(Begin<L>(n), first, turns);
    BeginInv<L>(n);
    TurnsInv(Begin<L>(n), first, turns);
    forall i | 0 <= i < n && f.gs[i].Running? ensures |f.chan| < n {
      SendNeverBlocks(f, i);
    }
    forall i | 0 <= i < n && Pending(f.gs[i]) ensures f.wg > 0 && !f.main.Returned? {
      PendingPositive(f, i);
    }
    if f.main.Returned? {
      ReturnedMeansAllResponded(f);
    } else {
      NeverStuck(f, first);
    }
  }
}
