/** gateway-go/internal/worker/pool.go as a state machine over its goroutines' atomic actions: channel
    sends and receives, the start and end of one item's processing, closing and cancellation. */
module WorkerPool {
  /** A worker is not processing (on its way to its select or waiting there), processes an item, or has
      returned. The channel hands an item to a worker waiting there at once (HandOff); one still on its way
      takes it from the buffer (Accept, then Take). */
  datatype Worker<T> = Idle | Busy(item: T) | Exited

  /** `accepted`, `taken` and `processed` are histories: the items Submit accepted, in that order, the
      items workers picked up, in that order, and the items whose processing returned. */
  datatype Pool<T> = Pool(
    size: nat, capacity: nat, queue: seq<T>, workers: seq<Worker<T>>, closed: bool, cancelled: bool,
    accepted: seq<T>, taken: seq<T>, processed: seq<T>)

  function NewPool<T>(workers: nat, queueSize: nat): Pool<T> {
    Pool(workers, queueSize, [], [], false, false, [], [], [])
  }

  datatype Step<T> =
    | Start
    | Accept(item: T)           // the send finds buffer space
    | HandOff(item: T, w: nat)  // the send meets a worker waiting on an empty channel
    | Reject(item: T)           // neither: the default case, ErrQueueFull
    | Take(w: nat)
    | Done(w: nat)
    | ExitDrained(w: nat)       // receive on the closed and empty channel
    | ExitCancelled(w: nat)     // the select's ctx.Done case
    | Close                     // Stop closes the queue
    | Cancel

  predicate IsIdle<T>(p: Pool<T>, w: nat) {
    w < |p.workers| && p.workers[w].Idle?
  }

  /** A send on the closed queue, and a second Close, would panic: they are no steps. */
  predicate Enabled<T>(p: Pool<T>, step: Step<T>) {
    match step
    case Start => p.workers == []
    case Accept(_) => !p.closed && |p.queue| < p.capacity
    case HandOff(_, w) => !p.closed && p.queue == [] && IsIdle(p, w)
    case Reject(_) => !p.closed && |p.queue| >= p.capacity
    case Take(w) => p.queue != [] && IsIdle(p, w)
    case Done(w) => w < |p.workers| && p.workers[w].Busy?
    case ExitDrained(w) => p.closed && p.queue == [] && IsIdle(p, w)
    case ExitCancelled(w) => p.cancelled && IsIdle(p, w)
    case Close => !p.closed
    case Cancel => true
  }

  function Apply<T>(p: Pool<T>, step: Step<T>): Pool<T>
    requires Enabled(p, step)
  {
    match step
    case Start => p.(workers := seq(p.size, i => Idle))
    case Accept(item) => p.(queue := p.queue + [item], accepted := p.accepted + [item])
    case HandOff(item, w) =>
      p.(workers := p.workers[w := Busy(item)], accepted := p.accepted + [item], taken := p.taken + [item])
    case Reject(_) => p
    case Take(w) =>
      var item := p.queue[0];
      p.(queue := p.queue[1..], workers := p.workers[w := Busy(item)], taken := p.taken + [item])
    case Done(w) =>
      p.(workers := p.workers[w := Idle], processed := p.processed + [p.workers[w].item])
    case ExitDrained(w) => p.(workers := p.workers[w := Exited])
    case ExitCancelled(w) => p.(workers := p.workers[w := Exited])
    case Close => p.(closed := true)
    case Cancel => p.(cancelled := true)
  }

  predicate Possible<T>(p: Pool<T>, steps: seq<Step<T>>)
    decreases |steps|, 0
  {
    steps != [] ==>
      && Possible(p, steps[..|steps| - 1])
      && Enabled(After(p, steps[..|steps| - 1]), steps[|steps| - 1])
  }

  function After<T>(p: Pool<T>, steps: seq<Step<T>>): Pool<T>
    requires Possible(p, steps)
    decreases |steps|, 1
  {
    if steps == [] then p else Apply(After(p, steps[..|steps| - 1]), steps[|steps| - 1])
  }

  // ---------------------------------------------------------------- conservation

  function ItemOf<T(==)>(v: Worker<T>): multiset<T> {
    match v case Busy(item) => multiset{item} case _ => multiset{}
  }

  /** The items in flight. */
  function InFlight<T(==)>(workers: seq<Worker<T>>): multiset<T> {
    if workers == [] then multiset{} else InFlight(workers[..|workers| - 1]) + ItemOf(workers[|workers| - 1])
  }

  ghost predicate SomeExited<T>(workers: seq<Worker<T>>) {
    exists v :: v in workers && v.Exited?
  }

  /** First come, first taken; nothing lost or duplicated; queue and concurrency bounded; a worker only
      left because of a cancellation or a drained queue. */
  ghost predicate Inv<T>(p: Pool<T>) {
    && p.accepted == p.taken + p.queue
    && multiset(p.taken) == InFlight(p.workers) + multiset(p.processed)
    && |p.queue| <= p.capacity
    && (p.workers == [] || |p.workers| == p.size)
    && (p.workers == [] ==> p.taken == [] && p.processed == [])
    && (SomeExited(p.workers) ==> p.cancelled || (p.closed && p.queue == []))
  }

  lemma {:induction false} InFlightBound<T(!new)>(workers: seq<Worker<T>>)
    ensures |InFlight(workers)| <= |workers|
  {
    if workers != [] {
      InFlightBound(workers[..|workers| - 1]);
    }
  }

  /** Replacing one worker exchanges its item. */
  lemma {:induction false} InFlightUpdate<T(!new)>(workers: seq<Worker<T>>, w: nat, v: Worker<T>)
    requires w < |workers|
    ensures InFlight(workers[w := v]) + ItemOf(workers[w]) == InFlight(workers) + ItemOf(v)
  {
    hide ItemOf;
    var n := |workers| - 1;
    if w == n {
      assert workers[w := v][..n] == workers[..n];
      Swap(InFlight(workers[..n]), ItemOf(v), ItemOf(workers[n]));
    } else {
      assert workers[w := v][..n] == workers[..n][w := v];
      InFlightUpdate(workers[..n], w, v);
      var last := ItemOf(workers[n]);
      Swap(InFlight(workers[..n][w := v]), last, ItemOf(workers[w]));
      Swap(InFlight(workers[..n]), last, ItemOf(v));
    }
  }

  lemma Swap<T(!new)>(a: multiset<T>, b: multiset<T>, c: multiset<T>)
    ensures (a + b) + c == (a + c) + b
  {
  }

  lemma {:induction false} InFlightIdle<T(!new)>(n: nat)
    ensures InFlight<T>(seq(n, i => Idle)) == multiset{}
  {
    if n > 0 {
      assert seq(n, i => Worker<T>.Idle)[..n - 1] == seq(n - 1, i => Worker<T>.Idle);
      InFlightIdle<T>(n - 1);
    }
  }

  lemma ExitedUpdate<T(!new)>(workers: seq<Worker<T>>, w: nat, v: Worker<T>)
    requires w < |workers|
    ensures SomeExited(workers[w := v]) ==> SomeExited(workers) || v.Exited?
  {
    if u :| u in workers[w := v] && u.Exited? {
      assert u == v || u in workers;
    }
  }

  lemma {:induction false} TakenUp<T(!new)>(taken: seq<T>, processed: seq<T>, workers: seq<Worker<T>>, w: nat, item: T)
    requires w < |workers| && workers[w].Idle? && multiset(taken) == InFlight(workers) + multiset(processed)
    ensures multiset(taken + [item]) == InFlight(workers[w := Busy(item)]) + multiset(processed)
  {
    InFlightUpdate(workers, w, Busy(item));
    hide InFlight;
    Swap(InFlight(workers), multiset{item}, multiset(processed));
  }

  lemma TakeKeepsInv<T(!new)>(p: Pool<T>, w: nat)
    requires Inv(p) && Enabled(p, Take(w))
    ensures Inv(Apply(p, Take(w)))
  {
    var item := p.queue[0];
    TakenUp(p.taken, p.processed, p.workers, w, item);
    ExitedUpdate(p.workers, w, Busy(item));
    hide InFlight, SomeExited;
    assert p.queue == [item] + p.queue[1..];
    assert p.taken + p.queue == (p.taken + [item]) + p.queue[1..];
  }

  lemma HandOffKeepsInv<T(!new)>(p: Pool<T>, item: T, w: nat)
    requires Inv(p) && Enabled(p, HandOff(item, w))
    ensures Inv(Apply(p, HandOff(item, w)))
  {
    TakenUp(p.taken, p.processed, p.workers, w, item);
    ExitedUpdate(p.workers, w, Busy(item));
    hide InFlight, SomeExited;
    assert p.taken + p.queue == p.taken && (p.taken + [item]) + p.queue == p.taken + [item];
  }

  lemma DoneKeepsInv<T(!new)>(p: Pool<T>, w: nat)
    requires Inv(p) && Enabled(p, Done(w))
    ensures Inv(Apply(p, Done(w)))
  {
    var item := p.workers[w].item;
    InFlightUpdate(p.workers, w, Idle);
    ExitedUpdate(p.workers, w, Idle);
    hide InFlight, SomeExited;
    var left := InFlight(p.workers[w := Idle]);
    assert InFlight(p.workers) == left + multiset{item};
    Swap(left, multiset{item}, multiset(p.processed));
    assert multiset(p.processed + [item]) == multiset(p.processed) + multiset{item};
  }

  lemma ExitKeepsInv<T(!new)>(p: Pool<T>, w: nat)
    requires Inv(p) && IsIdle(p, w) && (p.cancelled || (p.closed && p.queue == []))
    ensures Inv(p.(workers := p.workers[w := Exited]))
  {
    InFlightUpdate(p.workers, w, Exited);
    hide InFlight, SomeExited;
    Unchanged(InFlight(p.workers[w := Exited]), InFlight(p.workers), ItemOf(p.workers[w]), ItemOf(Worker<T>.Exited));
  }

  lemma Unchanged<T(!new)>(a: multiset<T>, b: multiset<T>, c: multiset<T>, d: multiset<T>)
    requires a + c == b + d && c == multiset{} && d == multiset{}
    ensures a == b
  {
    assert a + c == a && b + d == b;
  }

  lemma StartKeepsInv<T(!new)>(p: Pool<T>)
    requires Inv(p) && Enabled(p, Start)
    ensures Inv(Apply(p, Start))
  {
    InFlightIdle<T>(p.size);
    assert forall v | v in Apply(p, Start).workers :: v.Idle?;
  }

  lemma StepKeepsInv<T(!new)>(p: Pool<T>, step: Step<T>)
    requires Inv(p) && Enabled(p, step)
    ensures Inv(Apply(p, step))
  {
    match step
    case Start => StartKeepsInv(p);
    case HandOff(item, w) => HandOffKeepsInv(p, item, w);
    case Take(w) => TakeKeepsInv(p, w);
    case Done(w) => DoneKeepsInv(p, w);
    case ExitDrained(w) => ExitKeepsInv(p, w);
    case ExitCancelled(w) => ExitKeepsInv(p, w);
    case Accept(item) => assert p.accepted + [item] == p.taken + (p.queue + [item]);
    case _ =>
  }

  lemma {:induction false} RunKeepsInv<T(!new)>(workers: nat, queueSize: nat, steps: seq<Step<T>>)
    requires Possible(NewPool(workers, queueSize), steps)
    ensures var p := After(NewPool(workers, queueSize), steps);
      Inv(p) && p.size == workers && p.capacity == queueSize
  {
    if steps != [] {
      var before := After(NewPool(workers, queueSize), steps[..|steps| - 1]);
      RunKeepsInv<T>(workers, queueSize, steps[..|steps| - 1]);
      StepKeepsInv(before, steps[|steps| - 1]);
      hide Inv;
    }
  }

  /** In every reachable state the accepted items are exactly those queued, in flight and processed;
      they are taken in order; the queue is within its capacity and at most `size` items are in flight. */
  lemma RunConserves<T(!new)>(workers: nat, queueSize: nat, steps: seq<Step<T>>)
    requires Possible(NewPool(workers, queueSize), steps)
    ensures var p := After(NewPool(workers, queueSize), steps);
      && Inv(p) && p.size == workers && p.capacity == queueSize
      && multiset(p.accepted) == multiset(p.queue) + InFlight(p.workers) + multiset(p.processed)
      && p.taken <= p.accepted
      && |p.queue| <= queueSize
      && |InFlight(p.workers)| <= workers
  {
    RunKeepsInv<T>(workers, queueSize, steps);
    InFlightBound(After(NewPool(workers, queueSize), steps).workers);
  }

  // ---------------------------------------------------------------- stopping

  /** Stop has closed the queue and every worker has returned: Stop returns nil. */
  ghost predicate Stopped<T>(p: Pool<T>) {
    p.closed && forall v | v in p.workers :: v.Exited?
  }

  lemma {:induction false} NothingInFlight<T(!new)>(workers: seq<Worker<T>>)
    requires forall v | v in workers :: v.Exited?
    ensures InFlight(workers) == multiset{}
  {
    if workers != [] {
      assert workers[|workers| - 1] in workers;
      NothingInFlight(workers[..|workers| - 1]);
    }
  }

  /** When Stop has returned, what was not processed is exactly what is left in the queue; without a
      cancellation everything was processed, exactly once, if and only if there was a worker or no work. */
  lemma StopDrains<T(!new)>(p: Pool<T>)
    requires Inv(p) && Stopped(p)
    ensures multiset(p.accepted) == multiset(p.processed) + multiset(p.queue)
    ensures !p.cancelled && p.workers != [] ==> multiset(p.processed) == multiset(p.accepted)
    ensures !p.cancelled ==>
      (multiset(p.processed) == multiset(p.accepted) <==> p.workers != [] || p.accepted == [])
  {
    NothingInFlight(p.workers);
    if p.workers != [] {
      assert p.workers[0] in p.workers;
    }
    assert |multiset(p.accepted)| == |multiset(p.processed)| + |multiset(p.queue)|;
  }

  /** Counts the steps left to the workers. */
  function Measure<T>(p: Pool<T>): nat {
    2 * |p.queue| + Load(p.workers)
  }

  function Load<T>(workers: seq<Worker<T>>): nat {
    if workers == [] then 0
    else Load(workers[..|workers| - 1]) + LoadOf(workers[|workers| - 1])
  }

  function LoadOf<T>(v: Worker<T>): nat {
    match v case Idle => 1 case Busy(_) => 2 case Exited => 0
  }

  lemma {:induction false} LoadUpdate<T(!new)>(workers: seq<Worker<T>>, w: nat, v: Worker<T>)
    requires w < |workers|
    ensures Load(workers[w := v]) + LoadOf(workers[w]) == Load(workers) + LoadOf(v)
  {
    var n := |workers| - 1;
    if w == n {
      assert workers[w := v][..n] == workers[..n];
    } else {
      assert workers[w := v][..n] == workers[..n][w := v];
      LoadUpdate(workers[..n], w, v);
    }
  }

  predicate ByWorker<T>(step: Step<T>) {
    step.Take? || step.Done? || step.ExitDrained? || step.ExitCancelled?
  }

  /** Once the queue is closed every further step but a cancellation is a worker's and makes progress. */
  lemma DrainProgresses<T(!new)>(p: Pool<T>, step: Step<T>)
    requires p.closed && p.workers != [] && Enabled(p, step)
    ensures step == Cancel || ByWorker(step)
    ensures ByWorker(step) ==> Measure(Apply(p, step)) < Measure(p)
    ensures step == Cancel ==> Measure(Apply(p, step)) == Measure(p)
    ensures Apply(p, step).closed && Apply(p, step).workers != []
  {
    match step
    case Take(w) => LoadUpdate(p.workers, w, Busy(p.queue[0]));
    case Done(w) => LoadUpdate(p.workers, w, Idle);
    case ExitDrained(w) => LoadUpdate(p.workers, w, Exited);
    case ExitCancelled(w) => LoadUpdate(p.workers, w, Exited);
    case _ =>
  }

  /** The drain never gets stuck: while a worker is left, some worker can move. */
  lemma DrainIsNeverStuck<T(!new)>(p: Pool<T>)
    requires p.closed && !Stopped(p)
    ensures exists step :: Enabled(p, step) && ByWorker(step)
  {
    var v :| v in p.workers && !v.Exited?;
    var w :| 0 <= w < |p.workers| && p.workers[w] == v;
    var step := if v.Busy? then Done(w) else if p.queue != [] then Take(w) else ExitDrained(w);
    assert Enabled(p, step) && ByWorker(step);
  }

  /** After Close the workers take at most Measure more steps, so Stop's wait ends. */
  lemma {:induction false} DrainTerminates<T(!new)>(p: Pool<T>, steps: seq<Step<T>>)
    requires p.closed && p.workers != [] && Possible(p, steps)
    requires forall step | step in steps :: step != Cancel
    ensures |steps| + Measure(After(p, steps)) <= Measure(p)
    ensures After(p, steps).closed && After(p, steps).workers != []
  {
    if steps != [] {
      var init, last := steps[..|steps| - 1], steps[|steps| - 1];
      assert last in steps && forall step | step in init :: step in steps;
      DrainTerminates(p, init);
      DrainProgresses(After(p, init), last);
    }
  }

  // ---------------------------------------------------------------- order and rejection

  /** What the only worker holds. */
  function Held<T>(workers: seq<Worker<T>>): seq<T> {
    if |workers| == 1 && workers[0].Busy? then [workers[0].item] else []
  }

  lemma SingleStep<T(!new)>(p: Pool<T>, step: Step<T>)
    requires p.size == 1 && |p.workers| <= 1 && Enabled(p, step)
    requires p.taken == p.processed + Held(p.workers)
    ensures var q := Apply(p, step); q.size == 1 && |q.workers| <= 1 && q.taken == q.processed + Held(q.workers)
  {
  }

  /** A single worker also finishes the items in the order they were accepted. */
  lemma {:induction false} SingleWorkerIsFifo<T(!new)>(queueSize: nat, steps: seq<Step<T>>)
    requires Possible(NewPool(1, queueSize), steps)
    ensures var p := After(NewPool(1, queueSize), steps);
      && p.size == 1 && |p.workers| <= 1
      && p.taken == p.processed + Held(p.workers) && p.processed <= p.accepted
  {
    if steps != [] {
      SingleWorkerIsFifo<T>(queueSize, steps[..|steps| - 1]);
      SingleStep(After(NewPool(1, queueSize), steps[..|steps| - 1]), steps[|steps| - 1]);
    }
    RunConserves<T>(1, queueSize, steps);
  }

  /** An item can be refused while a worker is not processing. */
  ghost predicate RefusedBesideIdle<T>(workers: nat, queueSize: nat, steps: seq<Step<T>>, item: T) {
    && Possible(NewPool(workers, queueSize), steps)
    && Enabled(After(NewPool(workers, queueSize), steps), Reject(item))
    && exists w :: IsIdle(After(NewPool(workers, queueSize), steps), w)
  }

  lemma OneMoreStep<T(!new)>(p: Pool<T>, steps: seq<Step<T>>, step: Step<T>)
    requires Possible(p, steps) && Enabled(After(p, steps), step)
    ensures Possible(p, steps + [step]) && After(p, steps + [step]) == Apply(After(p, steps), step)
  {
    assert (steps + [step])[..|steps|] == steps;
    hide Enabled, Apply;
  }

  /** A run that fills the buffer before any worker takes an item. */
  lemma {:induction false} FillBuffer<T(!new)>(workers: nat, queueSize: nat, item: T, n: nat)
    returns (steps: seq<Step<T>>)
    requires n <= queueSize
    ensures Possible(NewPool(workers, queueSize), steps)
    ensures var p := After(NewPool(workers, queueSize), steps);
      && |p.queue| == n && p.capacity == queueSize && !p.closed
      && |p.workers| == workers && forall w | 0 <= w < workers :: p.workers[w].Idle?
  {
    var start := NewPool<T>(workers, queueSize);
    if n == 0 {
      assert Possible(start, []);
      OneMoreStep(start, [], Start);
      steps := [] + [Start];
    } else {
      steps := FillBuffer(workers, queueSize, item, n - 1);
      OneMoreStep(start, steps, Accept(item));
      steps := steps + [Accept(item)];
    }
  }

  /** Submit's comment names two conditions for ErrQueueFull, all workers busy and the buffer full; the code
      needs only the second. A pool of any size can refuse beside a worker that is not processing, exactly
      when it has workers at all. */
  lemma RefusesBesideIdleWorker<T(!new)>(workers: nat, queueSize: nat, item: T)
    ensures (exists steps :: RefusedBesideIdle(workers, queueSize, steps, item)) <==> workers > 0
  {
    if workers > 0 {
      var steps := FillBuffer(workers, queueSize, item, queueSize);
      assert IsIdle(After(NewPool(workers, queueSize), steps), 0);
      assert RefusedBesideIdle(workers, queueSize, steps, item);
    }
    forall steps | RefusedBesideIdle(workers, queueSize, steps, item) ensures workers > 0 {
      RunKeepsInv(workers, queueSize, steps);
      hide InFlight;
    }
  }
}
