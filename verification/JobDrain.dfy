/** Shutting the job pipeline down: the service drives the pool only by the pool's own steps, and once the
    queue is closed the workers finish what was accepted. */
module JobDrain {
  import opened Collections
  import opened WorkerPool
  import opened Ingestion
  import opened JobLifecycle

  /** The pool step an action takes, if any. */
  function StepOf(s: System, a: Action): Option<Step<Job>>
    requires Can(s, a)
  {
    match a
    case SubmitQueued(u) => Some(Accept(s.uploads[u].job))
    case SubmitHanded(u, w) => Some(HandOff(s.uploads[u].job, w))
    case SubmitFull(u) => Some(Reject(s.uploads[u].job))
    case TakeJob(w) => Some(Take(w))
    case Return(w) => Some(Done(w))
    case PoolAction(step) => Some(step)
    case _ => None
  }

  /** Every action leaves the pool alone or takes one enabled step of it. */
  lemma PoolMovesByItsSteps(s: System, a: Action)
    requires Can(s, a)
    ensures match StepOf(s, a)
      case None => Do(s, a).pool == s.pool
      case Some(step) => Enabled(s.pool, step) && Do(s, a).pool == Apply(s.pool, step)
  {
    hide UpdateJob, FindByHash, FindLatest, CreateDocument, CreateJob;
  }

  lemma ActionKeepsPool(s: System, a: Action)
    requires Inv(s.pool) && Can(s, a)
    ensures Inv(Do(s, a).pool)
    ensures Do(s, a).pool == s.pool || exists step :: Enabled(s.pool, step) && Do(s, a).pool == Apply(s.pool, step)
  {
    PoolMovesByItsSteps(s, a);
    hide Inv, Can, Do, Enabled, Apply;
    if StepOf(s, a).Some? { StepKeepsInv(s.pool, StepOf(s, a).value); }
  }

  lemma {:induction false} RunKeepsPool(workers: nat, queueSize: nat, actions: seq<Action>)
    requires Run(Initial(workers, queueSize), actions)
    ensures Inv(Reached(Initial(workers, queueSize), actions).pool)
  {
    if actions != [] {
      RunKeepsPool(workers, queueSize, actions[..|actions| - 1]);
      ActionKeepsPool(Reached(Initial(workers, queueSize), actions[..|actions| - 1]), actions[|actions| - 1]);
    }
  }

  // ---------------------------------------------------------------- what a stopped pool left

  lemma StoppedFinishesJob(s: System, id: string)
    requires Lifecycle(s) && Inv(s.pool) && Stopped(s.pool) && !s.pool.cancelled && s.pool.workers != []
    requires id in s.jobs.byId && id in s.where
    ensures Terminal(s.jobs.byId[id].status) || s.where[id] == Rejected || s.where[id].Unsubmitted?
  {
    assert s.pool.workers[0] in s.pool.workers;
    assert s.pool.queue == [];
    LifecycleElim(s);
    hide Inv, Lifecycle, QueuePlaced, UploadsPlaced;
    assert JobOk(s, id);
    assert forall w: nat | w < |s.pool.workers| :: s.pool.workers[w] in s.pool.workers;
  }

  /** When the pool has drained after Stop, with a worker and without a cancellation, every accepted job
      is finished: what is left pending was never accepted. */
  lemma DrainFinishesJobs(workers: nat, queueSize: nat, actions: seq<Action>, id: string)
    requires Run(Initial(workers, queueSize), actions)
    requires var s := Reached(Initial(workers, queueSize), actions);
      && Stopped(s.pool) && !s.pool.cancelled && s.pool.workers != []
      && id in s.jobs.byId && id in s.where
    ensures var s := Reached(Initial(workers, queueSize), actions);
      Terminal(s.jobs.byId[id].status) || s.where[id] == Rejected || s.where[id].Unsubmitted?
  {
    RunKeepsLifecycle(workers, queueSize, actions);
    RunKeepsPool(workers, queueSize, actions);
    hide *;
    StoppedFinishesJob(Reached(Initial(workers, queueSize), actions), id);
  }

  // ---------------------------------------------------------------- the drain ends

  /** The actions of the workers' goroutines. */
  predicate ByWorkers(a: Action) {
    WorkerAction(a) || a.TakeJob? || a.Return? || (a.PoolAction? && ByWorker(a.step))
  }

  function StageWeight(stage: Stage): nat {
    match stage
    case Fresh => 6
    case Started => 5
    case Loaded(_) => 4
    case GotText(_) => 3
    case Sent(_) => 2
    case Over => 1
  }

  function Weight(works: map<nat, Work>, workers: seq<Worker<Job>>, w: nat): nat
    requires w < |workers|
  {
    match workers[w]
    case Idle => 1
    case Busy(_) => 1 + if w in works then StageWeight(works[w].stage) else 0
    case Exited => 0
  }

  function Weights(works: map<nat, Work>, workers: seq<Worker<Job>>, n: nat): nat
    requires n <= |workers|
  {
    if n == 0 then 0 else Weights(works, workers, n - 1) + Weight(works, workers, n - 1)
  }

  /** The steps left to the workers: a queued job takes up to eight. */
  function Remaining(s: System): nat {
    8 * |s.pool.queue| + Weights(s.works, s.pool.workers, |s.pool.workers|)
  }

  /** The two states agree on all workers but `w`. */
  ghost predicate OnlyWorker(
    works: map<nat, Work>, workers: seq<Worker<Job>>, works': map<nat, Work>, workers': seq<Worker<Job>>, w: nat)
  {
    && |workers'| == |workers| && w < |workers|
    && forall v: nat | v < |workers| && v != w ::
         workers'[v] == workers[v] && (v in works' <==> v in works) && (v in works ==> works'[v] == works[v])
  }

  lemma {:induction false} WeightsChange(
    works: map<nat, Work>, workers: seq<Worker<Job>>, works': map<nat, Work>, workers': seq<Worker<Job>>,
    w: nat, n: nat)
    requires OnlyWorker(works, workers, works', workers', w) && n <= |workers|
    ensures n <= w ==> Weights(works', workers', n) == Weights(works, workers, n)
    ensures n > w ==> Weights(works', workers', n) + Weight(works, workers, w)
                      == Weights(works, workers, n) + Weight(works', workers', w)
  {
    if n > 0 {
      WeightsChange(works, workers, works', workers', w, n - 1);
      assert n - 1 != w ==> Weight(works', workers', n - 1) == Weight(works, workers, n - 1);
      hide StageWeight;
    }
  }

  /** A worker moves: what is left changes by its weight and the queue's. */
  lemma WorkerMoves(s: System, t: System, w: nat)
    requires OnlyWorker(s.works, s.pool.workers, t.works, t.pool.workers, w)
    requires 8 * |t.pool.queue| + Weight(t.works, t.pool.workers, w)
             < 8 * |s.pool.queue| + Weight(s.works, s.pool.workers, w)
    ensures Remaining(t) < Remaining(s)
  {
    WeightsChange(s.works, s.pool.workers, t.works, t.pool.workers, w, |s.pool.workers|);
    hide Weight, Weights;
  }

  /** A busy worker advances to another stage of its job. */
  lemma StageMoves(s: System, t: System, w: nat)
    requires w in s.works && w < |s.pool.workers| && s.pool.workers[w].Busy?
    requires t.pool == s.pool && w in t.works && t.works == s.works[w := t.works[w]]
    requires StageWeight(t.works[w].stage) < StageWeight(s.works[w].stage)
    ensures Remaining(t) < Remaining(s)
  {
    hide StageWeight, Remaining;
    WorkerMoves(s, t, w);
  }

  lemma BusyWorker(s: System, w: nat)
    requires Lifecycle(s) && w in s.works
    ensures w < |s.pool.workers| && s.pool.workers[w].Busy?
  {
    LifecycleElim(s);
    hide Lifecycle, QueuePlaced, WorksPlaced, UploadsPlaced, JobOk;
  }

  lemma StageAction(s: System, a: Action)
    requires Can(s, a) && WorkerAction(a)
    ensures var w, t := a.w, Do(s, a);
      && w in s.works && t.pool == s.pool && w in t.works && t.works == s.works[w := t.works[w]]
      && StageWeight(t.works[w].stage) < StageWeight(s.works[w].stage)
  {
    hide UpdateJob, MarkFailed, MarkCompleted, MarkExtracting, MarkEmbedding, WithText;
  }

  lemma TakeLowers(s: System, w: nat)
    requires Enabled(s.pool, Take(w))
    ensures Remaining(AfterTake(s, w)) < Remaining(s)
  {
    TakeUnfold(s, w);
    var t := AfterTake(s, w);
    assert OnlyWorker(s.works, s.pool.workers, t.works, t.pool.workers, w);
    hide AfterTake, Remaining, Weights, OnlyWorker, Enabled;
    WorkerMoves(s, t, w);
  }

  lemma ReturnLowers(s: System, w: nat)
    requires AtStage(s, w, Over) && Enabled(s.pool, Step<Job>.Done(w))
    ensures Remaining(AfterReturn(s, w)) < Remaining(s)
  {
    ReturnUnfold(s, w);
    assert s.pool.workers[w].Busy?;
    var t := AfterReturn(s, w);
    assert OnlyWorker(s.works, s.pool.workers, t.works, t.pool.workers, w);
    hide AfterReturn, Remaining, Weights, OnlyWorker, Enabled;
    WorkerMoves(s, t, w);
  }

  lemma ExitLowers(s: System, step: Step<Job>)
    requires Enabled(s.pool, step) && (step.ExitDrained? || step.ExitCancelled?)
    ensures Remaining(s.(pool := Apply(s.pool, step))) < Remaining(s)
  {
    var t := s.(pool := Apply(s.pool, step));
    assert OnlyWorker(s.works, s.pool.workers, t.works, t.pool.workers, step.w);
    assert t.pool.queue == s.pool.queue && s.pool.workers[step.w] == Idle && t.pool.workers[step.w] == Exited;
    hide Remaining, Weights, OnlyWorker, Enabled, Apply;
    WorkerMoves(s, t, step.w);
  }

  lemma OtherActions(s: System, a: Action)
    requires s.pool.closed && s.pool.workers != [] && Can(s, a) && !ByWorkers(a)
    ensures Do(s, a).works == s.works && Do(s, a).pool.queue == s.pool.queue && Do(s, a).pool.workers == s.pool.workers
  {
    hide UpdateJob, FindByHash, FindLatest, CreateDocument, CreateJob;
  }

  /** Once the queue is closed every action of a worker lowers what is left and no other action raises it. */
  lemma DrainProgresses(s: System, a: Action)
    requires Lifecycle(s) && s.pool.closed && s.pool.workers != [] && Can(s, a)
    ensures if ByWorkers(a) then Remaining(Do(s, a)) < Remaining(s) else Remaining(Do(s, a)) == Remaining(s)
    ensures Do(s, a).pool.closed && Do(s, a).pool.workers != []
  {
    StaysClosed(s, a);
    hide Enabled, Apply, Lifecycle;
    if !ByWorkers(a) {
      OtherActions(s, a);
    } else if WorkerAction(a) {
      StageAction(s, a);
      hide *;
      BusyWorker(s, a.w);
      StageMoves(s, Do(s, a), a.w);
    } else {
      PoolActionLowers(s, a);
    }
  }

  lemma PoolActionLowers(s: System, a: Action)
    requires Can(s, a) && ByWorkers(a) && !WorkerAction(a)
    ensures Remaining(Do(s, a)) < Remaining(s)
  {
    hide Remaining, Enabled, Apply;
    match a
    case TakeJob(w) => TakeLowers(s, w);
    case Return(w) => ReturnLowers(s, w);
    case PoolAction(step) => ExitLowers(s, step);
  }

  lemma StaysClosed(s: System, a: Action)
    requires s.pool.closed && s.pool.workers != [] && Can(s, a)
    ensures Do(s, a).pool.closed && Do(s, a).pool.workers != []
  {
    PoolMovesByItsSteps(s, a);
    hide Can, Do;
  }

  /** What a busy worker does next, if the two calls answer with an error. */
  function NextOf(w: nat, stage: Stage): Action {
    match stage
    case Fresh => StartExtract(w)
    case Started => Load(w)
    case Loaded(_) => ExtractReturns(w, ExtractError(""))
    case GotText(_) => StartEmbed(w)
    case Sent(_) => EmbedReturns(w, EmbedError(""))
    case Over => Return(w)
  }

  lemma BusyCanAct(s: System, w: nat)
    requires w in s.works && w < |s.pool.workers| && s.pool.workers[w].Busy?
    ensures var a := NextOf(w, s.works[w].stage); Can(s, a) && ByWorkers(a)
  {
    assert Enabled(s.pool, Step<Job>.Done(w));
    hide Enabled;
  }

  lemma IdleCanAct(s: System, w: nat)
    requires s.pool.closed && w < |s.pool.workers| && s.pool.workers[w].Idle?
    ensures var a := if s.pool.queue != [] then TakeJob(w) else PoolAction(ExitDrained(w)); Can(s, a) && ByWorkers(a)
  {
  }

  lemma BusyHasWork(s: System, w: nat)
    requires Lifecycle(s) && w < |s.pool.workers| && s.pool.workers[w].Busy?
    ensures w in s.works
  {
    LifecycleElim(s);
    hide Lifecycle, QueuePlaced, WorksPlaced, UploadsPlaced, JobOk;
  }

  lemma Unreturned(workers: seq<Worker<Job>>) returns (w: nat)
    requires exists v :: v in workers && !v.Exited?
    ensures w < |workers| && !workers[w].Exited?
  {
    var v :| v in workers && !v.Exited?;
    w :| w < |workers| && workers[w] == v;
  }

  /** The drain never gets stuck: while a worker has not returned, some worker can act. */
  lemma DrainIsNeverStuck(s: System)
    requires Lifecycle(s) && s.pool.closed && !Stopped(s.pool)
    ensures exists a :: Can(s, a) && ByWorkers(a)
  {
    var w := Unreturned(s.pool.workers);
    hide *;
    if s.pool.workers[w].Busy? {
      BusyHasWork(s, w);
      BusyCanAct(s, w);
    } else {
      IdleCanAct(s, w);
    }
  }

  function OfWorkers(): Action -> bool {
    a => ByWorkers(a)
  }

  /** After Close the workers act at most Remaining more times, whatever uploads do meanwhile. */
  lemma {:induction false} DrainTerminates(s: System, actions: seq<Action>)
    requires Lifecycle(s) && s.pool.closed && s.pool.workers != [] && Run(s, actions)
    ensures |Filter(actions, OfWorkers())| + Remaining(Reached(s, actions)) <= Remaining(s)
    ensures var t := Reached(s, actions); Lifecycle(t) && t.pool.closed && t.pool.workers != []
  {
    if actions != [] {
      var init, last := actions[..|actions| - 1], actions[|actions| - 1];
      DrainTerminates(s, init);
      hide Lifecycle, Remaining, Can, Do, ByWorkers;
      DrainProgresses(Reached(s, init), last);
      ActionKeepsLifecycle(Reached(s, init), last);
    }
  }

  /** From every state after Close the workers alone can finish the drain. */
  lemma DrainCanFinish(s: System) returns (actions: seq<Action>)
    requires Lifecycle(s) && s.pool.closed && s.pool.workers != []
    ensures Run(s, actions) && Stopped(Reached(s, actions).pool) && forall a | a in actions :: ByWorkers(a)
    decreases Remaining(s)
  {
    assert Run(s, []);
    if Stopped(s.pool) {
      actions := [];
    } else {
      DrainIsNeverStuck(s);
      hide Lifecycle, Remaining, Can, Do, ByWorkers, Stopped;
      var a :| Can(s, a) && ByWorkers(a);
      DrainProgresses(s, a);
      ActionKeepsLifecycle(s, a);
      Extend(s, [], a);
      assert [] + [a] == [a];
      hide Run, Reached;
      var rest := DrainCanFinish(Do(s, a));
      Chain(s, [a], rest);
      actions := [a] + rest;
    }
  }
}
