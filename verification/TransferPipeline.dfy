/** The data path's bounded submission queue with its worker thread and shutdown, as a
    state machine whose steps are the critical sections of the threads involved. Every
    interleaving of callers, worker and destructor is a sequence of these steps. */
module TransferPipeline {
  import opened Blocks

  datatype Request = Request(key: BlockKey, bytes: nat, preferred: nat)

  /** What a caller's future yields. */
  datatype Reply =
    | Backpressure(key: BlockKey)
    | Receipt(key: BlockKey, path: nat)
    | TransferError(key: BlockKey)
    | ShutDown

  /** The transfer backend: it selects a path and answers every submitted request. */
  datatype Backend = Backend(selectPath: Request -> nat, transfer: Request -> Reply)

  function Routed(backend: Backend, request: Request): Request {
    request.(preferred := backend.selectPath(request))
  }

  datatype Worker = Waiting | Holding(id: nat) | Awaiting(id: nat) | Exited

  /** Requests are numbered in the order in which they were made. `accepted` and `submitted`
      record which were queued and which were passed to the backend, in order; `replies`
      records every value ever set on each request's promise. */
  datatype Pipeline = Pipeline(
    capacity: nat,
    queue: seq<nat>,
    shuttingDown: bool,
    worker: Worker,
    issued: seq<Request>,
    accepted: seq<nat>,
    submitted: seq<nat>,
    replies: seq<seq<Reply>>)

  function Start(queueCapacity: nat): Pipeline {
    Pipeline(if queueCapacity == 0 then 1 else queueCapacity, [], false, Waiting, [], [], [], [])
  }

  datatype Step =
    | Transfer(request: Request)  // a caller submits a request
    | Take                        // the worker takes the oldest queued request
    | Submit                      // ... passes it to the backend
    | Forward                     // ... and forwards the backend's answer
    | Exit                        // the worker finds nothing left and returns
    | BeginShutdown               // the destructor announces the shutdown

  predicate Enabled(p: Pipeline, step: Step) {
    match step
    case Transfer(_) => true
    case Take => p.worker == Waiting && p.queue != []
    case Submit => p.worker.Holding?
    case Forward => p.worker.Awaiting? && p.worker.id < |p.issued| && p.worker.id < |p.replies|
    case Exit => p.worker == Waiting && p.shuttingDown && p.queue == []
    case BeginShutdown => true
  }

  function SetValue(replies: seq<seq<Reply>>, id: nat, reply: Reply): seq<seq<Reply>>
    requires id < |replies|
  {
    replies[id := replies[id] + [reply]]
  }

  function Next(p: Pipeline, backend: Backend, step: Step): Pipeline
    requires Enabled(p, step)
  {
    match step
    case Transfer(request) =>
      var id := |p.issued|;
      if |p.queue| >= p.capacity || p.shuttingDown then
        p.(issued := p.issued + [request], replies := p.replies + [[Backpressure(request.key)]])
      else
        p.(issued := p.issued + [request], replies := p.replies + [[]],
           queue := p.queue + [id], accepted := p.accepted + [id])
    case Take => p.(worker := Holding(p.queue[0]), queue := p.queue[1..])
    case Submit => p.(worker := Awaiting(p.worker.id), submitted := p.submitted + [p.worker.id])
    case Forward =>
      var reply := backend.transfer(Routed(backend, p.issued[p.worker.id]));
      p.(worker := Waiting, replies := SetValue(p.replies, p.worker.id, reply))
    case Exit => p.(worker := Exited)
    case BeginShutdown => p.(shuttingDown := true)
  }

  /** The states reached by a sequence of steps, each enabled in its turn. */
  ghost predicate Reaches(p: Pipeline, backend: Backend, steps: seq<Step>, q: Pipeline)
    decreases |steps|
  {
    if steps == [] then p == q
    else Enabled(p, steps[0]) && Reaches(Next(p, backend, steps[0]), backend, steps[1..], q)
  }

  /** Requests whose promise has no value yet. */
  function InFlight(p: Pipeline): seq<nat> {
    (if p.worker.Holding? || p.worker.Awaiting? then [p.worker.id] else []) + p.queue
  }

  function Unsubmitted(p: Pipeline): seq<nat> {
    (if p.worker.Holding? then [p.worker.id] else []) + p.queue
  }

  ghost predicate Ascending(ids: seq<nat>, bound: nat) {
    (forall i, j :: 0 <= i < j < |ids| ==> ids[i] < ids[j]) && forall i :: 0 <= i < |ids| ==> ids[i] < bound
  }

  /** The one value a settled promise holds. */
  ghost predicate Settled(p: Pipeline, backend: Backend, id: nat)
    requires id < |p.issued| && id < |p.replies|
  {
    p.replies[id] == [if id in p.accepted then backend.transfer(Routed(backend, p.issued[id]))
                      else Backpressure(p.issued[id].key)]
  }

  ghost predicate Inv(p: Pipeline, backend: Backend) {
    |p.queue| <= p.capacity &&
    |p.replies| == |p.issued| &&
    Ascending(p.accepted, |p.issued|) &&
    p.accepted == p.submitted + Unsubmitted(p) &&
    (p.worker.Awaiting? ==> p.submitted != [] && p.submitted[|p.submitted| - 1] == p.worker.id) &&
    (p.worker.Exited? ==> p.shuttingDown && p.queue == []) &&
    forall id :: 0 <= id < |p.issued| ==> if id in InFlight(p) then p.replies[id] == [] else Settled(p, backend, id)
  }

  lemma InFlightAccepted(p: Pipeline, backend: Backend, id: nat)
    requires Inv(p, backend) && id in InFlight(p)
    ensures id in p.accepted && id < |p.issued|
  {
    if p.worker.Awaiting? && id == p.worker.id {
      assert p.submitted[|p.submitted| - 1] in p.submitted;
    } else {
      assert id in Unsubmitted(p);
    }
  }

  lemma AscendingSplit(ids: seq<nat>, bound: nat, a: seq<nat>, b: seq<nat>)
    requires Ascending(ids, bound) && ids == a + b
    ensures forall x :: x in a ==> x !in b
  {
    forall x | x in a ensures x !in b {
      var i :| 0 <= i < |a| && a[i] == x;
      forall j | 0 <= j < |b| ensures b[j] != x {
        assert ids[i] == x && ids[|a| + j] == b[j];
      }
    }
  }

  lemma AcceptedKnown(p: Pipeline, backend: Backend)
    requires Inv(p, backend)
    ensures |p.issued| !in p.accepted && forall id :: id in InFlight(p) ==> id < |p.issued|
  {
    forall id | id in InFlight(p) ensures id < |p.issued| {
      InFlightAccepted(p, backend, id);
    }
    forall i | 0 <= i < |p.accepted| ensures p.accepted[i] != |p.issued| {
    }
  }

  lemma TransferKeeps(p: Pipeline, backend: Backend, request: Request)
    requires Inv(p, backend)
    ensures Inv(Next(p, backend, Transfer(request)), backend)
  {
    var q, n := Next(p, backend, Transfer(request)), |p.issued|;
    AcceptedKnown(p, backend);
    forall id | 0 <= id <= n ensures if id in InFlight(q) then q.replies[id] == [] else Settled(q, backend, id) {
      assert id < n ==> (id in InFlight(q) <==> id in InFlight(p)) && (id in q.accepted <==> id in p.accepted);
    }
    assert q.accepted == q.submitted + Unsubmitted(q);
  }

  lemma WorkerKeeps(p: Pipeline, backend: Backend, step: Step)
    requires Inv(p, backend) && Enabled(p, step) && !step.Transfer?
    ensures Inv(Next(p, backend, step), backend)
  {
    var q := Next(p, backend, step);
    match step
    case Take =>
      assert p.queue == [p.queue[0]] + p.queue[1..];
      assert Unsubmitted(q) == Unsubmitted(p) && InFlight(q) == InFlight(p);
    case Submit =>
      assert Unsubmitted(p) == [p.worker.id] + Unsubmitted(q) && InFlight(q) == InFlight(p);
    case Forward =>
      AscendingSplit(p.accepted, |p.issued|, p.submitted, Unsubmitted(p));
      InFlightAccepted(p, backend, p.worker.id);
      assert InFlight(p) == [p.worker.id] + InFlight(q);
    case Exit =>
    case BeginShutdown =>
  }

  lemma {:induction false} RunKeeps(p: Pipeline, backend: Backend, steps: seq<Step>, q: Pipeline)
    requires Inv(p, backend) && Reaches(p, backend, steps, q)
    ensures Inv(q, backend) && q.capacity == p.capacity
    decreases |steps|
  {
    if steps != [] {
      if steps[0].Transfer? {
        TransferKeeps(p, backend, steps[0].request);
      } else {
        WorkerKeeps(p, backend, steps[0]);
      }
      RunKeeps(Next(p, backend, steps[0]), backend, steps[1..], q);
    }
  }

  /** What the destructor does to requests still queued after the worker has been joined. */
  function AfterJoin(p: Pipeline, ids: seq<nat>): Pipeline
    requires forall i :: 0 <= i < |ids| ==> ids[i] < |p.replies|
    decreases |ids|
  {
    if ids == [] then p
    else AfterJoin(p.(replies := SetValue(p.replies, ids[0], ShutDown)), ids[1..])
  }

  /** In every interleaving the queue is bounded, requests reach the backend in the order in
      which they were accepted, and no promise is ever set twice. */
  lemma EveryInterleaving(queueCapacity: nat, backend: Backend, steps: seq<Step>, q: Pipeline)
    requires Reaches(Start(queueCapacity), backend, steps, q)
    ensures |q.queue| <= (if queueCapacity == 0 then 1 else queueCapacity)
    ensures q.submitted <= q.accepted && Ascending(q.accepted, |q.issued|)
    ensures |q.replies| == |q.issued| && forall id :: 0 <= id < |q.issued| ==> |q.replies[id]| <= 1
    ensures forall id :: 0 <= id < |q.issued| && q.replies[id] != [] ==> Settled(q, backend, id)
  {
    RunKeeps(Start(queueCapacity), backend, steps, q);
    forall id | 0 <= id < |q.issued|
      ensures |q.replies[id]| <= 1 && (q.replies[id] != [] ==> Settled(q, backend, id))
    {
      assert if id in InFlight(q) then q.replies[id] == [] else Settled(q, backend, id);
    }
  }

  /** Once the worker has returned, every accepted request was submitted and every promise holds
      exactly one value, so the destructor's final loop finds nothing to do. */
  lemma JoinedIsComplete(queueCapacity: nat, backend: Backend, steps: seq<Step>, q: Pipeline)
    requires Reaches(Start(queueCapacity), backend, steps, q) && q.worker == Exited
    ensures q.queue == [] && AfterJoin(q, q.queue) == q
    ensures q.submitted == q.accepted && |q.replies| == |q.issued|
    ensures forall id :: 0 <= id < |q.issued| ==> Settled(q, backend, id)
  {
    RunKeeps(Start(queueCapacity), backend, steps, q);
    forall id | 0 <= id < |q.issued| ensures Settled(q, backend, id) {
      assert id !in InFlight(q);
    }
  }

  // ------------------------------------------------ shutdown terminates

  /** How many worker steps remain once no more requests are accepted. */
  function WorkLeft(p: Pipeline): nat {
    3 * |p.queue| + match p.worker case Waiting => 1 case Holding(_) => 3 case Awaiting(_) => 2 case Exited => 0
  }

  predicate WorkerStep(step: Step) {
    step.Take? || step.Submit? || step.Forward? || step.Exit?
  }

  ghost function WorkerSteps(steps: seq<Step>): nat
    decreases |steps|
  {
    if steps == [] then 0 else (if WorkerStep(steps[0]) then 1 else 0) + WorkerSteps(steps[1..])
  }

  /** The worker is never stuck: during shutdown it can always take a step until it returns. */
  lemma WorkerNeverStuck(p: Pipeline, backend: Backend)
    requires Inv(p, backend) && p.shuttingDown && p.worker != Exited
    ensures exists step :: WorkerStep(step) && Enabled(p, step)
  {
    match p.worker
    case Waiting =>
      assert if p.queue != [] then WorkerStep(Take) && Enabled(p, Take) else WorkerStep(Exit) && Enabled(p, Exit);
    case Holding(_) => assert WorkerStep(Submit) && Enabled(p, Submit);
    case Awaiting(id) =>
      InFlightAccepted(p, backend, id);
      assert WorkerStep(Forward) && Enabled(p, Forward);
  }

  /** After shutdown begins, every worker step brings the end one step closer and nothing else
      moves it: the worker returns after exactly the work that was left. */
  lemma {:induction false} ShutdownTerminates(p: Pipeline, backend: Backend, steps: seq<Step>, q: Pipeline)
    requires Inv(p, backend) && p.shuttingDown && Reaches(p, backend, steps, q)
    ensures q.shuttingDown && WorkLeft(q) + WorkerSteps(steps) == WorkLeft(p)
    ensures WorkerSteps(steps) == WorkLeft(p) <==> q.worker == Exited
    decreases |steps|
  {
    RunKeeps(p, backend, steps, q);
    if steps != [] {
      RunKeeps(p, backend, [steps[0]], Next(p, backend, steps[0]));
      ShutdownTerminates(Next(p, backend, steps[0]), backend, steps[1..], q);
    }
  }

  // ------------------------------------------------ acceptance

  /** What is accepted stays accepted, and a promise that holds a value keeps it. */
  lemma {:induction false} RunRemembers(p: Pipeline, backend: Backend, steps: seq<Step>, q: Pipeline)
    requires Inv(p, backend) && Reaches(p, backend, steps, q)
    ensures |p.issued| <= |q.issued| && q.issued[..|p.issued|] == p.issued
    ensures forall id :: id < |p.issued| ==> (id in q.accepted <==> id in p.accepted)
    decreases |steps|
  {
    if steps != [] {
      var t := Next(p, backend, steps[0]);
      StepRemembers(p, backend, steps[0]);
      KeepsInv(p, backend, steps[0]);
      RunRemembers(t, backend, steps[1..], q);
      assert q.issued[..|p.issued|] == t.issued[..|p.issued|];
    }
  }

  lemma StepRemembers(p: Pipeline, backend: Backend, step: Step)
    requires Inv(p, backend) && Enabled(p, step)
    ensures var t := Next(p, backend, step);
            |p.issued| <= |t.issued| && t.issued[..|p.issued|] == p.issued &&
            forall id :: id < |p.issued| ==> (id in t.accepted <==> id in p.accepted)
  {
  }

  lemma KeepsInv(p: Pipeline, backend: Backend, step: Step)
    requires Inv(p, backend) && Enabled(p, step)
    ensures Inv(Next(p, backend, step), backend)
  {
    if step.Transfer? {
      TransferKeeps(p, backend, step.request);
    } else {
      WorkerKeeps(p, backend, step);
    }
  }

  /** In every interleaving a request is refused if and only if, when it was made, the queue was full or the
      shutdown had begun; a refused caller has its backpressure error at once and for good. */
  lemma RefusedExactly(queueCapacity: nat, backend: Backend, before: seq<Step>, p: Pipeline, request: Request,
                       after: seq<Step>, q: Pipeline)
    requires Reaches(Start(queueCapacity), backend, before, p)
    requires Reaches(Next(p, backend, Transfer(request)), backend, after, q)
    ensures var id, capacity := |p.issued|, if queueCapacity == 0 then 1 else queueCapacity;
            id < |q.issued| && q.issued[id] == request && |q.replies| == |q.issued| &&
            (id !in q.accepted <==> |p.queue| == capacity || p.shuttingDown) &&
            (id !in q.accepted ==> q.replies[id] == [Backpressure(request.key)])
  {
    var s, t, id := Start(queueCapacity), Next(p, backend, Transfer(request)), |p.issued|;
    RunKeeps(s, backend, before, p);
    TransferKeeps(p, backend, request);
    AcceptedKnown(p, backend);
    RunRemembers(t, backend, after, q);
    RunKeeps(t, backend, after, q);
    assert q.issued[..|t.issued|][id] == request;
    if id in InFlight(q) {
      InFlightAccepted(q, backend, id);
    }
  }

  ghost function Transfers(steps: seq<Step>): nat
    decreases |steps|
  {
    if steps == [] then 0 else (if steps[0].Transfer? then 1 else 0) + Transfers(steps[1..])
  }

  ghost predicate NoShutdown(steps: seq<Step>) {
    forall i :: 0 <= i < |steps| ==> !steps[i].BeginShutdown?
  }

  /** Everything issued has been accepted, in order. */
  ghost predicate AllAccepted(p: Pipeline) {
    !p.shuttingDown && forall id :: 0 <= id < |p.issued| ==> id in p.accepted
  }

  lemma {:induction false} RoomyRun(p: Pipeline, backend: Backend, steps: seq<Step>, q: Pipeline)
    requires Inv(p, backend) && Reaches(p, backend, steps, q) && AllAccepted(p) && NoShutdown(steps)
    requires |p.queue| + Transfers(steps) <= p.capacity
    ensures AllAccepted(q) && |q.issued| == |p.issued| + Transfers(steps)
    decreases |steps|
  {
    if steps != [] {
      var t := Next(p, backend, steps[0]);
      KeepsInv(p, backend, steps[0]);
      StepRemembers(p, backend, steps[0]);
      assert forall i :: 0 <= i < |steps| - 1 ==> steps[1..][i] == steps[i + 1];
      RoomyRun(t, backend, steps[1..], q);
    }
  }

  /** In every interleaving without shutdown in which no more requests are made than the queue can hold, all
      are accepted, and once the worker waits at an empty queue every caller holds the backend's answer to its
      routed request. */
  lemma AllAnswered(queueCapacity: nat, backend: Backend, steps: seq<Step>, q: Pipeline)
    requires Reaches(Start(queueCapacity), backend, steps, q) && NoShutdown(steps)
    requires Transfers(steps) <= (if queueCapacity == 0 then 1 else queueCapacity)
    ensures |q.issued| == Transfers(steps) == |q.replies| && forall id :: 0 <= id < |q.issued| ==> id in q.accepted
    ensures q.worker == Waiting && q.queue == [] ==>
              forall id :: 0 <= id < |q.issued| ==>
                var r := q.issued[id];
                q.replies[id] == [backend.transfer(r.(preferred := backend.selectPath(r)))]
  {
    RoomyRun(Start(queueCapacity), backend, steps, q);
    RunKeeps(Start(queueCapacity), backend, steps, q);
  }
}
