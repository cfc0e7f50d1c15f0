/** The lab's thread pool: the linked list of tasks behind one lock, and the protocol of workers,
    submitters and the destroyer around it. A task's function and argument are one identity, and
    every section that holds the lock is one step. */
module ThreadPool {
  import opened Common

  type Id = nat

  // ---------- the list of tasks ----------

  class Task {
    const id: Id
    var next: Task?

    constructor (id: Id)
      ensures this.id == id && next == null
    {
      this.id := id;
      next := null;
    }
  }

  function Ids(nodes: seq<Task>): seq<Id> {
    seq(|nodes|, i requires 0 <= i < |nodes| => nodes[i].id as Id)
  }

  /** What a worker does when it has the lock. */
  datatype Decision = Sleep | Leave | Take

  function Decide(queue: seq<Id>, shutdown: bool): Decision {
    if queue != [] then Take else if shutdown then Leave else Sleep
  }

  class Pool {
    var head: Task?
    var tail: Task?
    var shutdown: bool
    ghost var nodes: seq<Task>

    ghost predicate Valid()
      reads this, nodes
    {
      && (nodes == [] ==> head == null && tail == null)
      && (nodes != [] ==> head == nodes[0] && tail == nodes[|nodes| - 1] && nodes[|nodes| - 1].next == null)
      && (forall i :: 0 <= i < |nodes| - 1 ==> nodes[i].next == nodes[i + 1])
      && (forall i, j :: 0 <= i < j < |nodes| ==> nodes[i] != nodes[j])
    }

    ghost function Contents(): seq<Id>
      reads this
    {
      Ids(nodes)
    }

    constructor ()
      ensures Valid() && Contents() == [] && !shutdown
    {
      head := null;
      tail := null;
      shutdown := false;
      nodes := [];
    }

    /** The locked section of a submission. */
    method SubmitLocked(task: Task) returns (accepted: bool)
      requires Valid() && task !in nodes && task.next == null
      modifies this`head, this`tail, this`nodes, nodes
      ensures Valid() && accepted == !shutdown
      ensures Contents() == if accepted then old(Contents()) + [task.id] else old(Contents())
      ensures nodes == if accepted then old(nodes) + [task] else old(nodes)
    {
      if shutdown {
        return false;
      }
      if head == null {
        head := task;
        tail := task;
      } else {
        tail.next := task;
        tail := task;
      }
      assert Ids(nodes + [task]) == Ids(nodes) + [task.id];
      nodes := nodes + [task];
      return true;
    }

    /** The locked section of a worker. */
    method WorkerLocked() returns (decision: Decision, task: Task?)
      requires Valid()
      modifies this`head, this`tail, this`nodes
      ensures Valid() && decision == Decide(old(Contents()), shutdown)
      ensures decision.Take? <==> task != null
      ensures task == null ==> nodes == old(nodes)
      ensures task != null ==> old(nodes) == [task] + nodes && task !in nodes
      ensures task != null ==> old(Contents()) == [task.id] + Contents()
    {
      task := null;
      if head == null && !shutdown {
        return Sleep, null;
      }
      if shutdown && head == null {
        return Leave, null;
      }
      task := head;
      head := task.next;
      if head == null {
        tail := null;
      }
      assert Ids(nodes) == [task.id] + Ids(nodes[1..]);
      nodes := nodes[1..];
      decision := Take;
    }
  }

  // ---------- the protocol ----------

  /** Where a task is. `Gone` is freed. */
  datatype Place = WithCaller(c: nat) | InQueue | WithWorker(w: nat) | Gone

  /** The history of one task: who dequeued it, ran it and freed it, in order. */
  datatype Life = Life(place: Place, accepted: bool, takenBy: seq<nat>, ranBy: seq<nat>, freedBy: seq<Place>)

  datatype Worker =
    | Ready            // about to take the lock
    | Waiting          // on the condition variable
    | Running(id: Id)  // has dequeued the task
    | Ran(id: Id)      // has run it, about to free it
    | Exited

  datatype Caller =
    | Outside
    | Made(id: Id)     // has allocated a task, about to take the lock
    | Joining(i: nat)  // destroying: has joined the first i workers

  datatype State = State(queue: seq<Id>, shutdown: bool, workers: seq<Worker>, callers: map<nat, Caller>,
                         accepted: seq<Id>, taken: seq<Id>, tasks: map<Id, Life>,
                         destroyer: Option<nat>, freed: bool)

  datatype Step =
    | Make(c: nat, id: Id)
    | Submit(c: nat, signalled: Option<nat>)
    | Destroy(c: nat)
    | Join(c: nat)
    | Free(c: nat)
    | Wake(w: nat)     // a spurious wakeup
    | Check(w: nat)    // the worker's locked section
    | Execute(w: nat)
    | Release(w: nat)

  predicate WorkerStep(step: Step) {
    step.Wake? || step.Check? || step.Execute? || step.Release?
  }

  function CallerOf(s: State, c: nat): Caller {
    if c in s.callers then s.callers[c] else Outside
  }

  predicate AllIn(ws: seq<Worker>, p: Worker) {
    forall w :: 0 <= w < |ws| ==> ws[w] == p
  }

  predicate AnyWaiting(ws: seq<Worker>) {
    exists w :: 0 <= w < |ws| && ws[w].Waiting?
  }

  predicate WorkerIs(s: State, w: nat, p: Worker) {
    w < |s.workers| && s.workers[w] == p
  }

  /** Callers must not use a pool that has been freed. A signal wakes one waiting worker if there
      is any. */
  predicate Enabled(s: State, step: Step) {
    match step
    case Make(c, id) => !s.freed && CallerOf(s, c).Outside? && id !in s.tasks
    case Submit(c, signalled) =>
      && !s.freed && CallerOf(s, c).Made? && CallerOf(s, c).id in s.tasks
      && (AnyWaiting(s.workers) <==> signalled.Some?)
      && (signalled.Some? ==> WorkerIs(s, signalled.value, Waiting))
    case Destroy(c) => !s.freed && CallerOf(s, c).Outside?
    case Join(c) => CallerOf(s, c).Joining? && WorkerIs(s, CallerOf(s, c).i, Exited)
    case Free(c) => CallerOf(s, c).Joining? && CallerOf(s, c).i == |s.workers|
    case Wake(w) => WorkerIs(s, w, Waiting)
    case Check(w) => WorkerIs(s, w, Ready) && (s.queue != [] ==> s.queue[0] in s.tasks)
    case Execute(w) => w < |s.workers| && s.workers[w].Running? && s.workers[w].id in s.tasks
    case Release(w) => w < |s.workers| && s.workers[w].Ran? && s.workers[w].id in s.tasks
  }

  function WokenAll(ws: seq<Worker>): seq<Worker> {
    seq(|ws|, w requires 0 <= w < |ws| => if ws[w].Waiting? then Ready else ws[w])
  }

  function SetWorker(s: State, w: nat, p: Worker): State
    requires w < |s.workers|
  {
    s.(workers := s.workers[w := p])
  }

  function Apply(s: State, step: Step): State
    requires Enabled(s, step)
  {
    match step
    case Make(c, id) =>
      s.(callers := s.callers[c := Made(id)], tasks := s.tasks[id := Life(WithCaller(c), false, [], [], [])])
    case Submit(c, signalled) =>
      var id := CallerOf(s, c).id;
      var life := s.tasks[id];
      var s1 := s.(callers := s.callers[c := Outside]);
      if s.shutdown then
        s1.(tasks := s.tasks[id := life.(place := Gone, freedBy := life.freedBy + [WithCaller(c)])])
      else
        s1.(queue := s.queue + [id], accepted := s.accepted + [id],
            tasks := s.tasks[id := life.(place := InQueue, accepted := true)],
            workers := if signalled.Some? then s.workers[signalled.value := Ready] else s.workers)
    case Destroy(c) =>
      if s.shutdown then s
      else
        s.(shutdown := true, workers := WokenAll(s.workers),
           callers := s.callers[c := Joining(0)], destroyer := Some(c))
    case Join(c) => s.(callers := s.callers[c := Joining(CallerOf(s, c).i + 1)])
    case Free(c) => s.(callers := s.callers[c := Outside], freed := true)
    case Wake(w) => SetWorker(s, w, Ready)
    case Check(w) => (
      match Decide(s.queue, s.shutdown)
      case Sleep => SetWorker(s, w, Waiting)
      case Leave => SetWorker(s, w, Exited)
      case Take =>
        var id := s.queue[0];
        var life := s.tasks[id];
        SetWorker(s, w, Running(id)).(queue := s.queue[1..], taken := s.taken + [id],
          tasks := s.tasks[id := life.(place := WithWorker(w), takenBy := life.takenBy + [w])])
    )
    case Execute(w) =>
      var id := s.workers[w].id;
      var life := s.tasks[id];
      SetWorker(s, w, Ran(id)).(tasks := s.tasks[id := life.(ranBy := life.ranBy + [w])])
    case Release(w) =>
      var id := s.workers[w].id;
      var life := s.tasks[id];
      SetWorker(s, w, Ready).(tasks := s.tasks[id := life.(place := Gone, freedBy := life.freedBy + [WithWorker(w)])])
  }

  // ---------- the fate of each task ----------

  /** One task's history is complete up to where it is. */
  predicate LifeOk(life: Life) {
    match life.place
    case WithCaller(_) => !life.accepted && life.takenBy == [] && life.ranBy == [] && life.freedBy == []
    case InQueue => life.accepted && life.takenBy == [] && life.ranBy == [] && life.freedBy == []
    case WithWorker(w) =>
      life.accepted && life.takenBy == [w] && (life.ranBy == [] || life.ranBy == [w]) && life.freedBy == []
    case Gone =>
      if life.accepted then DoneOnce(life)
      else life.takenBy == [] && life.ranBy == [] && |life.freedBy| == 1 && life.freedBy[0].WithCaller?
  }

  /** Dequeued, run and freed once, all by one worker. */
  predicate DoneOnce(life: Life) {
    |life.takenBy| == 1 && life.ranBy == life.takenBy && life.freedBy == [WithWorker(life.takenBy[0])]
  }

  ghost predicate PlacedOk(s: State, id: Id)
    requires id in s.tasks
  {
    var life := s.tasks[id];
    && LifeOk(life)
    && (life.place.WithWorker? ==>
          && life.place.w < |s.workers|
          && s.workers[life.place.w] == if life.ranBy == [] then Running(id) else Ran(id))
    && (life.place.WithCaller? ==> CallerOf(s, life.place.c) == Made(id))
    && (life.place.InQueue? <==> id in s.queue)
    && (life.accepted <==> id in s.accepted)
  }

  predicate WorkerOk(s: State, w: nat)
    requires w < |s.workers|
  {
    var p := s.workers[w];
    p.Running? || p.Ran? ==>
      p.id in s.tasks && s.tasks[p.id].place == WithWorker(w) && (p.Ran? <==> s.tasks[p.id].ranBy != [])
  }

  predicate CallerOk(s: State, c: nat) {
    var p := CallerOf(s, c);
    p.Made? ==> p.id in s.tasks && s.tasks[p.id].place == WithCaller(c)
  }

  ghost predicate TasksInv(s: State) {
    && s.accepted == s.taken + s.queue
    && Distinct(s.accepted)
    && (forall id :: id in s.accepted ==> id in s.tasks)
    && (forall id :: id in s.tasks ==> PlacedOk(s, id))
    && (forall w :: 0 <= w < |s.workers| ==> WorkerOk(s, w))
    && (forall c: nat :: CallerOk(s, c))
  }

  lemma HeadTaken(s: State)
    requires TasksInv(s) && s.queue != []
    ensures s.queue[0] !in s.queue[1..] && s.queue[0] in s.accepted
    ensures s.accepted == (s.taken + [s.queue[0]]) + s.queue[1..]
    ensures forall x :: x in s.queue <==> x == s.queue[0] || x in s.queue[1..]
  {
    hide PlacedOk, WorkerOk, CallerOk;
    HeadDistinct(s.taken, s.queue[0], s.queue[1..]);
    assert s.queue == [s.queue[0]] + s.queue[1..];
    assert s.accepted == (s.taken + [s.queue[0]]) + s.queue[1..];
  }

  lemma HeadDistinct(a: seq<Id>, x: Id, b: seq<Id>)
    ensures Distinct(a + ([x] + b)) ==> x !in b
  {
    var all := a + ([x] + b);
    if x in b {
      var k :| 0 <= k < |b| && b[k] == x;
      assert all[|a|] == x && all[|a| + 1 + k] == x;
    }
  }

  /** The task a step moves, if any. */
  function Moved(s: State, step: Step): Option<Id>
    requires Enabled(s, step)
  {
    match step
    case Make(_, id) => Some(id)
    case Submit(c, _) => Some(CallerOf(s, c).id)
    case Check(_) => if s.queue == [] then None else Some(s.queue[0])
    case Execute(w) => Some(s.workers[w].id)
    case Release(w) => Some(s.workers[w].id)
    case _ => None
  }

  /** The histories and lists say about every other task what they said before. */
  lemma OthersKept(s: State, step: Step, x: Id)
    requires TasksInv(s) && Enabled(s, step) && Moved(s, step) != Some(x)
    ensures var s' := Apply(s, step);
      && (x in s'.tasks <==> x in s.tasks) && (x in s.tasks ==> s'.tasks[x] == s.tasks[x])
      && (x in s'.queue <==> x in s.queue) && (x in s'.accepted <==> x in s.accepted)
  {
    hide PlacedOk, WorkerOk, CallerOk, Distinct;
    if step.Check? && s.queue != [] {
      HeadTaken(s);
    }
  }

  /** A worker that holds a task is one that held it, or has just taken it. */
  lemma WorkerKept(s: State, step: Step, v: nat)
    requires TasksInv(s) && Enabled(s, step) && v < |s.workers|
    ensures var s' := Apply(s, step);
      && |s'.workers| == |s.workers|
      && (s'.workers[v].Running? || s'.workers[v].Ran? ==>
            s'.workers[v] == s.workers[v] || (step == Check(v) && s.queue != []) || step == Execute(v))
      && (s.workers[v].Running? || s.workers[v].Ran? ==>
            s'.workers[v] == s.workers[v] || step == Execute(v) || step == Release(v))
  {
    hide TasksInv;
  }

  lemma CallerKept(s: State, step: Step, c: nat)
    requires Enabled(s, step)
    ensures var s' := Apply(s, step);
      && (CallerOf(s', c).Made? ==> CallerOf(s', c) == CallerOf(s, c) || (step.Make? && step.c == c))
      && (CallerOf(s, c).Made? ==> CallerOf(s', c) == CallerOf(s, c) || (step.Submit? && step.c == c))
  {
  }

  lemma OtherPlaced(s: State, step: Step, x: Id)
    requires TasksInv(s) && Enabled(s, step) && Moved(s, step) != Some(x) && x in s.tasks
    ensures x in Apply(s, step).tasks && PlacedOk(Apply(s, step), x)
  {
    OthersKept(s, step, x);
    assert PlacedOk(s, x);
    var place := s.tasks[x].place;
    if place.WithWorker? {
      WorkerKept(s, step, place.w);
    } else if place.WithCaller? {
      CallerKept(s, step, place.c);
    }
    hide Apply, LifeOk, WorkerOk, CallerOk, Distinct;
  }

  lemma SubmittedPlaced(s: State, step: Step)
    requires TasksInv(s) && Enabled(s, step) && step.Submit?
    ensures var x := CallerOf(s, step.c).id; x in Apply(s, step).tasks && PlacedOk(Apply(s, step), x)
  {
    hide Distinct, WorkerOk;
    assert CallerOk(s, step.c);
    assert PlacedOk(s, CallerOf(s, step.c).id);
    assert [] + [WithCaller(step.c)] == [WithCaller(step.c)];
  }

  lemma TakenPlaced(s: State, step: Step)
    requires TasksInv(s) && Enabled(s, step) && step.Check? && s.queue != []
    ensures var x := s.queue[0]; x in Apply(s, step).tasks && PlacedOk(Apply(s, step), x)
  {
    hide Distinct, WorkerOk, CallerOk;
    HeadTaken(s);
    assert PlacedOk(s, s.queue[0]);
    assert [] + [step.w] == [step.w];
  }

  lemma HeldPlaced(s: State, step: Step)
    requires TasksInv(s) && Enabled(s, step) && (step.Execute? || step.Release?)
    ensures var x := s.workers[step.w].id; x in Apply(s, step).tasks && PlacedOk(Apply(s, step), x)
  {
    hide Distinct, CallerOk;
    var w := step.w;
    assert WorkerOk(s, w);
    assert PlacedOk(s, s.workers[w].id);
    assert [] + [w] == [w] && [] + [WithWorker(w)] == [WithWorker(w)];
  }

  lemma MadePlaced(s: State, step: Step)
    requires TasksInv(s) && Enabled(s, step) && step.Make?
    ensures step.id in Apply(s, step).tasks && PlacedOk(Apply(s, step), step.id)
  {
    hide Distinct, WorkerOk, CallerOk;
    assert forall x :: x in s.queue ==> x in s.accepted;
  }

  /** The moved task's history is complete up to where it is now. */
  lemma MovedPlaced(s: State, step: Step, x: Id)
    requires TasksInv(s) && Enabled(s, step) && Moved(s, step) == Some(x)
    ensures x in Apply(s, step).tasks && PlacedOk(Apply(s, step), x)
  {
    hide TasksInv, PlacedOk, Apply;
    match step
    case Make(_, _) => MadePlaced(s, step);
    case Submit(_, _) => SubmittedPlaced(s, step);
    case Check(_) => TakenPlaced(s, step);
    case Execute(_) => HeldPlaced(s, step);
    case Release(_) => HeldPlaced(s, step);
  }

  /** The worker that takes or runs a task is where the task's history says it is. */
  lemma ActingWorkerOk(s: State, step: Step, v: nat)
    requires TasksInv(s) && Enabled(s, step) && v < |s.workers|
    requires (step == Check(v) && s.queue != []) || step == Execute(v)
    ensures v < |Apply(s, step).workers| && WorkerOk(Apply(s, step), v)
  {
    hide CallerOk, Distinct;
    assert WorkerOk(s, v);
    if step == Check(v) {
      HeadTaken(s);
      assert PlacedOk(s, s.queue[0]);
    }
  }

  /** Nobody else moves a task that a worker holds. */
  lemma HeldNotMoved(s: State, step: Step, v: nat)
    requires TasksInv(s) && Enabled(s, step) && v < |s.workers| && (s.workers[v].Running? || s.workers[v].Ran?)
    requires step != Execute(v) && step != Release(v)
    ensures Moved(s, step) != Some(s.workers[v].id)
  {
    hide Distinct, LifeOk;
    assert WorkerOk(s, v);
    match step
    case Submit(c, _) => assert CallerOk(s, c);
    case Check(_) =>
      if s.queue != [] {
        HeadTaken(s);
        assert PlacedOk(s, s.queue[0]);
      }
    case Execute(w) => assert WorkerOk(s, w);
    case Release(w) => assert WorkerOk(s, w);
    case _ =>
  }

  lemma WorkerStaysOk(s: State, step: Step, v: nat)
    requires TasksInv(s) && Enabled(s, step) && v < |s.workers|
    ensures v < |Apply(s, step).workers| && WorkerOk(Apply(s, step), v)
  {
    WorkerKept(s, step, v);
    var p := Apply(s, step).workers[v];
    if (step == Check(v) && s.queue != []) || step == Execute(v) {
      ActingWorkerOk(s, step, v);
    } else if p.Running? || p.Ran? {
      ReleasedHoldsNothing(s, step, v);
      HeldNotMoved(s, step, v);
      OthersKept(s, step, p.id);
      assert WorkerOk(s, v);
    }
    hide Apply, PlacedOk, CallerOk, Distinct;
  }

  lemma ReleasedHoldsNothing(s: State, step: Step, v: nat)
    requires Enabled(s, step) && v < |s.workers|
    ensures step == Release(v) ==> v < |Apply(s, step).workers| && Apply(s, step).workers[v].Ready?
  {
  }

  lemma CallerStaysOk(s: State, step: Step, c: nat)
    requires TasksInv(s) && Enabled(s, step)
    ensures CallerOk(Apply(s, step), c)
  {
    CallerKept(s, step, c);
    assert CallerOk(s, c);
    var p := CallerOf(s, c);
    if p.Made? && !(step.Submit? && step.c == c) {
      if Moved(s, step) == Some(p.id) {
        MadeNotMoved(s, step, c);
      }
      OthersKept(s, step, p.id);
    }
    MakerOk(s, step, c);
    hide PlacedOk, Distinct;
  }

  lemma MakerOk(s: State, step: Step, c: nat)
    requires Enabled(s, step)
    ensures step.Make? && step.c == c ==> CallerOk(Apply(s, step), c)
    ensures step.Submit? && step.c == c ==> CallerOf(Apply(s, step), c).Outside?
  {
  }

  lemma MadeNotMoved(s: State, step: Step, c: nat)
    requires TasksInv(s) && Enabled(s, step) && CallerOf(s, c).Made? && !(step.Submit? && step.c == c)
    ensures Moved(s, step) != Some(CallerOf(s, c).id)
  {
    hide Distinct, LifeOk;
    assert CallerOk(s, c);
    match step
    case Submit(d, _) => assert CallerOk(s, d);
    case Check(_) =>
      if s.queue != [] {
        HeadTaken(s);
        assert PlacedOk(s, s.queue[0]);
      }
    case Execute(w) => assert WorkerOk(s, w);
    case Release(w) => assert WorkerOk(s, w);
    case _ =>
  }

  lemma ListsStayOk(s: State, step: Step)
    requires TasksInv(s) && Enabled(s, step)
    ensures var s' := Apply(s, step);
      && s'.accepted == s'.taken + s'.queue && Distinct(s'.accepted)
      && forall x :: x in s'.accepted ==> x in s'.tasks
  {
    hide WorkerOk;
    if step.Check? && s.queue != [] {
      HeadTaken(s);
    } else if step.Submit? {
      assert CallerOk(s, step.c);
      assert PlacedOk(s, CallerOf(s, step.c).id);
    }
  }

  lemma StepKeepsTasks(s: State, step: Step)
    requires TasksInv(s) && Enabled(s, step)
    ensures TasksInv(Apply(s, step))
  {
    var s' := Apply(s, step);
    ListsStayOk(s, step);
    forall x | x in s'.tasks
      ensures PlacedOk(s', x)
    {
      if Moved(s, step) == Some(x) {
        MovedPlaced(s, step, x);
      } else {
        OthersKept(s, step, x);
        OtherPlaced(s, step, x);
      }
    }
    forall v | 0 <= v < |s'.workers|
      ensures WorkerOk(s', v)
    {
      WorkersSameCount(s, step);
      WorkerStaysOk(s, step, v);
    }
    forall c: nat
      ensures CallerOk(s', c)
    {
      CallerStaysOk(s, step, c);
    }
    hide *;
  }

  lemma WorkersSameCount(s: State, step: Step)
    requires Enabled(s, step)
    ensures |Apply(s, step).workers| == |s.workers|
  {
  }

  // ---------- who is awake ----------

  function Sum(ws: seq<Worker>, f: Worker -> nat): nat {
    if ws == [] then 0 else f(ws[0]) + Sum(ws[1..], f)
  }

  lemma {:induction false} SumUpdate(ws: seq<Worker>, w: nat, p: Worker, f: Worker -> nat)
    requires w < |ws|
    ensures Sum(ws[w := p], f) == Sum(ws, f) - f(ws[w]) + f(p)
  {
    if w == 0 {
      assert ws[w := p][1..] == ws[1..];
    } else {
      SumUpdate(ws[1..], w - 1, p, f);
      assert ws[w := p][1..] == ws[1..][w - 1 := p];
    }
  }

  function IsReady(p: Worker): nat {
    if p.Ready? then 1 else 0
  }

  predicate JoinedOk(s: State, i: nat) {
    i <= |s.workers| && forall w :: 0 <= w < i ==> s.workers[w].Exited?
  }

  /** While anybody waits, every queued task has a worker of its own on the way to the lock, and the
      pool is open. */
  ghost predicate WaitInv(s: State) {
    AnyWaiting(s.workers) ==> |s.queue| <= Sum(s.workers, IsReady) && !s.shutdown
  }

  /** Workers leave only after shutdown and only with nothing left. */
  ghost predicate ExitInv(s: State) {
    forall w :: 0 <= w < |s.workers| && s.workers[w].Exited? ==> s.shutdown && s.queue == []
  }

  ghost predicate JoinInv(s: State, c: nat) {
    CallerOf(s, c).Joining? ==> s.shutdown && s.destroyer == Some(c) && !s.freed && JoinedOk(s, CallerOf(s, c).i)
  }

  /** No wakeup is lost, and the pool is freed by the one destroyer once all workers have left. */
  ghost predicate AwakeInv(s: State) {
    && WaitInv(s) && ExitInv(s)
    && (forall c: nat :: JoinInv(s, c))
    && (s.freed ==> s.shutdown && AllIn(s.workers, Exited))
    && (s.shutdown ==> s.destroyer.Some? && (s.freed || CallerOf(s, s.destroyer.value).Joining?))
  }

  lemma WorkersKeepWait(s: State, step: Step)
    requires WaitInv(s) && Enabled(s, step) && WorkerStep(step)
    ensures WaitInv(Apply(s, step))
  {
    var s', w := Apply(s, step), step.w;
    SumUpdate(s.workers, w, s'.workers[w], IsReady);
    if AnyWaiting(s'.workers) && !s'.workers[w].Waiting? {
      var v :| 0 <= v < |s'.workers| && s'.workers[v].Waiting?;
      assert s.workers[v].Waiting?;
    }
  }

  lemma WorkersKeepExit(s: State, step: Step)
    requires ExitInv(s) && Enabled(s, step) && WorkerStep(step)
    ensures ExitInv(Apply(s, step))
  {
    var s', w := Apply(s, step), step.w;
    forall v | 0 <= v < |s'.workers| && s'.workers[v].Exited?
      ensures s'.shutdown && s'.queue == []
    {
      assert v != w ==> s.workers[v].Exited?;
    }
  }

  lemma WorkersKeepJoin(s: State, step: Step, c: nat)
    requires JoinInv(s, c) && Enabled(s, step) && WorkerStep(step)
    ensures JoinInv(Apply(s, step), c)
  {
    var s' := Apply(s, step);
    assert CallerOf(s', c) == CallerOf(s, c) && s'.shutdown == s.shutdown;
    assert s'.destroyer == s.destroyer && s'.freed == s.freed;
    if CallerOf(s, c).Joining? {
      forall w | 0 <= w < CallerOf(s, c).i
        ensures s'.workers[w].Exited?
      {
        assert s.workers[w].Exited?;
      }
    }
  }

  lemma WorkersKeepAwake(s: State, step: Step)
    requires AwakeInv(s) && Enabled(s, step) && WorkerStep(step)
    ensures AwakeInv(Apply(s, step))
  {
    hide WaitInv, ExitInv, JoinInv;
    assert !s.freed && !Apply(s, step).freed;
    WorkersKeepWait(s, step);
    WorkersKeepExit(s, step);
    forall c: nat
      ensures JoinInv(Apply(s, step), c)
    {
      WorkersKeepJoin(s, step, c);
    }
  }

  lemma CallersKeepWait(s: State, step: Step)
    requires WaitInv(s) && Enabled(s, step) && !WorkerStep(step)
    ensures WaitInv(Apply(s, step))
  {
    var s' := Apply(s, step);
    if step.Submit? && step.signalled.Some? {
      SumUpdate(s.workers, step.signalled.value, Ready, IsReady);
    }
    if AnyWaiting(s'.workers) {
      var v :| 0 <= v < |s'.workers| && s'.workers[v].Waiting?;
      assert s.workers[v].Waiting?;
    }
  }

  lemma CallersKeepExit(s: State, step: Step)
    requires ExitInv(s) && Enabled(s, step) && !WorkerStep(step)
    ensures ExitInv(Apply(s, step))
  {
    var s' := Apply(s, step);
    forall v | 0 <= v < |s'.workers| && s'.workers[v].Exited?
      ensures s'.shutdown && s'.queue == []
    {
      assert s.workers[v].Exited?;
    }
  }

  lemma CallersKeepJoin(s: State, step: Step, c: nat)
    requires AwakeInv(s) && Enabled(s, step) && !WorkerStep(step)
    ensures JoinInv(Apply(s, step), c)
  {
    hide WaitInv, ExitInv;
    var s' := Apply(s, step);
    assert JoinInv(s, c);
    if step.Free? {
      assert JoinInv(s, step.c);
    }
    if CallerOf(s', c).Joining? && CallerOf(s, c).Joining? {
      forall w | 0 <= w < CallerOf(s', c).i
        ensures s'.workers[w].Exited?
      {
        assert s.workers[w].Exited?;
      }
    }
  }

  lemma CallersKeepAwake(s: State, step: Step)
    requires AwakeInv(s) && Enabled(s, step) && !WorkerStep(step)
    ensures AwakeInv(Apply(s, step))
  {
    CallersKeepWait(s, step);
    CallersKeepExit(s, step);
    forall c: nat
      ensures JoinInv(Apply(s, step), c)
    {
      CallersKeepJoin(s, step, c);
    }
    if step.Free? {
      assert JoinInv(s, step.c);
    }
    hide WaitInv, ExitInv;
  }

  // ---------- whole runs ----------

  ghost predicate Inv(s: State) {
    TasksInv(s) && AwakeInv(s)
  }

  function Initial(n: nat): State {
    State([], false, seq(n, _ => Ready), map[], [], [], map[], None, false)
  }

  lemma StepKeepsInv(s: State, step: Step)
    requires Inv(s) && Enabled(s, step)
    ensures Inv(Apply(s, step)) && |Apply(s, step).workers| == |s.workers|
  {
    hide TasksInv, AwakeInv, Apply;
    StepKeepsTasks(s, step);
    WorkersSameCount(s, step);
    if WorkerStep(step) {
      WorkersKeepAwake(s, step);
    } else {
      CallersKeepAwake(s, step);
    }
  }

  ghost predicate Runs(s: State, steps: seq<Step>, s': State)
    decreases |steps|
  {
    if steps == [] then s == s' else Enabled(s, steps[0]) && Runs(Apply(s, steps[0]), steps[1..], s')
  }

  lemma {:induction false} RunKeepsInv(s: State, steps: seq<Step>, s': State)
    requires Inv(s) && Runs(s, steps, s')
    ensures Inv(s') && |s'.workers| == |s.workers|
    decreases |steps|
  {
    hide TasksInv, AwakeInv, Apply, Enabled;
    if steps != [] {
      StepKeepsInv(s, steps[0]);
      RunKeepsInv(Apply(s, steps[0]), steps[1..], s');
    }
  }

  lemma InitialInv(n: nat)
    ensures Inv(Initial(n))
  {
  }

  /** In every interleaving tasks leave the queue in the order they were accepted, and no task is
      dequeued, run or freed twice, or by a worker other than its one dequeuer. */
  lemma FifoOnce(n: nat, steps: seq<Step>, s: State, id: Id)
    requires Runs(Initial(n), steps, s) && id in s.tasks
    ensures s.accepted == s.taken + s.queue && Distinct(s.accepted)
    ensures LifeOk(s.tasks[id]) && (s.tasks[id].accepted <==> id in s.accepted)
    ensures |s.tasks[id].takenBy| <= 1 && s.tasks[id].ranBy <= s.tasks[id].takenBy && |s.tasks[id].freedBy| <= 1
  {
    InitialInv(n);
    RunKeepsInv(Initial(n), steps, s);
    assert PlacedOk(s, id);
  }

  /** What the steps alone say: the tasks made and not yet submitted, those submitted before the pool
      was first told to shut down, and whether it was. */
  datatype Past = Past(made: map<nat, Id>, accepted: seq<Id>, closed: bool)

  function Seen(p: Past, step: Step): Past {
    match step
    case Make(c, id) => p.(made := p.made[c := id])
    case Submit(c, _) =>
      if c in p.made
      then p.(made := p.made - {c}, accepted := if p.closed then p.accepted else p.accepted + [p.made[c]])
      else p
    case Destroy(_) => p.(closed := true)
    case _ => p
  }

  function After(p: Past, steps: seq<Step>): Past
    decreases |steps|
  {
    if steps == [] then p else After(Seen(p, steps[0]), steps[1..])
  }

  ghost predicate Reflects(s: State, p: Past) {
    && s.accepted == p.accepted && s.shutdown == p.closed
    && forall c: nat :: if c in p.made then CallerOf(s, c) == Made(p.made[c]) else !CallerOf(s, c).Made?
  }

  lemma StepReflects(s: State, step: Step, p: Past)
    requires Enabled(s, step) && Reflects(s, p)
    ensures Reflects(Apply(s, step), Seen(p, step))
  {
    var s', p' := Apply(s, step), Seen(p, step);
    assert step.Submit? ==> step.c in p.made;
    forall c: nat
      ensures if c in p'.made then CallerOf(s', c) == Made(p'.made[c]) else !CallerOf(s', c).Made?
    {
      assert if c in p.made then CallerOf(s, c) == Made(p.made[c]) else !CallerOf(s, c).Made?;
    }
  }

  lemma {:induction false} RunReflects(s: State, steps: seq<Step>, s': State, p: Past)
    requires Runs(s, steps, s') && Reflects(s, p)
    ensures Reflects(s', After(p, steps))
    decreases |steps|
  {
    hide Apply, Enabled, Reflects, Seen;
    if steps != [] {
      StepReflects(s, steps[0], p);
      RunReflects(Apply(s, steps[0]), steps[1..], s', Seen(p, steps[0]));
    }
  }

  /** In every interleaving a submission is accepted exactly if it comes before the first call to
      destroy the pool. */
  lemma AcceptsUntilShutdown(n: nat, steps: seq<Step>, s: State)
    requires Runs(Initial(n), steps, s)
    ensures Reflects(s, After(Past(map[], [], false), steps))
  {
    RunReflects(Initial(n), steps, s, Past(map[], [], false));
  }

  /** A queued task never waits for a sleeping worker: with any worker at all, some worker is awake
      and will reach the lock, and while anybody sleeps there is one for each queued task. */
  lemma NoLostWakeup(n: nat, steps: seq<Step>, s: State)
    requires Runs(Initial(n), steps, s)
    ensures AnyWaiting(s.workers) ==> |s.queue| <= Sum(s.workers, IsReady) && !s.shutdown
    ensures n > 0 && s.queue != [] ==>
              exists w :: 0 <= w < |s.workers| && !s.workers[w].Waiting? && !s.workers[w].Exited?
  {
    InitialInv(n);
    RunKeepsInv(Initial(n), steps, s);
    if n > 0 && s.queue != [] && AllIn(s.workers, Waiting) {
      assert s.workers[0].Waiting?;
      NoneReady(s.workers);
    }
    if n > 0 && s.queue != [] {
      assert !AllIn(s.workers, Waiting);
    }
  }

  lemma {:induction false} NoneReady(ws: seq<Worker>)
    requires AllIn(ws, Waiting)
    ensures Sum(ws, IsReady) == 0
  {
    if ws != [] {
      assert ws[0].Waiting?;
      NoneReady(ws[1..]);
    }
  }

  /** Once a pool that has workers has lost them all, and hence whenever it is freed, the queue is
      empty and every accepted task was dequeued, run and freed exactly once. */
  lemma AllDoneAtExit(n: nat, steps: seq<Step>, s: State, id: Id)
    requires n > 0 && Runs(Initial(n), steps, s) && id in s.accepted
    requires AllIn(s.workers, Exited) || s.freed
    ensures AllIn(s.workers, Exited) && s.queue == [] && s.taken == s.accepted
    ensures id in s.tasks && DoneOnce(s.tasks[id])
  {
    InitialInv(n);
    RunKeepsInv(Initial(n), steps, s);
    assert s.workers[0].Exited?;
    assert PlacedOk(s, id);
  }

  // ---------- shutdown finishes ----------

  /** Worker steps still owed by a worker. */
  function Rank(p: Worker): nat {
    match p
    case Ready => 1
    case Waiting => 0
    case Running(_) => 3
    case Ran(_) => 2
    case Exited => 0
  }

  /** Worker steps left until the last worker exits. */
  function Owed(s: State): nat {
    3 * |s.queue| + Sum(s.workers, Rank)
  }

  function WorkerSteps(steps: seq<Step>): nat {
    if steps == [] then 0 else (if WorkerStep(steps[0]) then 1 else 0) + WorkerSteps(steps[1..])
  }

  lemma StepPays(s: State, step: Step)
    requires Inv(s) && s.shutdown && Enabled(s, step)
    ensures Apply(s, step).shutdown
    ensures Owed(Apply(s, step)) == Owed(s) - if WorkerStep(step) then 1 else 0
  {
    hide TasksInv, LifeOk;
    if WorkerStep(step) {
      assert !s.workers[step.w].Waiting?;
      SumUpdate(s.workers, step.w, Apply(s, step).workers[step.w], Rank);
    }
  }

  lemma {:induction false} NothingOwed(ws: seq<Worker>)
    requires !AnyWaiting(ws)
    ensures Sum(ws, Rank) == 0 <==> AllIn(ws, Exited)
  {
    if ws != [] {
      assert forall w :: 0 <= w < |ws[1..]| ==> ws[1..][w] == ws[w + 1];
      NothingOwed(ws[1..]);
      assert AllIn(ws, Exited) <==> ws[0].Exited? && AllIn(ws[1..], Exited);
    }
  }

  /** From shutdown on, the workers of every interleaving make exactly `Owed` steps in all, they
      can always make the next one, and none is owed exactly when all have exited: destruction
      never gets stuck in its joins. */
  lemma {:induction false} ShutdownFinishes(s: State, steps: seq<Step>, s': State)
    requires Inv(s) && s.shutdown && Runs(s, steps, s')
    ensures WorkerSteps(steps) + Owed(s') == Owed(s)
    ensures s.queue == [] || |s.workers| > 0 ==> (Owed(s') == 0 <==> AllIn(s'.workers, Exited))
    ensures AllIn(s'.workers, Exited) || exists step :: WorkerStep(step) && Enabled(s', step)
    decreases |steps|
  {
    if steps == [] {
      NothingOwed(s.workers);
      if !AllIn(s.workers, Exited) {
        SomeWorkerCanStep(s);
      }
    } else {
      StepKeepsInv(s, steps[0]);
      StepPays(s, steps[0]);
      ShutdownFinishes(Apply(s, steps[0]), steps[1..], s');
    }
  }

  lemma SomeWorkerCanStep(s: State)
    requires Inv(s) && s.shutdown && !AllIn(s.workers, Exited)
    ensures exists step :: WorkerStep(step) && Enabled(s, step)
  {
    var w: nat :| w < |s.workers| && !s.workers[w].Exited?;
    assert WorkerOk(s, w);
    if s.workers[w].Ready? {
      assert s.queue != [] ==> s.queue[0] in s.accepted;
      assert WorkerStep(Check(w)) && Enabled(s, Check(w));
    } else if s.workers[w].Running? {
      assert WorkerStep(Execute(w)) && Enabled(s, Execute(w));
    } else {
      assert s.workers[w].Ran?;
      assert WorkerStep(Release(w)) && Enabled(s, Release(w));
    }
  }

  lemma {:induction false} RunsConcat(s: State, a: seq<Step>, s1: State, b: seq<Step>, s2: State)
    requires Runs(s, a, s1) && Runs(s1, b, s2)
    ensures Runs(s, a + b, s2)
    decreases |a|
  {
    if a == [] {
      assert a + b == b;
    } else {
      assert (a + b)[1..] == a[1..] + b;
      RunsConcat(Apply(s, a[0]), a[1..], s1, b, s2);
    }
  }

  /** The workers can be let run until all have left, without anybody else's help. */
  lemma {:induction false} WorkersLeave(s: State) returns (steps: seq<Step>, s': State)
    requires Inv(s) && s.shutdown
    ensures Runs(s, steps, s') && Inv(s') && s'.shutdown && AllIn(s'.workers, Exited)
    ensures |s'.workers| == |s.workers| && s'.callers == s.callers && s'.destroyer == s.destroyer
    decreases Owed(s)
  {
    steps, s' := [], s;
    if !AllIn(s.workers, Exited) {
      hide Inv, Owed, AllIn;
      SomeWorkerCanStep(s);
      var step :| WorkerStep(step) && Enabled(s, step);
      StepKeepsInv(s, step);
      StepPays(s, step);
      WorkersDoNotCall(s, step);
      var rest;
      rest, s' := WorkersLeave(Apply(s, step));
      steps := [step] + rest;
      assert steps[1..] == rest;
    }
  }

  lemma WorkersDoNotCall(s: State, step: Step)
    requires Enabled(s, step) && WorkerStep(step)
    ensures Apply(s, step).callers == s.callers && Apply(s, step).destroyer == s.destroyer
    ensures |Apply(s, step).workers| == |s.workers|
  {
  }

  /** The destroyer can join one worker after the other and then free the pool. */
  lemma {:induction false} JoinsAndFrees(s: State, c: nat) returns (steps: seq<Step>, s': State)
    requires Inv(s) && CallerOf(s, c).Joining? && AllIn(s.workers, Exited)
    ensures Runs(s, steps, s') && s'.freed && |steps| == |s.workers| - CallerOf(s, c).i + 1
    decreases |s.workers| - CallerOf(s, c).i
  {
    assert JoinInv(s, c);
    if CallerOf(s, c).i == |s.workers| {
      steps, s' := [Free(c)], Apply(s, Free(c));
      assert Runs(s', [], s');
    } else {
      var s1 := Apply(s, Join(c));
      StepKeepsInv(s, Join(c));
      var rest;
      rest, s' := JoinsAndFrees(s1, c);
      steps := [Join(c)] + rest;
      assert steps[1..] == rest;
    }
  }

  /** Destruction can always be completed: from any point of any interleaving at which the pool has
      been told to shut down there is a way on to where it has been freed. */
  lemma DestructionCompletes(n: nat, steps: seq<Step>, s: State) returns (more: seq<Step>, s': State)
    requires Runs(Initial(n), steps, s) && After(Past(map[], [], false), steps).closed
    ensures Runs(s, more, s') && s'.freed
  {
    AcceptsUntilShutdown(n, steps, s);
    InitialInv(n);
    RunKeepsInv(Initial(n), steps, s);
    more, s' := [], s;
    if !s.freed {
      var leave, s1 := WorkersLeave(s);
      var free;
      free, s' := JoinsAndFrees(s1, s.destroyer.value);
      RunsConcat(s, leave, s1, free, s');
      more := leave + free;
    }
  }
}
