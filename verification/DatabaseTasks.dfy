/**
  The database task queue: any number of threads hand in tasks, one worker takes them out,
  and one thread shuts the queue down.  Every access to the list is under one mutex; the
  thread state is an atomic that the worker also reads without the mutex.  The threads are
  modelled as interleaved steps, each as fine as one lock, unlock, wait or notify.
 */
module DatabaseTasks {

  import opened Basics

  datatype Task = Task(query: string, store: bool)

  datatype ThreadState = Running | Closing | Terminated

  datatype Owner = ByWorker | ByAdder(id: nat) | ByShutdown

  /** Where the worker is in its loop. */
  datatype Worker =
    | Check                  // about to read the thread state
    | WantLock               // state was not TERMINATED; about to lock
    | Inside                 // holds the lock, about to look whether the list is empty
    | Waiting                // gave the lock up, asleep on the signal
    | Woken                  // awake, about to lock again
    | Taking                 // holds the lock, about to take a task or give up
    | Busy(task: Task)       // runs a task, without the lock
    | Exited

  /** Where a caller of addTask is. */
  datatype Adder =
    | Called(task: Task)
    | Locked(task: Task)
    | Pushed(signal: bool)   // still holds the lock
    | Owing                  // gave the lock up, about to notify

  datatype Shutdown = NotCalled | Begun | Flushing | Unlocked | Finished

  datatype State = State(
    threadState: ThreadState,
    tasks: seq<Task>,
    lock: Option<Owner>,
    worker: Worker,
    adders: map<nat, Adder>,
    shutdown: Shutdown,
    accepted: seq<Task>,     // every task ever put into the list, in order
    taken: seq<Task>)        // every task ever taken out to be run, in order

  datatype Step =
    | Call(id: nat, task: Task) | AdderLocks(id: nat) | AdderPushes(id: nat)
    | AdderUnlocks(id: nat) | AdderNotifies(id: nat)
    | WorkerChecks | WorkerLocks | WorkerLooks | WorkerWakesByItself | WorkerRelocks
    | WorkerTakes | WorkerRuns
    | Stop | ShutdownLocks | ShutdownTerminates | ShutdownFlushes | ShutdownUnlocks | ShutdownNotifies

  function Start(): State {
    State(Running, [], None, Check, map[], NotCalled, [], [])
  }

  /** One waiter at most: the worker. */
  function Notified(w: Worker): Worker { if w.Waiting? then Woken else w }

  /** The state after a step, or None when that thread cannot take it now. */
  function Next(s: State, step: Step): Option<State> {
    match step
    case Call(id, t) =>
      if id in s.adders then None else Some(s.(adders := s.adders[id := Called(t)]))
    case AdderLocks(id) =>
      if id in s.adders && s.adders[id].Called? && s.lock == None
      then Some(s.(lock := Some(ByAdder(id)), adders := s.adders[id := Locked(s.adders[id].task)]))
      else None
    case AdderPushes(id) =>
      if id !in s.adders || !s.adders[id].Locked? then None
      else if s.threadState == Running then
        var t := s.adders[id].task;
        Some(s.(tasks := s.tasks + [t], accepted := s.accepted + [t],
                adders := s.adders[id := Pushed(s.tasks == [])]))
      else Some(s.(adders := s.adders[id := Pushed(false)]))
    case AdderUnlocks(id) =>
      if id !in s.adders || !s.adders[id].Pushed? then None
      else if s.adders[id].signal then Some(s.(lock := None, adders := s.adders[id := Owing]))
      else Some(s.(lock := None, adders := s.adders - {id}))
    case AdderNotifies(id) =>
      if id in s.adders && s.adders[id].Owing?
      then Some(s.(worker := Notified(s.worker), adders := s.adders - {id}))
      else None
    case WorkerChecks =>
      if s.worker.Check?
      then Some(s.(worker := if s.threadState == Terminated then Exited else WantLock))
      else None
    case WorkerLocks =>
      if s.worker.WantLock? && s.lock == None
      then Some(s.(worker := Inside, lock := Some(ByWorker)))
      else None
    case WorkerLooks =>
      if !s.worker.Inside? then None
      else if s.tasks == [] then Some(s.(worker := Waiting, lock := None))
      else Some(s.(worker := Taking))
    case WorkerWakesByItself =>
      if s.worker.Waiting? then Some(s.(worker := Woken)) else None
    case WorkerRelocks =>
      if s.worker.Woken? && s.lock == None
      then Some(s.(worker := Taking, lock := Some(ByWorker)))
      else None
    case WorkerTakes =>
      if !s.worker.Taking? then None
      else if s.tasks == [] then Some(s.(worker := Check, lock := None))
      else Some(s.(worker := Busy(s.tasks[0]), lock := None,
                   tasks := s.tasks[1..], taken := s.taken + [s.tasks[0]]))
    case WorkerRuns =>
      if s.worker.Busy? then Some(s.(worker := Check)) else None
    case Stop =>
      if s.threadState == Running then Some(s.(threadState := Closing)) else None
    case ShutdownLocks =>
      if s.shutdown == NotCalled && s.lock == None
      then Some(s.(shutdown := Begun, lock := Some(ByShutdown)))
      else None
    case ShutdownTerminates =>
      if s.shutdown == Begun then Some(s.(shutdown := Flushing, threadState := Terminated)) else None
    case ShutdownFlushes =>
      if s.shutdown == Flushing && s.tasks != []
      then Some(s.(tasks := s.tasks[1..], taken := s.taken + [s.tasks[0]]))
      else None
    case ShutdownUnlocks =>
      if s.shutdown == Flushing && s.tasks == []
      then Some(s.(shutdown := Unlocked, lock := None))
      else None
    case ShutdownNotifies =>
      if s.shutdown == Unlocked
      then Some(s.(shutdown := Finished, worker := Notified(s.worker)))
      else None
  }

  /** The state after a whole interleaving, or None when some step of it is impossible. */
  function Run(s: State, steps: seq<Step>): Option<State>
    decreases |steps|
  {
    if steps == [] then Some(s)
    else
      var n := Next(s, steps[0]);
      if n.None? then None else Run(n.value, steps[1..])
  }

  // ---------- safety in every interleaving ----------

  predicate AdderHolds(a: Adder) { a.Locked? || a.Pushed? }

  /** Exactly the owner of the mutex is inside its critical section. */
  ghost predicate MutexOk(s: State) {
    && (s.lock == Some(ByWorker) <==> s.worker.Inside? || s.worker.Taking?)
    && (forall i :: i in s.adders ==> (AdderHolds(s.adders[i]) <==> s.lock == Some(ByAdder(i))))
    && (s.lock.Some? && s.lock.value.ByAdder? ==> s.lock.value.id in s.adders)
    && (s.lock == Some(ByShutdown) <==> s.shutdown == Begun || s.shutdown == Flushing)
  }

  /** A notification that some caller of addTask will still send. */
  predicate Owes(a: Adder) { a == Owing || a == Pushed(true) }

  ghost predicate Owed(s: State) { exists i :: i in s.adders && Owes(s.adders[i]) }

  ghost predicate Inv(s: State) {
    && s.accepted == s.taken + s.tasks
    && MutexOk(s)
    && (s.worker.Waiting? && s.tasks != [] ==> Owed(s))
    && (s.shutdown in {Flushing, Unlocked, Finished} <==> s.threadState == Terminated)
    && (s.shutdown in {Unlocked, Finished} ==> s.tasks == [])
    && (s.worker.Exited? ==> s.threadState == Terminated)
  }

  lemma {:induction false} StepKeepsQueue(s: State, step: Step)
    requires Inv(s) && Next(s, step).Some?
    ensures var n := Next(s, step).value; n.accepted == n.taken + n.tasks
  {
    var n := Next(s, step).value;
    if n.tasks == s.tasks {
    } else if step.AdderPushes? {
      assert s.taken + (s.tasks + [s.adders[step.id].task]) == (s.taken + s.tasks) + [s.adders[step.id].task];
    } else {
      assert s.tasks == [s.tasks[0]] + s.tasks[1..];
    }
  }

  lemma {:induction false} StepKeepsMutex(s: State, step: Step)
    requires Inv(s) && Next(s, step).Some?
    ensures MutexOk(Next(s, step).value)
  {
  }

  /** No wakeup is lost: a task that arrives while the worker sleeps brings its own signal. */
  lemma {:induction false} StepKeepsOwed(s: State, step: Step)
    requires Inv(s) && Next(s, step).Some?
    ensures var n := Next(s, step).value; n.worker.Waiting? && n.tasks != [] ==> Owed(n)
  {
    var n := Next(s, step).value;
    if n.worker.Waiting? && n.tasks != [] {
      if s.tasks == [] {
        assert step.AdderPushes? && Owes(n.adders[step.id]);
      } else {
        var i :| i in s.adders && Owes(s.adders[i]);
        assert i in n.adders && Owes(n.adders[i]);
      }
    }
  }

  lemma {:induction false} StepKeepsInv(s: State, step: Step)
    requires Inv(s) && Next(s, step).Some?
    ensures Inv(Next(s, step).value)
  {
    StepKeepsQueue(s, step);
    StepKeepsMutex(s, step);
    StepKeepsOwed(s, step);
  }

  /** Every reachable state, in every interleaving of callers, worker and shutdown:
      the accepted tasks are the taken ones followed by the waiting ones, in order, and a
      sleeping worker with work to do has a notification on its way. */
  lemma {:induction false} RunKeepsInv(s: State, steps: seq<Step>)
    requires Inv(s) && Run(s, steps).Some?
    ensures Inv(Run(s, steps).value)
    decreases |steps|
  {
    if steps != [] {
      StepKeepsInv(s, steps[0]);
      RunKeepsInv(Next(s, steps[0]).value, steps[1..]);
    }
  }

  lemma {:induction false} ReachableIsSafe(steps: seq<Step>)
    requires Run(Start(), steps).Some?
    ensures Inv(Run(Start(), steps).value)
  {
    RunKeepsInv(Start(), steps);
  }

  /** What was accepted, and what was taken, only ever grows at its end. */
  lemma {:induction false} HistoryGrows(s: State, steps: seq<Step>)
    requires Run(s, steps).Some?
    ensures var n := Run(s, steps).value; s.accepted <= n.accepted && s.taken <= n.taken
    decreases |steps|
  {
    if steps != [] {
      HistoryGrows(Next(s, steps[0]).value, steps[1..]);
    }
  }

  // ---------- what is accepted, and that it can be taken ----------

  predicate Closes(step: Step) { step.Stop? || step.ShutdownTerminates? }

  /** The steps before the queue closes. */
  function WhileOpen(steps: seq<Step>): seq<Step> {
    if steps == [] || Closes(steps[0]) then [] else [steps[0]] + WhileOpen(steps[1..])
  }

  /** The tasks that are handed in under the lock, in order, from the calls and pushes alone. */
  function HandedIn(calls: map<nat, Task>, steps: seq<Step>): seq<Task>
    decreases |steps|
  {
    if steps == [] then []
    else match steps[0]
      case Call(id, t) => HandedIn(calls[id := t], steps[1..])
      case AdderPushes(id) => (if id in calls then [calls[id]] else []) + HandedIn(calls, steps[1..])
      case _ => HandedIn(calls, steps[1..])
  }

  /** Every caller that has not pushed yet still has the task it was called with. */
  ghost predicate Carries(s: State, calls: map<nat, Task>) {
    forall i :: i in s.adders && (s.adders[i].Called? || s.adders[i].Locked?) ==> i in calls && s.adders[i].task == calls[i]
  }

  /** Exactly the tasks handed in before the queue closes are accepted, in that order. */
  lemma {:induction false} AcceptsExactly(s: State, steps: seq<Step>, calls: map<nat, Task>)
    requires Run(s, steps).Some? && Carries(s, calls)
    ensures s.threadState == Running ==> Run(s, steps).value.accepted == s.accepted + HandedIn(calls, WhileOpen(steps))
    ensures s.threadState != Running ==> Run(s, steps).value.accepted == s.accepted
    decreases |steps|
  {
    if steps != [] {
      var step, n := steps[0], Next(s, steps[0]).value;
      AcceptsStep(s, step, calls);
      var calls' := if step.Call? then calls[step.id := step.task] else calls;
      AcceptsExactly(n, steps[1..], calls');
      hide Next;
      if s.threadState == Running && !Closes(step) {
        var rest := WhileOpen(steps[1..]);
        assert WhileOpen(steps) == [step] + rest && ([step] + rest)[1..] == rest;
        if step.AdderPushes? { Regroup(s.accepted, [calls[step.id]], HandedIn(calls, rest)); }
      } else {
        assert s.accepted + [] == s.accepted;
      }
    }
  }

  lemma {:induction false} AcceptsStep(s: State, step: Step, calls: map<nat, Task>)
    requires Next(s, step).Some? && Carries(s, calls)
    ensures var n := Next(s, step).value;
            && Carries(n, if step.Call? then calls[step.id := step.task] else calls)
            && (n.threadState == Running <==> s.threadState == Running && !Closes(step))
            && (step.AdderPushes? ==> step.id in calls)
            && n.accepted == s.accepted + if s.threadState == Running && step.AdderPushes? then [calls[step.id]] else []
  {
  }

  /** From the start: what is accepted is what was handed in before the queue closed. */
  lemma {:induction false} AcceptedIsHandedIn(steps: seq<Step>)
    requires Run(Start(), steps).Some?
    ensures Run(Start(), steps).value.accepted == HandedIn(map[], WhileOpen(steps))
  {
    AcceptsExactly(Start(), steps, map[]);
  }

  /** The worker, or the shutdown, can still get to the next task. */
  function Distance(s: State): nat {
    (match s.lock
     case Some(ByAdder(id)) => if id in s.adders && s.adders[id].Locked? then 20 else 10
     case _ => 0)
    + match s.worker
      case Waiting => 8
      case Woken => 7
      case Busy(_) => 6
      case Check => 5
      case WantLock => 4
      case Inside => 3
      case Taking => 2
      case Exited => 0
  }

  /** One step nearer to the next task being taken, or the step that takes it. */
  lemma {:induction false} Nearer(s: State) returns (step: Step)
    requires Inv(s) && s.tasks != []
    ensures Next(s, step).Some? && step != WorkerWakesByItself
    ensures var n := Next(s, step).value;
            || n.taken == s.taken + [s.tasks[0]]
            || (n.taken == s.taken && n.tasks != [] && n.tasks[0] == s.tasks[0] && Distance(n) < Distance(s))
            || (step == ShutdownTerminates && n.taken == s.taken && n.tasks == s.tasks)
  {
    if s.lock.Some? {
      match s.lock.value
      case ByAdder(id) => step := if s.adders[id].Locked? then AdderPushes(id) else AdderUnlocks(id);
      case ByShutdown => step := if s.shutdown == Begun then ShutdownTerminates else ShutdownFlushes;
      case ByWorker => step := if s.worker.Inside? then WorkerLooks else WorkerTakes;
    } else {
      match s.worker
      case Waiting =>
        var i :| i in s.adders && Owes(s.adders[i]);
        step := AdderNotifies(i);
      case Woken => step := WorkerRelocks;
      case Busy(_) => step := WorkerRuns;
      case Check => step := WorkerChecks;
      case WantLock => step := WorkerLocks;
    }
  }

  /** No waiting task is ever stuck: in every reachable state some steps lead to the next one being
      taken, without the worker waking by itself. */
  lemma {:induction false} NextCanBeTaken(s: State) returns (steps: seq<Step>)
    requires Inv(s) && s.tasks != []
    ensures Run(s, steps).Some? && NoSelfWakeups(steps)
    ensures Run(s, steps).value.taken == s.taken + [s.tasks[0]]
    decreases s.shutdown != NotCalled && s.threadState != Terminated, Distance(s)
  {
    var step := Nearer(s);
    StepKeepsInv(s, step);
    var n := Next(s, step).value;
    if n.taken == s.taken {
      var rest := NextCanBeTaken(n);
      steps := [step] + rest;
      assert steps[1..] == rest;
    } else {
      steps := [step];
      assert Run(n, []) == Some(n) && steps[1..] == [];
    }
  }

  /** Once shutdown is through, every task ever accepted has been taken, for good. */
  lemma {:induction false} NothingLeftBehind(steps: seq<Step>, more: seq<Step>)
    requires Run(Start(), steps).Some? && Run(Start(), steps).value.shutdown == Finished
    requires Run(Run(Start(), steps).value, more).Some?
    ensures var n := Run(Run(Start(), steps).value, more).value;
            n.taken == n.accepted == Run(Start(), steps).value.accepted
  {
    ReachableIsSafe(steps);
    var s := Run(Start(), steps).value;
    assert s.taken + [] == s.taken;
    FinishedAcceptsNothing(s, more);
  }

  lemma {:induction false} FinishedAcceptsNothing(s: State, steps: seq<Step>)
    requires Inv(s) && s.shutdown == Finished && Run(s, steps).Some?
    ensures var n := Run(s, steps).value;
            n.accepted == s.accepted && n.taken == s.taken
    decreases |steps|
  {
    if steps != [] {
      hide Next, Inv;
      StepKeepsInv(s, steps[0]);
      FinishedStep(s, steps[0]);
      FinishedAcceptsNothing(Next(s, steps[0]).value, steps[1..]);
    }
  }

  lemma {:induction false} FinishedStep(s: State, step: Step)
    requires Inv(s) && s.shutdown == Finished && Next(s, step).Some?
    ensures var n := Next(s, step).value;
            n.shutdown == Finished && n.accepted == s.accepted && n.taken == s.taken
  {
  }

  // ---------- shutting the worker down ----------

  /** Shutdown has sent its one notification and nobody owes another one. */
  ghost predicate Quiet(s: State) {
    Inv(s) && s.shutdown == Finished && !Owed(s)
  }

  /** The worker read the thread state before shutdown changed it and has yet to wait. */
  predicate PassedTheCheck(w: Worker) { w.WantLock? || w.Inside? || w.Waiting? }

  predicate NoSelfWakeups(steps: seq<Step>) {
    forall i :: 0 <= i < |steps| ==> steps[i] != WorkerWakesByItself
  }

  lemma {:induction false} QuietStep(s: State, step: Step)
    requires Quiet(s) && Next(s, step).Some? && step != WorkerWakesByItself
    ensures Quiet(Next(s, step).value)
    ensures PassedTheCheck(s.worker) <==> PassedTheCheck(Next(s, step).value.worker)
  {
    StepKeepsInv(s, step);
    var n := Next(s, step).value;
    forall i | i in n.adders
      ensures !Owes(n.adders[i])
    {
      if i in s.adders {
        assert !Owes(s.adders[i]);
      }
    }
  }

  /** A notification sent while the worker is between its check and its wait is lost: from
      then on, in every continuation, the worker has left its loop or can leave it exactly
      if it was not in that window. */
  lemma {:induction false} StrandedExactlyWhen(s: State, steps: seq<Step>)
    requires Quiet(s) && Run(s, steps).Some? && NoSelfWakeups(steps)
    ensures Quiet(Run(s, steps).value)
    ensures PassedTheCheck(Run(s, steps).value.worker) <==> PassedTheCheck(s.worker)
    ensures PassedTheCheck(s.worker) ==> Run(s, steps).value.worker != Exited
    decreases |steps|
  {
    if steps != [] {
      assert steps[0] != WorkerWakesByItself;
      QuietStep(s, steps[0]);
      StrandedExactlyWhen(Next(s, steps[0]).value, steps[1..]);
    }
  }

  /** How many of its own steps a worker outside that window still needs. */
  function StepsToExit(w: Worker): nat
  {
    match w
    case Exited => 0
    case Check => 1
    case Taking => 2
    case Busy(_) => 2
    case Woken => 3
    case _ => 4
  }

  /** Outside that window the worker's next step, once the mutex is free, leads it out. */
  lemma {:induction false} WorkerLeaves(s: State) returns (step: Step)
    requires Quiet(s) && !PassedTheCheck(s.worker) && s.worker != Exited
    requires s.worker.Woken? ==> s.lock == None
    ensures Next(s, step).Some?
    ensures StepsToExit(Next(s, step).value.worker) < StepsToExit(s.worker)
  {
    match s.worker
    case Check => step := WorkerChecks;
    case Taking => step := WorkerTakes;
    case Busy(_) => step := WorkerRuns;
    case Woken => step := WorkerRelocks;
  }

  /** One more step at the end of a run. */
  lemma {:induction false} RunThenStep(s: State, steps: seq<Step>, step: Step)
    requires Run(s, steps).Some?
    ensures Run(s, steps + [step]) == Next(Run(s, steps).value, step)
    decreases |steps|
  {
    if steps == [] {
      assert ([] + [step])[1..] == [];
    } else {
      assert (steps + [step])[1..] == steps[1..] + [step];
      RunThenStep(Next(s, steps[0]).value, steps[1..], step);
    }
  }

  lemma {:induction false} Extend(before: seq<Step>, step: Step) returns (steps: seq<Step>)
    requires Run(Start(), before).Some? && NoSelfWakeups(before) && step != WorkerWakesByItself
    requires Next(Run(Start(), before).value, step).Some?
    ensures Run(Start(), steps) == Next(Run(Start(), before).value, step)
    ensures NoSelfWakeups(steps)
  {
    steps := before + [step];
    RunThenStep(Start(), before, step);
  }

  /** The window is real: an interleaving in which the worker sleeps on after shutdown. */
  lemma {:induction false} ShutdownCanStrandWorker() returns (steps: seq<Step>)
    ensures Run(Start(), steps).Some? && NoSelfWakeups(steps)
    ensures Quiet(Run(Start(), steps).value) && Run(Start(), steps).value.worker == Waiting
  {
    hide Run, NoSelfWakeups;
    steps := ShutdownMissesWorker();
    steps := Extend(steps, ShutdownNotifies);
    steps := Extend(steps, WorkerLocks);
    steps := Extend(steps, WorkerLooks);
    ReachableIsSafe(steps);
  }

  /** The worker has read the state and not locked yet while shutdown goes by. */
  lemma {:induction false} ShutdownMissesWorker() returns (steps: seq<Step>)
    ensures NoSelfWakeups(steps)
    ensures Run(Start(), steps) == Some(State(Terminated, [], None, WantLock, map[], Unlocked, [], []))
  {
    steps := [];
    assert Run(Start(), steps) == Some(Start());
    hide Run, NoSelfWakeups;
    assert NoSelfWakeups([]) by { EmptyHasNoWakeups(); }
    steps := Extend(steps, WorkerChecks);
    steps := Extend(steps, ShutdownLocks);
    steps := Extend(steps, ShutdownTerminates);
    steps := Extend(steps, ShutdownUnlocks);
  }

  lemma {:induction false} EmptyHasNoWakeups()
    ensures NoSelfWakeups([])
  {
  }
}
