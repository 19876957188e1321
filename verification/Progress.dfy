/** Why the actors cannot deadlock: the main loop never waits for a task, every wait of a task is for
    somebody who can move, and a place in the outbound line is a bound on the wait. */
module Progress {
  import opened Net
  import opened Outbound
  import opened Manager
  import opened Safety

  /** How many steps the main loop still takes before it is back at its select. */
  function MainRank<K>(main: Main<K>): nat {
    match main
    case Idle => 0
    case Looking(_, _, locked) => if locked then 5 else 6
    case Missed(_, _) => 4
    case Creating(_, locked) => if locked then 2 else 3
    case Spawning(_) => 1
    case Sending(_, _, _) => 1
  }

  /** A next step of the main loop in the middle of a datagram; `d` is what it decides if it has to. */
  function MainStep<K>(main: Main<K>, d: Decision): Step<K>
    requires !main.Idle?
  {
    match main
    case Looking(_, _, locked) => if locked then MainLookup else MainLock
    case Missed(_, _) => MainDecide(d)
    case Creating(_, locked) => if locked then MainInsert else MainLock
    case Spawning(_) => MainSpawn
    case Sending(_, _, _) => MainTrySend
  }

  /** Handling a datagram, the main loop can always move at once or as soon as the task that holds the
      lock leaves its critical section, which that task can do whatever the channels hold; and that is so
      whatever the loop decides. */
  lemma MainNeverWaitsForTasks<K>(s: State<K>, d: Decision)
    requires Invariant(s) && !s.main.Idle?
    ensures || Enabled(s, MainStep(s.main, d))
            || (s.lock.ByTask? && Enabled(s, TaskRemove(s.lock.id))
                && Enabled(Next(s, TaskRemove(s.lock.id)), MainStep(s.main, d)))
  {
  }

  /** Its own steps bring it home in at most six, and no task's step sets it back. */
  lemma MainComesHome<K>(s: State<K>, step: Step<K>)
    requires Invariant(s) && Enabled(s, step)
    ensures !step.ByTask() && !step.Arrive? && !step.MainForward? ==>
              MainRank(Next(s, step).main) < MainRank(s.main) <= 6
    ensures step.ByTask() ==> Next(s, step).main == s.main
  {
  }

  lemma PlaceInLine<K>(s: State<K>, id: nat)
    requires s.out.InLine(id)
    ensures || (exists place: nat :: Enabled(s, TaskResume(place)) && s.out.line[place].sender == Some(id))
            || (exists i: nat, p: Pending :: s.out.Waits(p, i) && p.sender == Some(id))
  {
    var place: nat :| place < |s.out.line| && s.out.line[place].sender == Some(id);
    if place < s.out.granted {
      assert Enabled(s, TaskResume(place));
    } else {
      assert s.out.Waits(s.out.line[place], place - s.out.granted);
    }
  }

  /** A task that wants the lock can take it, or its holder gives it back with its next step. */
  lemma LockIsNear<K>(s: State<K>, id: nat)
    requires Invariant(s) && InPhase(s, id, Finished)
    ensures || Enabled(s, TaskLock(id))
            || (s.lock == ByMain && !s.main.Idle? && Enabled(s, MainStep(s.main, Ignore))
                && Next(s, MainStep(s.main, Ignore)).lock == Nobody)
            || (s.lock.ByTask? && Enabled(s, TaskRemove(s.lock.id)))
  {
  }

  /** What a task may be waiting for, phase by phase: the main loop, to spawn it; nothing, while it runs
      its own code or sits at its select, but for a place in the outbound line, which it has, or has at a
      known position; the broker; the lock, whose holder can release it with its next step; or nothing. */
  lemma TaskNeverStuck<K>(s: State<K>, id: nat)
    requires Invariant(s) && id < |s.tasks|
    ensures match s.tasks[id].phase
            case Created => s.main.Creating? && s.main.id == id
            case Inserted => s.main.Spawning? && s.main.id == id
            case Running =>
              || CanRun(s, id)
              || (exists place: nat :: Enabled(s, TaskResume(place)) && s.out.line[place].sender == Some(id))
              || (exists i: nat, p: Pending :: s.out.Waits(p, i) && p.sender == Some(id))
            case OnBroker => Enabled(s, TaskWake(id))
            case Finished =>
              || Enabled(s, TaskLock(id))
              || (s.lock == ByMain && !s.main.Idle? && Enabled(s, MainStep(s.main, Ignore))
                  && Next(s, MainStep(s.main, Ignore)).lock == Nobody)
              || (s.lock.ByTask? && Enabled(s, TaskRemove(s.lock.id)))
            case Removing => Enabled(s, TaskRemove(id))
            case Removed => Enabled(s, TaskDrop(id))
            case Dropped => true
  {
    if s.tasks[id].phase == Running && s.out.InLine(id) {
      PlaceInLine(s, id);
    } else if s.tasks[id].phase == Finished {
      LockIsNear(s, id);
    }
  }

  // ---- A place in the line is a bound on the wait ----

  function Forwards<K>(steps: seq<Step<K>>): nat
    decreases |steps|
  {
    if steps == [] then 0 else (if steps[0].MainForward? then 1 else 0) + Forwards(steps[1..])
  }

  ghost predicate AdmittedDuring<K>(s: State<K>, steps: seq<Step<K>>, p: Pending)
    requires IsRun(s, steps)
    decreases |steps|
  {
    s.out.Admitted(p) || (steps != [] && AdmittedDuring(Next(s, steps[0]), steps[1..], p))
  }

  lemma WaitStep<K>(s: State<K>, step: Step<K>, p: Pending, i: nat)
    requires Enabled(s, step) && s.out.Waits(p, i)
    ensures !step.MainForward? ==> Next(s, step).out.Waits(p, i)
    ensures step.MainForward? && i > 0 ==> Next(s, step).out.Waits(p, i - 1)
    ensures step.MainForward? && i == 0 ==> Next(s, step).out.Admitted(p)
  {
    if step.MainForward? {
      PositionAfterReceive(s.out, p, i);
    }
  }

  /** In every run, a sender at position `i` of the line is exactly `i - n` places from a slot after `n`
      receives, and it has been given a slot once `i + 1` receives have happened. */
  lemma {:induction false} AdmissionBound<K>(s: State<K>, steps: seq<Step<K>>, p: Pending, i: nat)
    requires IsRun(s, steps) && s.out.Waits(p, i)
    ensures Forwards(steps) <= i ==> After(s, steps).out.Waits(p, i - Forwards(steps))
    ensures Forwards(steps) > i ==> AdmittedDuring(s, steps, p)
    decreases |steps|
  {
    if steps != [] {
      WaitStep(s, steps[0], p, i);
      if !steps[0].MainForward? {
        AdmissionBound(Next(s, steps[0]), steps[1..], p, i);
      } else if i > 0 {
        AdmissionBound(Next(s, steps[0]), steps[1..], p, i - 1);
      }
    }
  }

  // ---- Schedules ----

  /** A mode of the proxy: what it allows, a decision it may take on a datagram that matches nothing, and
      what holds in its states. */
  datatype Mode<!K> = Mode(rule: (State<K>, Step<K>) -> bool, decide: State<K> -> Decision, good: State<K> -> bool)

  /** The decision is one the mode allows, the mode binds nothing but arrivals and decisions, and what is
      said to hold in its states is kept. */
  ghost predicate IsMode<K(!new)>(m: Mode<K>) {
    && (forall s, step | m.good(s) && Enabled(s, step) && m.rule(s, step) :: m.good(Next(s, step)))
    && (forall s, step: Step<K> | !step.Arrive? && !step.MainDecide? :: m.rule(s, step))
    && (forall s | m.good(s) && s.main.Missed? :: m.rule(s, MainDecide(m.decide(s))))
  }

  /** Steps that nobody outside the proxy has to provide: no new datagram, no broker or client event. */
  predicate Internal<K>(step: Step<K>) {
    && !step.Arrive? && !step.TaskReceive? && !step.TaskSend?
    && !step.TaskWait? && !step.TaskWake? && !step.TaskFinish?
  }

  predicate AllInternal<K>(steps: seq<Step<K>>) {
    forall i | 0 <= i < |steps| :: Internal(steps[i])
  }

  lemma Prepend<K>(rule: (State<K>, Step<K>) -> bool, s: State<K>, step: Step<K>, rest: seq<Step<K>>)
    requires Enabled(s, step) && rule(s, step) && Internal(step)
    requires IsRunOf(rule, Next(s, step), rest) && AllInternal(rest)
    ensures IsRunOf(rule, s, [step] + rest) && AllInternal([step] + rest)
    ensures After(s, [step] + rest) == After(Next(s, step), rest)
    ensures forall p | AdmittedDuring(Next(s, step), rest, p) :: AdmittedDuring(s, [step] + rest, p)
  {
    assert ([step] + rest)[1..] == rest;
  }

  /** From every state of every run there is a schedule that the mode allows, needing no outside event,
      that admits the waiter at position `i`, and it is short: the receiver is home after at most twelve
      steps (six of its own, each preceded by at most one release of the lock) and each place costs at
      most two. */
  lemma {:induction false} AdmissionSchedule<K(!new)>(m: Mode<K>, s: State<K>, p: Pending, i: nat)
    returns (steps: seq<Step<K>>)
    requires IsMode(m) && m.good(s) && Invariant(s) && s.out.Waits(p, i)
    ensures IsRunOf(m.rule, s, steps) && AllInternal(steps) && AdmittedDuring(s, steps, p)
    ensures |steps| <= ScheduleBound(s, i) <= 2 * 6 + 2 * (i + 1)
    decreases ScheduleBound(s, i)
  {
    var step := HelpfulStep(s, m.decide(s));
    HelpfulStepEnabled(m, s, p, i);
    var s' := Next(s, step);
    StepKeepsInvariant(s, step);
    WaitStep(s, step, p, i);
    MainComesHome(s, step);
    if step.MainForward? && i == 0 {
      steps := [];
    } else {
      steps := AdmissionSchedule(m, s', p, if step.MainForward? then i - 1 else i);
    }
    Prepend(m.rule, s, step, steps);
    steps := [step] + steps;
  }

  function ScheduleBound<K>(s: State<K>, i: nat): nat {
    if s.main.Idle? then 2 * i + (if s.out.queue == [] then 2 else 1)
    else 2 * MainRank(s.main) + 2 * (i + 1) - (if s.lock.ByTask? then 0 else 1)
  }

  function HelpfulStep<K>(s: State<K>, d: Decision): Step<K> {
    if s.main.Idle? then if s.out.queue == [] then TaskResume(0) else MainForward
    else if s.lock.ByTask? then TaskRemove(s.lock.id)
    else MainStep(s.main, d)
  }

  lemma HelpfulStepEnabled<K(!new)>(m: Mode<K>, s: State<K>, p: Pending, i: nat)
    requires IsMode(m) && m.good(s) && Invariant(s) && s.out.Waits(p, i)
    ensures var step := HelpfulStep(s, m.decide(s)); Enabled(s, step) && Internal(step) && m.rule(s, step)
  {
    if !s.main.Idle? {
      MainNeverWaitsForTasks(s, m.decide(s));
    }
  }

  // ---- The proxy comes to rest by itself ----

  /** The main loop is at its select, nobody holds or waits for anything that belongs to the proxy, and
      no task that is over is still in the table or keeps its channel. */
  ghost predicate AtRest<K>(s: State<K>) {
    && s.main.Idle? && s.lock.Nobody? && s.out.line == []
    && (forall i | 0 <= i < |s.tasks| && s.tasks[i].phase.Over() :: s.tasks[i].phase == Dropped)
  }

  /** How many steps a task that is over still takes. */
  function Farewell(phase: Phase): nat {
    match phase
    case Finished => 3
    case Removing => 2
    case Removed => 1
    case _ => 0
  }

  function Farewells<K>(tasks: seq<Task<K>>): nat {
    if tasks == [] then 0 else Farewells(tasks[..|tasks| - 1]) + Farewell(tasks[|tasks| - 1].phase)
  }

  lemma {:induction false} FarewellsUpdate<K>(tasks: seq<Task<K>>, i: nat, t: Task<K>)
    requires i < |tasks|
    ensures Farewells(tasks[i := t]) + Farewell(tasks[i].phase) == Farewells(tasks) + Farewell(t.phase)
  {
    var n := |tasks| - 1;
    if i < n {
      assert tasks[i := t][..n] == tasks[..n][i := t];
      FarewellsUpdate(tasks[..n], i, t);
    } else {
      assert tasks[i := t][..n] == tasks[..n];
    }
  }

  lemma {:induction false} FarewellsAtMost<K>(tasks: seq<Task<K>>)
    ensures Farewells(tasks) <= 3 * |tasks|
  {
    if tasks != [] {
      FarewellsAtMost(tasks[..|tasks| - 1]);
    }
  }

  function Work<K>(s: State<K>): nat
    requires s.out.granted <= |s.out.line|
  {
    MainRank(s.main) + Farewells(s.tasks) + 2 * |s.out.line| - s.out.granted
  }

  lemma TrySendFarewells<K>(s: State<K>)
    requires Enabled(s, MainTrySend)
    ensures Farewells(Next(s, MainTrySend).tasks) == Farewells(s.tasks)
  {
    FarewellsUpdate(s.tasks, s.main.id, TriedToSend(s).tasks[s.main.id]);
  }

  lemma DecideFarewells<K>(s: State<K>, d: Decision)
    requires Enabled(s, MainDecide(d))
    ensures Farewells(Next(s, MainDecide(d)).tasks) == Farewells(s.tasks)
  {
    if d.Create? {
      assert Decided(s, d).tasks[..|s.tasks|] == s.tasks;
    }
  }

  lemma PhaseFarewells<K>(s: State<K>, id: nat, phase: Phase)
    requires id < |s.tasks| && Farewell(phase) == Farewell(s.tasks[id].phase)
    ensures Farewells(SetPhase(s, id, phase).tasks) == Farewells(s.tasks)
  {
    FarewellsUpdate(s.tasks, id, s.tasks[id].(phase := phase));
  }

  lemma MainStepFarewells<K>(s: State<K>, step: Step<K>)
    requires MainConsistent(s) && Enabled(s, step) && !step.ByTask()
    ensures Farewells(Next(s, step).tasks) == Farewells(s.tasks)
  {
    match step
    case MainTrySend => TrySendFarewells(s);
    case MainInsert => PhaseFarewells(s, s.main.id, Inserted);
    case MainSpawn => PhaseFarewells(s, s.main.id, Running);
    case MainDecide(d) => DecideFarewells(s, d);
    case _ =>
  }

  lemma MainWork<K>(s: State<K>, step: Step<K>)
    requires Invariant(s) && Enabled(s, step) && !step.ByTask() && !step.Arrive? && !step.MainForward?
    ensures Next(s, step).out.granted == s.out.granted && Next(s, step).out.line == s.out.line
    ensures Work(Next(s, step)) < Work(s)
  {
    MainStepFarewells(s, step);
    MainComesHome(s, step);
  }

  lemma FarewellWork<K>(s: State<K>, step: Step<K>)
    requires s.out.granted <= |s.out.line|
    requires Enabled(s, step) && (step.TaskLock? || step.TaskRemove? || step.TaskDrop?)
    ensures Next(s, step).out == s.out && Work(Next(s, step)) == Work(s) - 1
  {
    FarewellsUpdate(s.tasks, step.id, Next(s, step).tasks[step.id]);
  }

  lemma LineWork<K>(s: State<K>, step: Step<K>)
    requires Invariant(s) && Enabled(s, step)
    requires step.TaskResume? || (step.MainForward? && s.out.granted < |s.out.line|)
    ensures Next(s, step).out.granted <= |Next(s, step).out.line| && Work(Next(s, step)) == Work(s) - 1
  {
  }

  lemma MainStepTowardsRest<K(!new)>(m: Mode<K>, s: State<K>) returns (step: Step<K>)
    requires IsMode(m) && m.good(s) && Invariant(s) && !s.main.Idle? && !s.lock.ByTask?
    ensures Enabled(s, step) && Internal(step) && m.rule(s, step)
    ensures Next(s, step).out.granted <= |Next(s, step).out.line| && Work(Next(s, step)) < Work(s)
  {
    step := MainStep(s.main, m.decide(s));
    MainNeverWaitsForTasks(s, m.decide(s));
    MainWork(s, step);
  }

  /** In a state not at rest the proxy has a step of its own that brings it nearer. */
  lemma StepTowardsRest<K(!new)>(m: Mode<K>, s: State<K>) returns (step: Step<K>)
    requires IsMode(m) && m.good(s) && Invariant(s) && !AtRest(s)
    ensures Enabled(s, step) && Internal(step) && m.rule(s, step)
    ensures Next(s, step).out.granted <= |Next(s, step).out.line| && Work(Next(s, step)) < Work(s)
  {
    if s.lock.ByTask? {
      step := TaskRemove(s.lock.id);
      FarewellWork(s, step);
    } else if !s.main.Idle? {
      step := MainStepTowardsRest(m, s);
    } else if s.out.line != [] {
      step := if s.out.granted > 0 then TaskResume(0) else MainForward;
      LineWork(s, step);
    } else {
      var i: nat :| i < |s.tasks| && s.tasks[i].phase.Over() && s.tasks[i].phase != Dropped;
      step := if s.tasks[i].phase == Finished then TaskLock(i) else TaskDrop(i);
      FarewellWork(s, step);
    }
  }

  /** The proxy's own steps bring no task to its end and revive none. */
  lemma InternalKeepsTasks<K>(s: State<K>, step: Step<K>, i: nat)
    requires Invariant(s) && Enabled(s, step) && Internal(step) && i < |s.tasks|
    ensures i < |Next(s, step).tasks| && Next(s, step).tasks[i].key == s.tasks[i].key
    ensures Next(s, step).tasks[i].phase.Over() <==> s.tasks[i].phase.Over()
  {
  }

  /** A task that was over has left the table and dropped its channel; the others have not. */
  ghost predicate TaskAtRest<K>(s: State<K>, s': State<K>, i: nat)
    requires i < |s.tasks|
  {
    && i < |s'.tasks| && s'.tasks[i].key == s.tasks[i].key
    && (s'.tasks[i].phase == Dropped <==> s.tasks[i].phase.Over())
    && (s.tasks[i].phase.Over() ==> forall k | k in s'.table :: s'.table[k] != i)
  }

  /** What the schedule of the next theorem does: it needs no outside event, and after it the main loop is
      at its select, the lock is free, nobody stands in line, and every task that was over, and no other,
      has left the table and dropped its channel.  It takes at most six steps of the main loop, three for
      each task and two for each place in the line. */
  ghost predicate BringsRest<K>(s: State<K>, steps: seq<Step<K>>)
    requires IsRun(s, steps)
  {
    var s' := After(s, steps);
    && AllInternal(steps) && |steps| <= 6 + 3 * |s.tasks| + 2 * |s.out.line|
    && AtRest(s')
    && forall i | 0 <= i < |s.tasks| :: TaskAtRest(s, s', i)
  }

  lemma {:induction false} RestSchedule<K(!new)>(m: Mode<K>, s: State<K>) returns (steps: seq<Step<K>>)
    requires IsMode(m) && m.good(s) && Invariant(s)
    ensures IsRunOf(m.rule, s, steps) && AllInternal(steps) && AtRest(After(s, steps)) && |steps| <= Work(s)
    decreases Work(s)
  {
    if AtRest(s) {
      steps := [];
    } else {
      var step := StepTowardsRest(m, s);
      StepKeepsInvariant(s, step);
      var rest := RestSchedule(m, Next(s, step));
      Prepend(m.rule, s, step, rest);
      steps := [step] + rest;
    }
  }

  lemma {:induction false} InternalRunKeepsTasks<K>(s: State<K>, steps: seq<Step<K>>, i: nat)
    requires Invariant(s) && IsRun(s, steps) && AllInternal(steps) && i < |s.tasks|
    ensures var s' := After(s, steps);
            && i < |s'.tasks| && s'.tasks[i].key == s.tasks[i].key
            && (s'.tasks[i].phase.Over() <==> s.tasks[i].phase.Over())
    decreases |steps|
  {
    if steps != [] {
      StepKeepsInvariant(s, steps[0]);
      InternalKeepsTasks(s, steps[0], i);
      InternalRunKeepsTasks(Next(s, steps[0]), steps[1..], i);
    }
  }

  lemma TaskComesToRest<K>(s: State<K>, steps: seq<Step<K>>, i: nat)
    requires Invariant(s) && IsRun(s, steps) && AllInternal(steps) && AtRest(After(s, steps)) && i < |s.tasks|
    ensures TaskAtRest(s, After(s, steps), i)
  {
    RunKeepsInvariant(s, steps);
    InternalRunKeepsTasks(s, steps, i);
  }

  /** From every state of every run there is a schedule that the mode allows and that brings the proxy to
      rest. */
  lemma ComesToRest<K(!new)>(m: Mode<K>, s: State<K>) returns (steps: seq<Step<K>>)
    requires IsMode(m) && m.good(s) && Invariant(s)
    ensures IsRunOf(m.rule, s, steps) && BringsRest(s, steps) && |steps| <= Work(s)
  {
    FarewellsAtMost(s.tasks);
    steps := RestSchedule(m, s);
    forall i | 0 <= i < |s.tasks| ensures TaskAtRest(s, After(s, steps), i) {
      TaskComesToRest(s, steps, i);
    }
  }

  // ---- It cannot but come to rest ----

  /** What is left to do for the proxy itself, the way out to the socket included. */
  function Load<K>(s: State<K>): nat
    requires s.out.granted <= |s.out.line|
  {
    MainRank(s.main) + Farewells(s.tasks) + |s.out.queue| + 3 * |s.out.line| - s.out.granted
  }

  lemma MainFalls<K>(s: State<K>, step: Step<K>)
    requires Invariant(s) && Enabled(s, step) && Internal(step) && !step.ByTask()
    ensures Next(s, step).out.granted <= |Next(s, step).out.line| && Load(Next(s, step)) < Load(s)
  {
    MainStepFarewells(s, step);
    if !step.MainForward? {
      MainComesHome(s, step);
    }
  }

  lemma TaskFalls<K>(s: State<K>, step: Step<K>)
    requires s.out.granted <= |s.out.line| && Enabled(s, step) && Internal(step) && step.ByTask()
    ensures Next(s, step).out.granted <= |Next(s, step).out.line| && Load(Next(s, step)) < Load(s)
  {
    if !step.TaskResume? {
      FarewellWork(s, step);
    }
  }

  /** Every run of the proxy's own steps uses up what is left to do. */
  lemma {:induction false} InternalRunFalls<K>(s: State<K>, steps: seq<Step<K>>)
    requires Invariant(s) && IsRun(s, steps) && AllInternal(steps)
    ensures Invariant(After(s, steps)) && |steps| + Load(After(s, steps)) <= Load(s)
    decreases |steps|
  {
    if steps != [] {
      StepKeepsInvariant(s, steps[0]);
      if steps[0].ByTask() {
        TaskFalls(s, steps[0]);
      } else {
        MainFalls(s, steps[0]);
      }
      InternalRunFalls(Next(s, steps[0]), steps[1..]);
    }
  }

  lemma {:induction false} RunKeepsGood<K(!new)>(m: Mode<K>, s: State<K>, steps: seq<Step<K>>)
    requires IsMode(m) && m.good(s) && IsRunOf(m.rule, s, steps)
    ensures m.good(After(s, steps))
    decreases |steps|
  {
    if steps != [] {
      RunKeepsGood(m, Next(s, steps[0]), steps[1..]);
    }
  }

  /** No step of the proxy's own is left that the mode allows. */
  ghost predicate NothingLeft<K(!new)>(m: Mode<K>, s: State<K>) {
    forall step | Enabled(s, step) && Internal(step) :: !m.rule(s, step)
  }

  /** Only the outside can stop the proxy, or start it again: it has no step of its own left exactly when it
      is at rest and has sent all it had to send. */
  lemma NothingLeftIff<K(!new)>(m: Mode<K>, s: State<K>)
    requires IsMode(m) && m.good(s) && Invariant(s)
    ensures NothingLeft(m, s) <==> AtRest(s) && s.out.queue == []
  {
    if NothingLeft(m, s) {
      if !AtRest(s) {
        var step := StepTowardsRest(m, s);
        assert false;
      }
      var forward: Step<K> := MainForward;
      assert !(Enabled(s, forward) && Internal(forward) && m.rule(s, forward));
    }
  }

  /** Whatever the proxy does by itself, in whatever order and as long as it can, it comes to rest: no run of
      its own steps is longer than what there was to do, and one that cannot go on has brought rest, has sent
      everything, and has admitted everyone who stood in line. */
  lemma EveryRunComesToRest<K(!new)>(m: Mode<K>, s: State<K>, steps: seq<Step<K>>)
    requires IsMode(m) && m.good(s) && Invariant(s) && IsRunOf(m.rule, s, steps) && AllInternal(steps)
    ensures |steps| <= Load(s) <= 6 + 3 * |s.tasks| + |s.out.queue| + 3 * |s.out.line|
    ensures NothingLeft(m, After(s, steps)) ==> RestAfter(s, steps)
  {
    FarewellsAtMost(s.tasks);
    InternalRunFalls(s, steps);
    RunKeepsGood(m, s, steps);
    var s' := After(s, steps);
    NothingLeftIff(m, s');
    if NothingLeft(m, s') {
      forall p, i: nat | s.out.Waits(p, i) ensures AdmittedDuring(s, steps, p) {
        AdmissionBound(s, steps, p, i);
      }
      forall i | 0 <= i < |s.tasks| ensures TaskAtRest(s, s', i) {
        TaskComesToRest(s, steps, i);
      }
    }
  }

  ghost predicate RestAfter<K(!new)>(s: State<K>, steps: seq<Step<K>>)
    requires IsRun(s, steps)
  {
    var s' := After(s, steps);
    && AtRest(s') && s'.out.queue == []
    && (forall p, i: nat | s.out.Waits(p, i) :: AdmittedDuring(s, steps, p))
    && (forall i | 0 <= i < |s.tasks| :: TaskAtRest(s, s', i))
  }
}
