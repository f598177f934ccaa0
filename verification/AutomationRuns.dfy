/** The worker running: tasks, the shared generation, session storage, and what is issued when. */
module AutomationRuns {
  import opened Prelude
  import opened Automation

  /** An operation a task waits for. `value` is what a storage operation writes, or what it read
      once it was performed; operations on anything else count as performed. */
  datatype Wait = Wait(call: Call, id: nat, quiet: bool, value: Option<Stored>, performed: bool)

  datatype Task = Task(code: Code, handlers: seq<Code>, captured: nat, stored: Option<Stored>, control: Option<Stored>,
                       polled: Option<string>, job: Option<Job>, newId: string, waiting: Option<Wait>, flags: Flags)

  /** One operation issued by a task for its job, if it has one, with the generation the task had captured
      and the one then present. */
  datatype Issue = Issue(call: Call, task: nat, job: Option<string>, captured: nat, generation: nat)

  /** `minted` holds the generations made by start(); `log` and `executed` only record. */
  datatype Worker = Worker(generation: nat, running: bool, session: Option<Stored>, tasks: map<nat, Task>,
                           current: Option<nat>,
                           nextTask: nat, minted: set<nat>, log: seq<Issue>, executed: seq<string>)

  /** What an awaited call may bring back. */
  datatype Outcome = Rejected | Fulfilled(polled: Option<string>, job: Option<Job>, newId: string)

  datatype Label =
    | Spawn(code: Code)                      // an event calls start, stop or tick
    | Run(choice: bool, tab: int)            // the current task executes one instruction
    | Perform(task: nat)                     // session storage carries out a pending operation
    | Resume(task: nat, outcome: Outcome)    // an awaited call settles
    | ClearSession                           // worker.js clears session storage

  function NewTask(c: Code): Task {
    Task(c, [], 0, None, None, None, None, "", None, NOTHING)
  }

  predicate Entry(c: Code) {
    c == Start() || c == Pause(true, Done) || c == Pause(false, Done) || c == Tick()
  }

  function PutTask(w: Worker, t: nat, k: Task): Worker {
    w.(tasks := w.tasks[t := k])
  }

  /** An exception: the innermost handler takes over, or the task ends. */
  function Unwind(w: Worker, t: nat, k: Task): Worker {
    if k.handlers == [] then w.(tasks := w.tasks - {t}, current := None)
    else
      var caught := k.(code := k.handlers[0], handlers := k.handlers[1..], flags := NOTHING, waiting := None);
      PutTask(w, t, caught).(current := Some(t))
  }

  predicate Holds(cond: Cond, w: Worker, k: Task, choice: bool) {
    match cond
    case Busy => w.running
    case NoControl => k.stored.None?
    case HasStored => k.stored.Some?
    case Paused => w.generation != k.captured
    case OtherControl => k.control.None? || k.polled != Some(k.control.value.id)
    case NoJob => k.job.None?
    case Managed => k.control.Some? && k.control.value.managed
    case Unmanaged => k.control.None? || !k.control.value.managed
    case Unpaired => choice
    case Paired => choice
    case SameTab => choice
  }

  predicate Storage(c: Call) {
    c == StoreGet || c == StoreNew || c == StoreSwitch || c == StoreRemove
  }

  /** The control record a task writes: its own new one, or the checked one with another tab. */
  function Written(k: Task, c: Call, tab: int): Option<Stored> {
    match c
    case StoreNew => Some(Stored(k.newId, tab, false, k.captured))
    case StoreSwitch => if k.control.Some? then Some(k.control.value.(tabId := tab)) else None
    case _ => None
  }

  function JobOf(k: Task): Option<string> {
    if k.job.Some? then Some(k.job.value.id) else None
  }

  function IssueCall(w: Worker, t: nat, k: Task, c: Call, quiet: bool, tab: int): Worker {
    PutTask(w, t, k.(waiting := Some(Wait(c, |w.log|, quiet, Written(k, c, tab), !Storage(c))))).(
      current := None, log := w.log + [Issue(c, t, JobOf(k), k.captured, w.generation)])
  }

  predicate IsCall(i: Instr) {
    i.Await? || i.Quietly? || i.AwaitIf?
  }

  /** Issuing instruction `i`; writing a changed copy of a control that is not there throws first. */
  function ExecCall(w: Worker, t: nat, k: Task, i: Instr, choice: bool, tab: int): Worker
    requires k.code.Do? && k.code.head == i && IsCall(i)
  {
    var n := k.(code := k.code.next, flags := After(i, k.flags));
    if i.call == StoreSwitch && k.control.None? then Unwind(w, t, k)
    else if i.AwaitIf? && !Holds(i.cond, w, k, choice) then PutTask(w, t, n)
    else IssueCall(w, t, n, i.call, i.Quietly? || (i.AwaitIf? && i.call == Detach), tab)
  }

  /** What an instruction inside the synchronous segment makes of its task; None when it throws. */
  function LocalTask(w: Worker, k: Task, choice: bool): Option<Task>
    requires k.code.Do? && !IsCall(k.code.head)
  {
    var i := k.code.head;
    var n := k.(code := k.code.next, flags := After(i, k.flags));
    match i
    case NewGeneration(start) => Some(if start then n.(captured := w.generation + 1) else n)
    case Capture => Some(n.(captured := w.generation))
    case AssertGeneration => if w.generation == k.captured then Some(n) else None
    case TestControl(same) =>
      if k.stored.Some? && k.stored.value.generation == k.captured
        && (same ==> k.job.Some? && k.job.value.controlId == k.stored.value.id)
      then Some(n) else None
    case Keep => Some(n.(control := k.stored))
    case Test => if choice then Some(n) else None
    case Throw => None
    case Try(handler) => Some(n.(handlers := [handler] + k.handlers))
    case EndTry => Some(n.(handlers := if k.handlers == [] then [] else k.handlers[1..]))
    case Branch(cond, instead) => Some(if Holds(cond, w, k, choice) then k.(code := instead, flags := NOTHING) else n)
    case SetRunning(on) => Some(n)
    case BeginExecute =>
      if k.job.None? then None else Some(k.(code := Execute(k.job.value.action, k.code.next), flags := NOTHING))
  }

  function ExecLocal(w: Worker, t: nat, k: Task, i: Instr, choice: bool): Worker
    requires k.code.Do? && k.code.head == i && !IsCall(i)
  {
    var n := LocalTask(w, k, choice);
    if n.None? then Unwind(w, t, k)
    else
      var v := PutTask(w, t, n.value);
      match i
      case NewGeneration(start) =>
        v.(generation := w.generation + 1, minted := if start then w.minted + {w.generation + 1} else w.minted)
      case SetRunning(on) => v.(running := on)
      case BeginExecute => v.(executed := w.executed + if k.job.Some? then [k.job.value.id] else [])
      case _ => v
  }

  /** The current task executes the next instruction of its code. */
  function Exec(w: Worker, choice: bool, tab: int): Worker
    requires w.current.Some? && w.current.value in w.tasks
  {
    var t := w.current.value;
    var k := w.tasks[t];
    match k.code
    case Done => w.(tasks := w.tasks - {t}, current := None)
    case Do(i, _) => if IsCall(i) then ExecCall(w, t, k, i, choice, tab) else ExecLocal(w, t, k, i, choice)
  }

  predicate Waits(w: Worker, t: nat) {
    t in w.tasks && w.tasks[t].waiting.Some?
  }

  /** Session storage performs the operation task `t` waits for. */
  function Store(w: Worker, t: nat): Worker
    requires Waits(w, t)
  {
    var k := w.tasks[t];
    var wait := k.waiting.value;
    match wait.call
    case StoreGet => PutTask(w, t, k.(waiting := Some(wait.(value := w.session, performed := true))))
    case StoreRemove => PutTask(w, t, k.(waiting := Some(wait.(performed := true)))).(session := None)
    case _ => PutTask(w, t, k.(waiting := Some(wait.(performed := true)))).(session := wait.value)
  }

  function Settle(w: Worker, t: nat, outcome: Outcome): Worker
    requires Waits(w, t)
  {
    var k := w.tasks[t];
    var wait := k.waiting.value;
    var n := k.(waiting := None);
    if outcome.Rejected? then
      if wait.quiet then PutTask(w, t, n).(current := Some(t)) else Unwind(w, t, k)
    else
      var m := match wait.call
               case StoreGet => n.(stored := wait.value)
               case PollApi => n.(polled := outcome.polled, job := outcome.job)
               case ControlOnApi => n.(newId := outcome.newId)
               case _ => n;
      PutTask(w, t, m).(current := Some(t))
  }

  ghost predicate Step(w: Worker, l: Label, v: Worker) {
    match l
    case Spawn(c) =>
      w.current.None? && Entry(c) &&
      v == PutTask(w, w.nextTask, NewTask(c)).(current := Some(w.nextTask), nextTask := w.nextTask + 1)
    case Run(choice, tab) => w.current.Some? && w.current.value in w.tasks && v == Exec(w, choice, tab)
    case Perform(t) =>
      Waits(w, t) && !w.tasks[t].waiting.value.performed && v == Store(w, t)
    case Resume(t, outcome) =>
      w.current.None? && Waits(w, t) && (outcome.Fulfilled? ==> w.tasks[t].waiting.value.performed)
        && v == Settle(w, t, outcome)
    case ClearSession => v == w.(session := None)
  }

  /** A worker that has just been started by the browser: its session storage may still hold the
      control record of a worker that was shut down, and its first task is the recovery stop. */
  ghost predicate Boots(w: Worker, leftover: Option<Stored>) {
    && w.generation == 0 && !w.running && w.session == leftover && w.minted == {}
    && (exists t :: t < w.nextTask && w.tasks == map[t := NewTask(Stop(true, Done))] && w.current == Some(t))
  }

  // ---------------------------------------------------------------- invariant

  /** Generation `g` was made by a start(), or is the one a leftover record carries. */
  predicate Sanctioned(g: nat, minted: set<nat>, leftover: Option<Stored>) {
    g in minted || (leftover.Some? && leftover.value.generation == g)
  }

  predicate SanctionedRecord(s: Option<Stored>, minted: set<nat>, leftover: Option<Stored>) {
    s.Some? ==> Sanctioned(s.value.generation, minted, leftover)
  }

  ghost predicate TaskInv(w: Worker, t: nat, k: Task, leftover: Option<Stored>) {
    && t < w.nextTask
    && Guarded(k.code, k.flags)
    && (forall h :: h in k.handlers ==> Guarded(h, NOTHING))
    && SanctionedRecord(k.stored, w.minted, leftover)
    && SanctionedRecord(k.control, w.minted, leftover)
    && (k.flags.auth ==> Sanctioned(k.captured, w.minted, leftover))
    && (k.flags.live ==> k.captured == w.generation && w.current == Some(t))
    && (k.waiting.Some? <==> w.current != Some(t))
    && (k.waiting.Some? ==> SanctionedRecord(k.waiting.value.value, w.minted, leftover))
  }

  /** A guarded effect was issued while the generation was the captured one, and a sanctioned one. */
  ghost predicate GoodIssue(i: Issue, minted: set<nat>, leftover: Option<Stored>) {
    Guards(i.call) ==> i.captured == i.generation && Sanctioned(i.generation, minted, leftover)
  }

  ghost predicate Inv(w: Worker, leftover: Option<Stored>) {
    && (w.current.Some? ==> w.current.value in w.tasks)
    && (forall t :: t in w.tasks ==> TaskInv(w, t, w.tasks[t], leftover))
    && SanctionedRecord(w.session, w.minted, leftover)
    && (forall g :: g in w.minted ==> g <= w.generation)
  }

  lemma BootInv(w: Worker, leftover: Option<Stored>)
    requires Boots(w, leftover)
    ensures Inv(w, leftover)
  {
    StopGuarded(true, Done, NOTHING);
  }

  lemma EntryGuarded(c: Code)
    requires Entry(c)
    ensures Guarded(c, NOTHING)
  {
    StartGuarded();
    TickGuarded();
    PauseGuarded(true, Done);
    PauseGuarded(false, Done);
  }

  /** Tasks other than the one that moved are as they were, in a worker whose generation may only
      have moved while they were suspended. */
  lemma OthersKeep(w: Worker, v: Worker, t: nat, j: nat, leftover: Option<Stored>)
    requires Inv(w, leftover) && j in w.tasks && j != t
    requires w.minted <= v.minted && w.nextTask <= v.nextTask
    requires w.current != Some(j) && v.current != Some(j)
    ensures TaskInv(v, j, w.tasks[j], leftover)
  {
    hide Guarded;
    assert TaskInv(w, j, w.tasks[j], leftover);
  }

  /** One task changed, possibly with the generation; the rest of the invariant follows from its own. */
  lemma OneTaskMoves(w: Worker, v: Worker, t: nat, leftover: Option<Stored>)
    requires Inv(w, leftover)
    requires v.tasks.Keys <= w.tasks.Keys + {t}
    requires (forall j :: j in v.tasks && j != t ==> j in w.tasks && v.tasks[j] == w.tasks[j])
    requires w.minted <= v.minted && w.nextTask <= v.nextTask
    requires forall j :: j in w.tasks && j != t ==> w.current != Some(j) && v.current != Some(j)
    requires t in v.tasks ==> TaskInv(v, t, v.tasks[t], leftover)
    requires v.current.Some? ==> v.current.value in v.tasks
    requires SanctionedRecord(v.session, v.minted, leftover)
    requires forall g :: g in v.minted ==> g <= v.generation
    ensures Inv(v, leftover)
  {
    forall j | j in v.tasks ensures TaskInv(v, j, v.tasks[j], leftover) {
      if j != t { OthersKeep(w, v, t, j, leftover); }
    }
  }

  lemma UnwindTask(w: Worker, t: nat, k: Task, leftover: Option<Stored>)
    requires Inv(w, leftover) && t in w.tasks && k == w.tasks[t] && (w.current == Some(t) || w.current.None?)
    ensures Inv(Unwind(w, t, k), leftover)
  {
    hide Guarded;
    var v := Unwind(w, t, k);
    assert TaskInv(w, t, k, leftover);
    if k.handlers != [] {
      assert k.handlers[0] in k.handlers;
      assert forall h :: h in k.handlers[1..] ==> h in k.handlers;
    }
    OneTaskMoves(w, v, t, leftover);
  }

  /** Issuing a call: the task suspends, and a guarded call is a good issue. */
  lemma IssueTask(w: Worker, t: nat, n: Task, c: Call, quiet: bool, tab: int, f: Flags, leftover: Option<Stored>)
    requires Inv(w, leftover) && w.current == Some(t) && t in w.tasks
    requires n == w.tasks[t].(code := n.code, flags := n.flags) && f == w.tasks[t].flags
    requires Guarded(n.code, n.flags) && !n.flags.live && (n.flags.auth ==> f.auth)
    requires Guards(c) ==> f.live && f.auth
    ensures Inv(IssueCall(w, t, n, c, quiet, tab), leftover)
    ensures GoodIssue(Issue(c, t, JobOf(n), n.captured, w.generation), w.minted, leftover)
  {
    hide Guarded;
    assert TaskInv(w, t, w.tasks[t], leftover);
    OneTaskMoves(w, IssueCall(w, t, n, c, quiet, tab), t, leftover);
  }

  lemma ExecKeeps(w: Worker, choice: bool, tab: int, leftover: Option<Stored>)
    requires Inv(w, leftover) && w.current.Some?
    ensures var v := Exec(w, choice, tab);
            && Inv(v, leftover) && w.minted <= v.minted && w.generation <= v.generation
            && (v.log == w.log || exists i ::
                  v.log == w.log + [i] && GoodIssue(i, v.minted, leftover) && i.generation == w.generation)
  {
    var t := w.current.value;
    var k := w.tasks[t];
    assert TaskInv(w, t, k, leftover);
    UnwindTask(w, t, k, leftover);
    if k.code.Do? {
      ExecInstr(w, t, k, k.code.head, k.code.next, choice, tab, leftover);
    } else {
      OneTaskMoves(w, Exec(w, choice, tab), t, leftover);
    }
  }

  lemma ExecInstr(w: Worker, t: nat, k: Task, i: Instr, next: Code, choice: bool, tab: int, leftover: Option<Stored>)
    requires Inv(w, leftover) && w.current == Some(t) && t in w.tasks && k == w.tasks[t] && k.code == Do(i, next)
    requires Inv(Unwind(w, t, k), leftover)
    ensures var v := Exec(w, choice, tab);
            && Inv(v, leftover) && w.minted <= v.minted && w.generation <= v.generation
            && (v.log == w.log || exists i ::
                  v.log == w.log + [i] && GoodIssue(i, v.minted, leftover) && i.generation == w.generation)
  {
    hide JobOf, Written, IssueCall;
    var v := Exec(w, choice, tab);
    var n := k.(code := next, flags := After(i, k.flags));
    assert TaskInv(w, t, k, leftover);
    assert Guarded(next, After(i, k.flags));
    if i.BeginExecute? && k.job.Some? { ExecuteGuarded(k.job.value.action, next); }
    if IsCall(i) {
      hide Guarded, ExecLocal, ExecCall;
      CallInstr(w, t, k, n, i, i.call, i.Quietly? || (i.AwaitIf? && i.call == Detach), choice, tab, leftover);
    } else {
      hide TaskInv;
      LocalTaskInv(w, t, k, choice, leftover);
      hide Guarded, LocalTask, Inv;
      if LocalTask(w, k, choice).Some? { PlainTask(w, v, t, leftover); }
    }
  }

  lemma HeadGuarded(k: Task)
    requires Guarded(k.code, k.flags) && k.code.Do?
    ensures var i := k.code.head;
      && Guarded(k.code.next, After(i, k.flags))
      && (i.Try? ==> Guarded(i.handler, NOTHING)) && (i.Branch? ==> Guarded(i.instead, NOTHING))
  {
  }

  /** The changed task is as it should be, in the worker as that instruction leaves it. */
  lemma LocalTaskInv(w: Worker, t: nat, k: Task, choice: bool, leftover: Option<Stored>)
    requires w.current == Some(t) && t in w.tasks && k == w.tasks[t] && TaskInv(w, t, k, leftover)
    requires k.code.Do? && !IsCall(k.code.head)
    requires k.code.head.BeginExecute? && k.job.Some? ==> Guarded(Execute(k.job.value.action, k.code.next), NOTHING)
    ensures var n := LocalTask(w, k, choice);
            n.Some? ==> TaskInv(ExecLocal(w, t, k, k.code.head, choice), t, n.value, leftover) && n.value.waiting.None?
  {
    hide Execute, Guarded;
    HeadGuarded(k);
    LocalHandlers(w, k, choice);
    LocalFlags(w, k, choice);
    hide LocalTask;
  }

  lemma LocalHandlers(w: Worker, k: Task, choice: bool)
    requires k.code.Do? && !IsCall(k.code.head) && (k.code.head.Try? ==> Guarded(k.code.head.handler, NOTHING))
    requires forall h :: h in k.handlers ==> Guarded(h, NOTHING)
    ensures var n := LocalTask(w, k, choice); n.Some? ==> forall h :: h in n.value.handlers ==> Guarded(h, NOTHING)
  {
    hide Execute, Guarded;
    assert k.handlers != [] ==> forall h :: h in k.handlers[1..] ==> h in k.handlers;
  }

  lemma LocalFlags(w: Worker, k: Task, choice: bool)
    requires k.code.Do? && !IsCall(k.code.head) && Guarded(k.code.next, After(k.code.head, k.flags))
    requires k.code.head.Branch? ==> Guarded(k.code.head.instead, NOTHING)
    requires k.code.head.BeginExecute? && k.job.Some? ==> Guarded(Execute(k.job.value.action, k.code.next), NOTHING)
    ensures var i := k.code.head; var r := LocalTask(w, k, choice);
      r.Some? ==>
        var n := r.value;
        && Guarded(n.code, n.flags) && n.waiting == k.waiting && n.stored == k.stored
        && (n.control == k.control || n.control == k.stored)
        && n.captured == (if i == NewGeneration(true) then w.generation + 1
                          else if i.Capture? then w.generation else k.captured)
        && (n.flags.auth ==>
              k.flags.auth || i == NewGeneration(true) || (k.stored.Some? && k.stored.value.generation == k.captured))
        && (n.flags.auth ==> !i.Capture?)
        && (n.flags.live ==> k.flags.live || i == NewGeneration(true) || n.captured == w.generation)
        && (i == NewGeneration(false) ==> !n.flags.live)
  {
    hide Execute, Guarded;
  }

  /** A step inside a synchronous segment. */
  lemma PlainTask(w: Worker, v: Worker, t: nat, leftover: Option<Stored>)
    requires Inv(w, leftover) && w.current == Some(t) && v.current == Some(t) && t in v.tasks
    requires v.tasks == w.tasks[t := v.tasks[t]]
    requires w.minted <= v.minted <= w.minted + {v.generation} && w.generation <= v.generation
    requires v.nextTask == w.nextTask && v.session == w.session
    requires TaskInv(v, t, v.tasks[t], leftover)
    ensures Inv(v, leftover)
  {
    hide Guarded;
    OneTaskMoves(w, v, t, leftover);
  }

  lemma CallInstr(w: Worker, t: nat, k: Task, n: Task, i: Instr, c: Call, quiet: bool, choice: bool, tab: int,
      leftover: Option<Stored>)
    requires Inv(w, leftover) && w.current == Some(t) && t in w.tasks && k == w.tasks[t] && k.code.Do?
    requires k.code.head == i
    requires (i.Await? || i.Quietly? || i.AwaitIf?) && i.call == c
    requires n == k.(code := k.code.next, flags := After(i, k.flags))
    requires quiet == (i.Quietly? || (i.AwaitIf? && c == Detach))
    requires Inv(Unwind(w, t, k), leftover)
    ensures var v := Exec(w, choice, tab);
            && Inv(v, leftover) && w.minted <= v.minted && w.generation <= v.generation
            && (v.log == w.log || exists i ::
                  v.log == w.log + [i] && GoodIssue(i, v.minted, leftover) && i.generation == w.generation)
  {
    var v := Exec(w, choice, tab);
    assert TaskInv(w, t, k, leftover);
    assert Guarded(n.code, n.flags) && (Guards(c) ==> k.flags.live && k.flags.auth);
    hide Guarded;
    IssueTask(w, t, n, c, quiet, tab, k.flags, leftover);
    if v == PutTask(w, t, n) {
      PlainTask(w, v, t, leftover);
    } else if v != Unwind(w, t, k) {
      assert v.log == w.log + [Issue(c, t, JobOf(n), n.captured, w.generation)];
    }
  }

  lemma SettleKeeps(w: Worker, t: nat, outcome: Outcome, leftover: Option<Stored>)
    requires Inv(w, leftover) && w.current.None? && Waits(w, t)
    ensures Inv(Settle(w, t, outcome), leftover)
    ensures var v := Settle(w, t, outcome); v.minted == w.minted && v.generation == w.generation && v.log == w.log
  {
    hide Guarded;
    assert TaskInv(w, t, w.tasks[t], leftover);
    var k := w.tasks[t];
    UnwindTask(w, t, k, leftover);
    if outcome.Fulfilled? || k.waiting.value.quiet {
      var v := Settle(w, t, outcome);
      SettledTask(w, t, outcome, leftover);
      hide Settle;
      OneTaskMoves(w, v, t, leftover);
    }
  }

  lemma SettledTask(w: Worker, t: nat, outcome: Outcome, leftover: Option<Stored>)
    requires w.current.None? && Waits(w, t) && TaskInv(w, t, w.tasks[t], leftover)
    requires outcome.Fulfilled? || w.tasks[t].waiting.value.quiet
    ensures var v := Settle(w, t, outcome);
            && t in v.tasks && TaskInv(v, t, v.tasks[t], leftover)
            && v == PutTask(w, t, v.tasks[t]).(current := Some(t))
  {
    hide Guarded;
  }

  lemma StoreKeeps(w: Worker, t: nat, leftover: Option<Stored>)
    requires Inv(w, leftover) && Waits(w, t)
    ensures Inv(Store(w, t), leftover)
    ensures var v := Store(w, t); v.minted == w.minted && v.generation == w.generation && v.log == w.log
  {
    hide TaskInv;
    var v := Store(w, t);
    StoredTask(w, t, leftover);
    forall j | j in v.tasks ensures TaskInv(v, j, v.tasks[j], leftover) {
      if j != t { TaskFrame(w, v, j, w.tasks[j], leftover); }
    }
  }

  /** A task's invariant reads only the generation, the minted ones, the current task and the task count. */
  lemma TaskFrame(w: Worker, v: Worker, j: nat, k: Task, leftover: Option<Stored>)
    requires TaskInv(w, j, k, leftover)
    requires v.generation == w.generation && v.minted == w.minted && v.current == w.current && v.nextTask == w.nextTask
    ensures TaskInv(v, j, k, leftover)
  {
    hide Guarded;
  }

  lemma StoredTask(w: Worker, t: nat, leftover: Option<Stored>)
    requires Waits(w, t) && TaskInv(w, t, w.tasks[t], leftover) && SanctionedRecord(w.session, w.minted, leftover)
    ensures var v := Store(w, t);
      && TaskInv(v, t, v.tasks[t], leftover) && SanctionedRecord(v.session, v.minted, leftover)
  {
    hide Guarded;
  }

  lemma SpawnKeeps(w: Worker, c: Code, leftover: Option<Stored>)
    requires Inv(w, leftover) && w.current.None? && Entry(c)
    ensures Inv(PutTask(w, w.nextTask, NewTask(c)).(current := Some(w.nextTask), nextTask := w.nextTask + 1), leftover)
  {
    EntryGuarded(c);
    hide Guarded, Entry;
    forall j | j in w.tasks ensures j < w.nextTask { assert TaskInv(w, j, w.tasks[j], leftover); }
    OneTaskMoves(w, PutTask(w, w.nextTask, NewTask(c)).(current := Some(w.nextTask), nextTask := w.nextTask + 1),
      w.nextTask, leftover);
  }

  /** Every step keeps the invariant, and issues guarded effects only under the captured,
      sanctioned generation. */
  lemma StepKeeps(w: Worker, l: Label, v: Worker, leftover: Option<Stored>)
    requires Inv(w, leftover) && Step(w, l, v)
    ensures Inv(v, leftover) && w.minted <= v.minted && w.generation <= v.generation
    ensures v.log == w.log || exists i ::
              v.log == w.log + [i] && GoodIssue(i, v.minted, leftover) && i.generation == w.generation
  {
    hide TaskInv, Exec, Store, Settle, Entry;
    match l {
      case Spawn(c) => SpawnKeeps(w, c, leftover);
      case Run(choice, tab) => ExecKeeps(w, choice, tab, leftover);
      case Perform(t) => StoreKeeps(w, t, leftover);
      case Resume(t, outcome) => SettleKeeps(w, t, outcome, leftover);
      case ClearSession => ClearKeeps(w, leftover);
    }
  }

  lemma ClearKeeps(w: Worker, leftover: Option<Stored>)
    requires Inv(w, leftover)
    ensures Inv(w.(session := None), leftover)
  {
    hide Guarded;
    forall j | j in w.tasks
      ensures TaskInv(w.(session := None), j, w.tasks[j], leftover)
    { assert TaskInv(w, j, w.tasks[j], leftover); }
  }

  // ---------------------------------------------------------------- what a step does to a job

  predicate OnlyTask(w: Worker, v: Worker, t: nat) {
    forall j :: j in v.tasks && j != t ==> j in w.tasks && v.tasks[j] == w.tasks[j]
  }

  /** What one instruction does to the record of executions and to the task's grant: it is used up
      by the one execution, or stays with the task and its job. */
  predicate GrantKept(w: Worker, v: Worker, t: nat)
    requires t in w.tasks
  {
    var k := w.tasks[t];
    && (v.executed == w.executed || (k.flags.granted && k.job.Some? && v.executed == w.executed + [k.job.value.id]))
    && OnlyTask(w, v, t) && |w.log| <= |v.log| <= |w.log| + 1
    && (v.current.Some? ==>
          && v.current == Some(t) && t in v.tasks && v.log == w.log && v.tasks[t].waiting.None?
          && (v.tasks[t].flags.granted ==> k.flags.granted && v.tasks[t].job == k.job && v.executed == w.executed))
    && (t in v.tasks && v.tasks[t].waiting.Some? ==>
          var wait := v.tasks[t].waiting.value;
          && v.executed == w.executed && v.tasks[t].job == k.job
          && wait.id == |w.log| && |v.log| == |w.log| + 1 && v.log[|w.log|].call == wait.call
          && (v.tasks[t].flags.granted ==> wait.call == StartApi && !wait.quiet))
  }

  lemma ExecKeepsGrant(w: Worker, choice: bool, tab: int, leftover: Option<Stored>)
    requires Inv(w, leftover) && w.current.Some?
    ensures GrantKept(w, Exec(w, choice, tab), w.current.value)
  {
    var t := w.current.value;
    var k := w.tasks[t];
    assert TaskInv(w, t, k, leftover);
    assert k.code.Do? && k.code.head.BeginExecute? ==> k.flags.granted;
    hide TaskInv, Inv, Guarded, ExecCall, ExecLocal;
    if k.code.Do? {
      if IsCall(k.code.head) { CallGrant(w, t, k, choice, tab); } else { LocalGrant(w, t, k, choice); }
    }
  }

  lemma CallGrant(w: Worker, t: nat, k: Task, choice: bool, tab: int)
    requires w.current == Some(t) && t in w.tasks && k == w.tasks[t] && k.waiting.None? && k.code.Do?
    requires IsCall(k.code.head)
    ensures GrantKept(w, ExecCall(w, t, k, k.code.head, choice, tab), t)
  {
    hide Written, JobOf, Storage;
  }

  lemma LocalGrant(w: Worker, t: nat, k: Task, choice: bool)
    requires w.current == Some(t) && t in w.tasks && k == w.tasks[t] && k.waiting.None? && k.code.Do?
    requires !IsCall(k.code.head)
    requires k.code.head.BeginExecute? ==> k.flags.granted
    ensures GrantKept(w, ExecLocal(w, t, k, k.code.head, choice), t)
  {
    LocalTaskGrant(w, k, choice);
    hide LocalTask;
  }

  lemma LocalTaskGrant(w: Worker, k: Task, choice: bool)
    requires k.code.Do? && !IsCall(k.code.head)
    ensures var n := LocalTask(w, k, choice);
            && (n.Some? ==>
                  && n.value.job == k.job && n.value.waiting == k.waiting
                  && (n.value.flags.granted ==> k.flags.granted && !k.code.head.BeginExecute?))
            && (k.code.head.BeginExecute? && n.Some? ==> k.job.Some?)
  {
    hide Execute;
  }

  lemma SettleKeepsGrant(w: Worker, t: nat, outcome: Outcome)
    requires Waits(w, t) && w.current.None?
    ensures var v := Settle(w, t, outcome); var k := w.tasks[t];
            && v.executed == w.executed && v.log == w.log && OnlyTask(w, v, t)
            && (v.current.Some? ==> v.current == Some(t) && t in v.tasks)
            && (t in v.tasks ==> v.tasks[t].waiting.None?)
            && (t in v.tasks && v.tasks[t].flags.granted ==>
                  k.flags.granted && (outcome.Fulfilled? || k.waiting.value.quiet)
                    && (k.waiting.value.call == StartApi ==> v.tasks[t].job == k.job))
  {
  }

  // ---------------------------------------------------------------- runs

  ghost predicate IsRun(ws: seq<Worker>, labels: seq<Label>, leftover: Option<Stored>) {
    && |ws| == |labels| + 1 && Boots(ws[0], leftover) && ws[0].log == []
    && forall i :: 0 <= i < |labels| ==> Step(ws[i], labels[i], ws[i + 1])
  }

  lemma {:induction false} RunKeeps(ws: seq<Worker>, labels: seq<Label>, leftover: Option<Stored>, m: nat, n: nat)
    requires IsRun(ws, labels, leftover) && m <= n < |ws|
    ensures Inv(ws[n], leftover) && ws[m].minted <= ws[n].minted && ws[m].generation <= ws[n].generation
    ensures |ws[m].log| <= |ws[n].log|
    ensures forall i :: 0 <= i < |ws[n].log| ==> GoodIssue(ws[n].log[i], ws[n].minted, leftover)
    ensures forall i :: |ws[m].log| <= i < |ws[n].log| ==> ws[m].generation <= ws[n].log[i].generation
    decreases n
  {
    hide Inv, Step;
    if n == 0 {
      BootInv(ws[0], leftover);
    } else if m < n {
      RunKeeps(ws, labels, leftover, m, n - 1);
      StepKeeps(ws[n - 1], labels[n - 1], ws[n], leftover);
    } else {
      RunKeeps(ws, labels, leftover, n - 1, n - 1);
      StepKeeps(ws[n - 1], labels[n - 1], ws[n], leftover);
    }
  }

  /** For any interleaving: every debugger command, tab attach and tab creation was issued while
      the generation was the one its call had captured. */
  lemma IssuedUnderCapturedGeneration(ws: seq<Worker>, labels: seq<Label>, leftover: Option<Stored>, n: nat, i: nat)
    requires IsRun(ws, labels, leftover) && n < |ws| && i < |ws[n].log|
    requires ws[n].log[i].call in {SendCommand, Attach, CreateTab}
    ensures ws[n].log[i].captured == ws[n].log[i].generation
  {
    hide Inv, Step, Boots;
    RunKeeps(ws, labels, leftover, n, n);
    assert GoodIssue(ws[n].log[i], ws[n].minted, leftover);
  }

  /** After a pause, and until start() is called again, nothing more is issued: state m has a
      generation no start made, no start follows up to n, and no record left over from an earlier
      worker carries a generation that is still to come. */
  lemma NothingAfterPause(ws: seq<Worker>, labels: seq<Label>, leftover: Option<Stored>, m: nat, n: nat, i: nat)
    requires IsRun(ws, labels, leftover) && m <= n < |ws| && |ws[m].log| <= i < |ws[n].log|
    requires ws[m].generation !in ws[m].minted && ws[n].minted == ws[m].minted
    requires leftover.Some? ==> leftover.value.generation < ws[m].generation
    ensures ws[n].log[i].call !in {SendCommand, Attach, CreateTab}
  {
    hide Step, Boots, TaskInv;
    RunKeeps(ws, labels, leftover, m, m);
    RunKeeps(ws, labels, leftover, m, n);
    assert GoodIssue(ws[n].log[i], ws[n].minted, leftover);
  }

  /** An attach that comes back after a pause: whatever the next two instructions of that task read,
      the second one asks Chrome to detach, and then the task throws. */
  lemma PausedAttachDetaches(w: Worker, t: nat, outcome: Outcome, next: Code, choice: bool, tab: int)
    requires w.current.None? && Waits(w, t) && outcome.Fulfilled?
    requires w.tasks[t].waiting.value.call == Attach && w.tasks[t].waiting.value.performed
    requires w.tasks[t].code == Do(Branch(Paused, GiveUp()), next) && w.generation != w.tasks[t].captured
    ensures var back := Settle(w, t, outcome);
      var gone := Exec(back, choice, tab);
      var detaching := Exec(gone, choice, tab);
      && Step(w, Resume(t, outcome), back) && Step(back, Run(choice, tab), gone)
      && Step(gone, Run(choice, tab), detaching)
      && detaching.log == w.log + [Issue(Detach, t, JobOf(w.tasks[t]), w.tasks[t].captured, w.generation)]
      && t in detaching.tasks && detaching.tasks[t].code == Do(Throw, Done)
  {
    hide After;
    var back := Settle(w, t, outcome);
    assert back.tasks[t].code.head == Branch(Paused, GiveUp());
    var gone := Exec(back, choice, tab);
    assert gone.tasks[t].code == GiveUp();
  }
}
