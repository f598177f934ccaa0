/** Why a pause holds only against records of the same worker: a control record that an earlier worker
    left in session storage carries a generation number that the new worker can reach by pausing,
    and while the recovery stop has not yet removed it, the next poll takes it for authorisation. */
module AutomationLeftover {
  import opened Prelude
  import opened Automation
  import opened AutomationRuns

  function Final(ws: seq<Worker>): Worker
    requires |ws| > 0
  {
    ws[|ws| - 1]
  }

  /** `more` continues the run `ws`. */
  ghost predicate Continues(ws: seq<Worker>, more: seq<Worker>, steps: seq<Label>, record: Stored) {
    IsRun(more, steps, Some(record)) && 0 < |ws| && ws <= more
  }

  /** Nothing has been authorised, the record is still there, and no task is running. */
  predicate Quiet(w: Worker, record: Stored) {
    w.current.None? && w.minted == {} && w.session == Some(record) && !w.running
  }

  /** Task `t` is running as `k` under the record's generation, which nobody authorised. */
  predicate Doing(w: Worker, t: nat, k: Task, record: Stored) {
    && w.current == Some(t) && t in w.tasks && w.tasks[t] == k && k.waiting.None?
    && w.minted == {} && w.session == Some(record) && w.generation == record.generation
  }

  /** What the task has read stays with it. */
  predicate Carries(k: Task, n: Task) {
    n.captured == k.captured && n.control == k.control && n.polled == k.polled && n.job == k.job && n.waiting.None?
  }

  lemma Extend(ws: seq<Worker>, steps: seq<Label>, l: Label, v: Worker, record: Stored)
    requires IsRun(ws, steps, Some(record)) && Step(Final(ws), l, v)
    ensures IsRun(ws + [v], steps + [l], Some(record))
  {
    hide Step, Boots;
  }

  // ---------------------------------------------------------------- one instruction

  lemma Local(first: seq<Worker>, ws: seq<Worker>, steps: seq<Label>, t: nat, k: Task, n: Task, choice: bool,
      record: Stored)
    returns (more: seq<Worker>, done: seq<Label>)
    requires Continues(first, ws, steps, record) && Doing(Final(ws), t, k, record) && n.waiting.None?
    requires k.code.Do? && !IsCall(k.code.head) && !k.code.head.NewGeneration?
    requires LocalTask(Final(ws), k, choice) == Some(n)
    ensures Continues(first, more, done, record) && Doing(Final(more), t, n, record) && Final(more).log == Final(ws).log
  {
    hide LocalTask, IsRun, Boots;
    var w := Final(ws);
    var v := Exec(w, choice, 0);
    Extend(ws, steps, Run(choice, 0), v, record);
    more, done := ws + [v], steps + [Run(choice, 0)];
  }

  predicate Reads(c: Call) {
    c in {StoreGet, TabGet, Yield, SavedPair, PollApi, StartApi}
  }

  /** The call is pending. */
  predicate Asking(w: Worker, t: nat, k: Task, c: Call, next: Code, record: Stored) {
    && w.current.None? && t in w.tasks && w.minted == {} && w.session == Some(record)
    && w.generation == record.generation
    && w.tasks[t].waiting.Some? && w.tasks[t].waiting.value.call == c
    && (w.tasks[t].waiting.value.performed <==> c != StoreGet)
    && w.tasks[t].code == next && w.tasks[t].captured == k.captured && w.tasks[t].control == k.control
    && w.tasks[t].stored == k.stored && w.tasks[t].polled == k.polled && w.tasks[t].job == k.job
  }

  lemma AskStep(w: Worker, t: nat, k: Task, c: Call, next: Code, record: Stored)
    requires Doing(w, t, k, record) && k.code == Do(Await(c), next) && Reads(c)
    ensures Step(w, Run(true, 0), Exec(w, true, 0)) && Asking(Exec(w, true, 0), t, k, c, next, record)
    ensures |Exec(w, true, 0).log| == |w.log| + 1
  {
    hide After;
  }

  /** What the settled call leaves the task with. */
  predicate Told(k: Task, n: Task, c: Call, next: Code, outcome: Outcome, record: Stored)
    requires outcome.Fulfilled?
  {
    && n.code == next && n.captured == k.captured && n.control == k.control && n.waiting.None?
    && n.stored == (if c == StoreGet then Some(record) else k.stored)
    && n.polled == (if c == PollApi then outcome.polled else k.polled)
    && n.job == (if c == PollApi then outcome.job else k.job)
  }

  lemma SettleStep(w: Worker, t: nat, k: Task, c: Call, next: Code, outcome: Outcome, record: Stored)
    requires Asking(w, t, k, c, next, record) && Reads(c) && c != StoreGet && outcome.Fulfilled?
    ensures Waits(w, t)
    ensures Step(w, Resume(t, outcome), Settle(w, t, outcome))
    ensures Doing(Settle(w, t, outcome), t, Settle(w, t, outcome).tasks[t], record)
    ensures Told(k, Settle(w, t, outcome).tasks[t], c, next, outcome, record) && Settle(w, t, outcome).log == w.log
  {
  }

  lemma GetStep(w: Worker, t: nat, k: Task, next: Code, outcome: Outcome, record: Stored)
    requires Asking(w, t, k, StoreGet, next, record) && outcome.Fulfilled?
    ensures Waits(w, t) && Waits(Store(w, t), t)
    ensures var v := Store(w, t); var u := Settle(v, t, outcome);
      && Step(w, Perform(t), v) && Step(v, Resume(t, outcome), u) && Doing(u, t, u.tasks[t], record)
      && Told(k, u.tasks[t], StoreGet, next, outcome, record) && u.log == w.log
  {
  }

  /** A call that only reads, from its issue to its result. */
  lemma Awaited(first: seq<Worker>, ws: seq<Worker>, steps: seq<Label>, t: nat, k: Task, c: Call, next: Code,
      outcome: Outcome, record: Stored)
    returns (more: seq<Worker>, done: seq<Label>, n: Task)
    requires Continues(first, ws, steps, record) && Doing(Final(ws), t, k, record)
    requires k.code == Do(Await(c), next) && Reads(c) && outcome.Fulfilled?
    ensures Continues(first, more, done, record) && Doing(Final(more), t, n, record)
    ensures Told(k, n, c, next, outcome, record)
    ensures |Final(more).log| == |Final(ws).log| + 1
  {
    hide IsRun, Step, Exec, Asking, Doing, Told, Settle, Store;
    UnderRecord(Final(ws), t, k, record);
    var v := Exec(Final(ws), true, 0);
    AskStep(Final(ws), t, k, c, next, record);
    Extend(ws, steps, Run(true, 0), v, record);
    more, done := ws + [v], steps + [Run(true, 0)];
    if c == StoreGet {
      AskedWaits(v, t, k, c, next, record);
      GetStep(v, t, k, next, outcome, record);
      Extend(more, done, Perform(t), Store(v, t), record);
      more, done, v := more + [Store(v, t)], done + [Perform(t)], Store(v, t);
    } else {
      AskedWaits(v, t, k, c, next, record);
      SettleStep(v, t, k, c, next, outcome, record);
    }
    var x := Settle(v, t, outcome);
    Extend(more, done, Resume(t, outcome), x, record);
    more, done, n := more + [x], done + [Resume(t, outcome)], x.tasks[t];
  }

  lemma AskedWaits(w: Worker, t: nat, k: Task, c: Call, next: Code, record: Stored)
    requires Asking(w, t, k, c, next, record)
    ensures Waits(w, t)
  {
  }

  lemma LocalWaiting(w: Worker, k: Task, choice: bool)
    requires k.waiting.None? && k.code.Do? && !IsCall(k.code.head) && LocalTask(w, k, choice).Some?
    ensures LocalTask(w, k, choice).value.waiting.None?
  {
    hide Execute;
  }

  /** One local instruction whose outcome does not depend on the worker's other state. */
  lemma Plain(first: seq<Worker>, ws: seq<Worker>, steps: seq<Label>, t: nat, k: Task, choice: bool, record: Stored)
    returns (more: seq<Worker>, done: seq<Label>, n: Task)
    requires Continues(first, ws, steps, record) && Doing(Final(ws), t, k, record)
    requires k.code.Do? && !IsCall(k.code.head) && !k.code.head.NewGeneration?
    requires LocalTask(Final(ws), k, choice).Some?
    ensures LocalTask(Final(ws), k, choice) == Some(n) && n.waiting.None?
    ensures Continues(first, more, done, record) && Doing(Final(more), t, n, record) && Final(more).log == Final(ws).log
  {
    LocalWaiting(Final(ws), k, choice);
    hide LocalTask, IsRun;
    n := LocalTask(Final(ws), k, choice).value;
    more, done := Local(first, ws, steps, t, k, n, choice, record);
  }

  // ---------------------------------------------------------------- checked, tick, execute

  /** The record passes checked(): its generation is the present one. */
  lemma RunChecked(first: seq<Worker>, ws: seq<Worker>, steps: seq<Label>, t: nat, k: Task, same: bool, next: Code,
      record: Stored)
    returns (more: seq<Worker>, done: seq<Label>, n: Task)
    requires Continues(first, ws, steps, record) && Doing(Final(ws), t, k, record)
    requires k.code == Checked(same, next) && k.captured == record.generation
    requires same ==> k.job.Some? && k.job.value.controlId == record.id
    ensures Continues(first, more, done, record) && Doing(Final(more), t, n, record)
    ensures |Final(more).log| >= |Final(ws).log|
    ensures n.code == next && n.captured == record.generation && n.stored == Some(record) && Carries(k, n)
  {
    hide IsRun, After, Doing;
    var ok := Fulfilled(None, None, "");
    UnderRecord(Final(ws), t, k, record);
    more, done, n := Plain(first, ws, steps, t, k, true, record);
    more, done, n := Awaited(first, more, done, t, n, StoreGet, n.code.next, ok, record);
    UnderRecord(Final(more), t, n, record);
    more, done, n := Plain(first, more, done, t, n, true, record);
    more, done, n := Plain(first, more, done, t, n, true, record);
    more, done, n := LoadTab(first, more, done, t, n, next, record);
  }

  /** The last part of checked(). */
  lemma LoadTab(first: seq<Worker>, ws: seq<Worker>, steps: seq<Label>, t: nat, k: Task, next: Code, record: Stored)
    returns (more: seq<Worker>, done: seq<Label>, n: Task)
    requires Continues(first, ws, steps, record) && Doing(Final(ws), t, k, record) && k.captured == record.generation
    requires k.code == Do(Await(TabGet), Do(AssertGeneration, Do(Test, Do(Await(Yield), next))))
    ensures Continues(first, more, done, record) && Doing(Final(more), t, n, record)
    ensures |Final(more).log| >= |Final(ws).log|
    ensures n.code == next && n.captured == k.captured && n.stored == k.stored && Carries(k, n)
  {
    hide IsRun, After, Doing;
    var ok := Fulfilled(None, None, "");
    more, done, n := Awaited(first, ws, steps, t, k, TabGet, k.code.next, ok, record);
    UnderRecord(Final(more), t, n, record);
    more, done, n := Plain(first, more, done, t, n, true, record);
    more, done, n := Plain(first, more, done, t, n, true, record);
    more, done, n := Awaited(first, more, done, t, n, Yield, next, ok, record);
  }

  lemma UnderRecord(w: Worker, t: nat, k: Task, record: Stored)
    requires Doing(w, t, k, record)
    ensures w.generation == record.generation && k.waiting.None? && w.current == Some(t) && t in w.tasks
  {
  }

  /** tick() up to its poll. */
  lemma RunTick(first: seq<Worker>, ws: seq<Worker>, steps: seq<Label>, record: Stored)
    returns (more: seq<Worker>, done: seq<Label>, t: nat, n: Task)
    requires Continues(first, ws, steps, record) && Quiet(Final(ws), record)
    requires Final(ws).generation == record.generation
    ensures Continues(first, more, done, record) && Doing(Final(more), t, n, record)
    ensures |Final(more).log| >= |Final(ws).log|
    ensures n.code == TakeJob() && n.control == Some(record)
  {
    hide IsRun, Checked, TickCatch, Finally, TakeJob, Pause, Boots;
    var ok := Fulfilled(None, None, "");
    var w := Final(ws);
    t := w.nextTask;
    var v := PutTask(w, t, NewTask(Tick())).(current := Some(t), nextTask := t + 1);
    Extend(ws, steps, Spawn(Tick()), v, record);
    more, done := ws + [v], steps + [Spawn(Tick())];
    more, done, n := Plain(first, more, done, t, NewTask(Tick()), true, record);
    more, done, n := Plain(first, more, done, t, n, true, record);
    more, done, n := Plain(first, more, done, t, n, true, record);
    more, done, n := Awaited(first, more, done, t, n, StoreGet, LookForJob(), ok, record);
    more, done, n := RunLook(first, more, done, t, n, record);
  }

  lemma RunLook(first: seq<Worker>, ws: seq<Worker>, steps: seq<Label>, t: nat, k: Task, record: Stored)
    returns (more: seq<Worker>, done: seq<Label>, n: Task)
    requires Continues(first, ws, steps, record) && Doing(Final(ws), t, k, record) && k.code == LookForJob()
    requires k.stored == Some(record)
    ensures Continues(first, more, done, record) && Doing(Final(more), t, n, record)
    ensures |Final(more).log| >= |Final(ws).log|
    ensures n.code == TakeJob() && n.control == Some(record)
  {
    hide IsRun, Checked, Finally, TakeJob, Pause, After, Doing;
    UnderRecord(Final(ws), t, k, record);
    more, done, n := Plain(first, ws, steps, t, k, true, record);
    UnderRecord(Final(more), t, n, record);
    more, done, n := Plain(first, more, done, t, n, true, record);
    var rest := Do(Keep, Do(Await(SavedPair), Do(Branch(Unpaired, Pause(false, Finally())), TakeJob())));
    more, done, n := RunChecked(first, more, done, t, n, false, rest, record);
    more, done, n := RunPair(first, more, done, t, n, record);
  }

  /** From the checked record to the poll. */
  lemma RunPair(first: seq<Worker>, ws: seq<Worker>, steps: seq<Label>, t: nat, k: Task, record: Stored)
    returns (more: seq<Worker>, done: seq<Label>, n: Task)
    requires Continues(first, ws, steps, record) && Doing(Final(ws), t, k, record) && k.stored == Some(record)
    requires k.code == Do(Keep, Do(Await(SavedPair), Do(Branch(Unpaired, Pause(false, Finally())), TakeJob())))
    ensures Continues(first, more, done, record) && Doing(Final(more), t, n, record)
    ensures |Final(more).log| >= |Final(ws).log|
    ensures n.code == TakeJob() && n.control == Some(record)
  {
    hide IsRun, Finally, TakeJob, Pause, After, Doing;
    more, done, n := Plain(first, ws, steps, t, k, true, record);
    more, done, n := Awaited(first, more, done, t, n, SavedPair, n.code.next, Fulfilled(None, None, ""), record);
    more, done, n := Plain(first, more, done, t, n, false, record);
  }

  /** From the poll to the start of execute(). */
  lemma RunJob(first: seq<Worker>, ws: seq<Worker>, steps: seq<Label>, t: nat, k: Task, job: Job, record: Stored)
    returns (more: seq<Worker>, done: seq<Label>, n: Task)
    requires Continues(first, ws, steps, record) && Doing(Final(ws), t, k, record)
    requires k.code == TakeJob() && k.control == Some(record) && job.controlId == record.id
    ensures Continues(first, more, done, record) && Doing(Final(more), t, n, record)
    ensures |Final(more).log| >= |Final(ws).log|
    ensures n.code == Execute(job.action, Do(EndTry, AfterExecute())) && n.job == Some(job)
  {
    hide IsRun, Execute, AfterExecute, Finally, Pause, After, Doing;
    more, done, n := Awaited(first, ws, steps, t, k, PollApi, k.code.next, Fulfilled(Some(record.id), Some(job), ""),
      record);
    more, done, n := Plain(first, more, done, t, n, true, record);
    more, done, n := Plain(first, more, done, t, n, true, record);
    more, done, n := RunGranted(first, more, done, t, n, job, record);
  }

  lemma RunGranted(first: seq<Worker>, ws: seq<Worker>, steps: seq<Label>, t: nat, k: Task, job: Job, record: Stored)
    returns (more: seq<Worker>, done: seq<Label>, n: Task)
    requires Continues(first, ws, steps, record) && Doing(Final(ws), t, k, record) && k.job == Some(job)
    requires k.code == Do(Await(StartApi), Do(Try(AfterExecute()), Do(BeginExecute, Do(EndTry, AfterExecute()))))
    ensures Continues(first, more, done, record) && Doing(Final(more), t, n, record)
    ensures |Final(more).log| >= |Final(ws).log|
    ensures n.code == Execute(job.action, Do(EndTry, AfterExecute())) && n.job == Some(job)
  {
    hide IsRun, Execute, AfterExecute, After, Doing;
    more, done, n := Awaited(first, ws, steps, t, k, StartApi, k.code.next, Fulfilled(None, None, ""), record);
    more, done, n := Plain(first, more, done, t, n, true, record);
    more, done, n := Plain(first, more, done, t, n, true, record);
  }

  /** A scroll, from the start of execute() to its debugger command. */
  lemma RunScroll(first: seq<Worker>, ws: seq<Worker>, steps: seq<Label>, t: nat, k: Task, next: Code, record: Stored)
    returns (more: seq<Worker>, done: seq<Label>)
    requires Continues(first, ws, steps, record) && Doing(Final(ws), t, k, record)
    requires k.code == Execute(Scroll, next) && k.job.Some? && k.job.value.controlId == record.id
    ensures Continues(first, more, done, record) && Final(more).minted == {}
    ensures |Final(more).log| > |Final(ws).log| && Final(more).log[|Final(more).log| - 1].call == SendCommand
  {
    hide IsRun, Checked, Boots, After, Doing;
    var n;
    UnderRecord(Final(ws), t, k, record);
    more, done, n := Plain(first, ws, steps, t, k, true, record);
    more, done, n := RunChecked(first, more, done, t, n, true, Do(Keep, Dispatch(next)), record);
    more, done, n := Plain(first, more, done, t, n, true, record);
    more, done, n := RunChecked(first, more, done, t, n, true,
      Do(Test, Do(AssertGeneration, Do(Await(SendCommand), next))), record);
    more, done, n := Plain(first, more, done, t, n, true, record);
    UnderRecord(Final(more), t, n, record);
    more, done, n := Plain(first, more, done, t, n, true, record);
    more, done := RunSend(first, more, done, t, n, next, record);
  }

  lemma RunSend(first: seq<Worker>, ws: seq<Worker>, steps: seq<Label>, t: nat, k: Task, next: Code, record: Stored)
    returns (more: seq<Worker>, done: seq<Label>)
    requires Continues(first, ws, steps, record) && Doing(Final(ws), t, k, record)
    requires k.code == Do(Await(SendCommand), next)
    ensures Continues(first, more, done, record) && Final(more).minted == {}
    ensures |Final(more).log| > |Final(ws).log| && Final(more).log[|Final(more).log| - 1].call == SendCommand
  {
    hide IsRun, Boots, After;
    var v := Exec(Final(ws), true, 0);
    Extend(ws, steps, Run(true, 0), v, record);
    more, done := ws + [v], steps + [Run(true, 0)];
  }

  // ---------------------------------------------------------------- pauses

  /** The recovery stop has asked for the record and waits for the answer. */
  lemma BootQuietly(record: Stored) returns (ws: seq<Worker>, steps: seq<Label>)
    ensures IsRun(ws, steps, Some(record)) && |ws| > 0 && Quiet(Final(ws), record) && Final(ws).generation == 0
  {
    var boot := Worker(0, false, Some(record), map[0 := NewTask(Stop(true, Done))], Some(0), 1, {}, [], []);
    ws, steps := [boot], [];
    assert Boots(boot, Some(record));
    var v := Exec(boot, true, 0);
    Extend(ws, steps, Run(true, 0), v, record);
    ws, steps := ws + [v], steps + [Run(true, 0)];
  }

  lemma PauseOnce(ws: seq<Worker>, steps: seq<Label>, record: Stored) returns (more: seq<Worker>, done: seq<Label>)
    requires IsRun(ws, steps, Some(record)) && |ws| > 0 && Quiet(Final(ws), record)
    ensures Continues(ws, more, done, record) && Quiet(Final(more), record)
    ensures Final(more).generation == Final(ws).generation + 1
  {
    hide IsRun, Boots;
    var w := Final(ws);
    var t := w.nextTask;
    var v := PutTask(w, t, NewTask(Pause(true, Done))).(current := Some(t), nextTask := t + 1);
    Extend(ws, steps, Spawn(Pause(true, Done)), v, record);
    var u := Exec(v, true, 0);
    more, done := ws + [v], steps + [Spawn(Pause(true, Done))];
    Extend(more, done, Run(true, 0), u, record);
    var x := Exec(u, true, 0);
    more, done := more + [u], done + [Run(true, 0)];
    Extend(more, done, Run(true, 0), x, record);
    more, done := more + [x], done + [Run(true, 0)];
  }

  /** Pausing on until the generation is `g`. */
  lemma {:induction false} PauseTo(ws: seq<Worker>, steps: seq<Label>, g: nat, record: Stored)
    returns (more: seq<Worker>, done: seq<Label>)
    requires IsRun(ws, steps, Some(record)) && |ws| > 0
    requires Quiet(Final(ws), record) && Final(ws).generation <= g
    ensures Continues(ws, more, done, record)
    ensures Quiet(Final(more), record) && Final(more).generation == g
    decreases g - Final(ws).generation
  {
    hide IsRun;
    more, done := ws, steps;
    if Final(ws).generation < g {
      more, done := PauseOnce(ws, steps, record);
      more, done := PauseTo(more, done, g, record);
    }
  }

  /** For every left-over record and every generation up to the record's: state `m` comes after as many
      pauses as `g` says, and although there is no start() at all, a poll still issues a debugger
      command later. In this run the first storage read of the recovery stop and of every pause is
      still pending, while the reads that the poll issued later have completed. */
  lemma LeftoverBreaksPause(record: Stored, g: nat, jobId: string)
    returns (ws: seq<Worker>, steps: seq<Label>, m: nat)
    requires g <= record.generation
    ensures IsRun(ws, steps, Some(record)) && m < |ws|
    ensures ws[m].generation == g && ws[m].minted == {} && Final(ws).minted == {}
    ensures |ws[m].log| < |Final(ws).log| && Final(ws).log[|Final(ws).log| - 1].call == SendCommand
  {
    hide IsRun, Execute, TakeJob, Step, Inv, Boots;
    ws, steps := BootQuietly(record);
    ws, steps := PauseTo(ws, steps, g, record);
    m := |ws| - 1;
    var paused := ws;
    var t, k;
    ws, steps := PauseTo(ws, steps, record.generation, record);
    RunKeeps(ws, steps, Some(record), m, |ws| - 1);
    var first, before := ws, steps;
    ws, steps, t, k := RunTick(first, first, before, record);
    ws, steps, k := RunJob(first, ws, steps, t, k, Job(jobId, record.id, Scroll), record);
    ws, steps := RunScroll(first, ws, steps, t, k, Do(EndTry, AfterExecute()), record);
    assert ws[m] == paused[m];
  }
}
