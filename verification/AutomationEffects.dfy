/** What the worker's programs do: a task that gets through one without an exception has issued, on its
    way, every operation the program is for. */
module AutomationEffects {
  import opened Prelude
  import opened Automation
  import opened AutomationRuns

  // ---------------------------------------------------------------- what a program owes

  /** A place in a program, with the handlers installed there, the operation that is due on the way to it,
      whether the tab is known to be another one, and how much is due on ways that go through a handler. */
  datatype Goal = Goal(target: Code, home: seq<Code>, call: Call, other: bool, thrown: Option<nat>)

  ghost function Size(c: Code): nat
    decreases c
  {
    match c
    case Done => 1
    case Do(Try(handler), next) => 1 + Size(handler) + Size(next)
    case Do(Branch(_, instead), next) => 1 + Size(instead) + Size(next)
    case Do(_, next) => 1 + Size(next)
  }

  ghost function Sizes(hs: seq<Code>): nat {
    if hs == [] then 0 else Size(hs[0]) + Sizes(hs[1..])
  }

  lemma SizesCons(h: Code, hs: seq<Code>)
    ensures Sizes([h] + hs) == Size(h) + Sizes(hs)
  {
    assert ([h] + hs)[1..] == hs;
  }

  /** What is left to issue after one more operation. */
  function Paid(left: Option<nat>, c: Call, g: Goal): Option<nat> {
    if c == g.call && left.Some? && left.value > 0 then Some(left.value - 1) else left
  }

  function Tail(hs: seq<Code>): seq<Code> {
    if hs == [] then [] else hs[1..]
  }

  /** A poll finds that it is no longer paired, or that its control is not the server's. */
  predicate Loses(cond: Cond) {
    cond == OtherControl || cond == Unpaired
  }

  /** On every way from here to the goal the call is issued at least `left` times; None: there is no way.
      Nothing here executes or polls for another job. */
  ghost predicate Owes(c: Code, hs: seq<Code>, left: Option<nat>, g: Goal)
    decreases Size(c) + Sizes(hs)
  {
    && (c == g.target && hs == g.home ==> left == Some(0))
    && (hs != [] ==> Size(c) > 0 && (Owes(hs[0], hs[1..], None, g) || Owes(hs[0], hs[1..], g.thrown, g)))
    && match c
       case Done => true
       case Do(i, next) =>
         match i
         case Throw => true
         case BeginExecute => false
         case Try(handler) => (SizesCons(handler, hs); Owes(next, [handler] + hs, left, g))
         case EndTry => Owes(next, Tail(hs), left, g)
         case Branch(cond, instead) =>
           && !Loses(cond) && Owes(next, hs, left, g)
           && ((g.other && cond == SameTab) || Owes(instead, hs, left, g))
         case Await(call) => call != PollApi && Owes(next, hs, Paid(left, call, g), g)
         case Quietly(call) => call != PollApi && Owes(next, hs, Paid(left, call, g), g)
         case AwaitIf(_, call) => call != PollApi && Owes(next, hs, left, g)
         case _ => Owes(next, hs, left, g)
  }

  // ---------------------------------------------------------------- runs

  /** How often task `t` has issued `call` for its job. */
  function Count(log: seq<Issue>, t: nat, job: Option<string>, call: Call): nat {
    if log == [] then 0
    else
      var i := log[|log| - 1];
      Count(log[..|log| - 1], t, job, call) + if i.task == t && i.job == job && i.call == call then 1 else 0
  }

  lemma CountOne(log: seq<Issue>, i: Issue, t: nat, job: Option<string>, call: Call)
    ensures Count(log + [i], t, job, call) ==
            Count(log, t, job, call) + if i.task == t && i.job == job && i.call == call then 1 else 0
  {
    assert (log + [i])[..|log|] == log;
  }

  /** What task `k` owes, with `paid` issued so far of the `n` that are due. */
  ghost predicate TaskOwes(k: Task, paid: nat, n: nat, g: Goal) {
    && (k.waiting.Some? ==> k.waiting.value.call != PollApi)
    && (g.thrown.Some? ==> n <= paid + g.thrown.value)
    && exists left :: Owes(k.code, k.handlers, left, g) && (left.Some? ==> n <= paid + left.value)
  }

  /** The task still owes what it has not issued yet, or is gone. */
  ghost predicate Owing(w: Worker, t: nat, job: Option<string>, n: nat, g: Goal) {
    && t < w.nextTask
    && (t in w.tasks ==>
          JobOf(w.tasks[t]) == job && TaskOwes(w.tasks[t], Count(w.log, t, job, g.call), n, g))
  }

  /** If the tab is known to be another one, the task does not find it to be the same. */
  predicate Otherwise(w: Worker, l: Label, t: nat, g: Goal) {
    g.other && l.Run? && w.current == Some(t) && t in w.tasks && w.tasks[t].code.Do? ==>
      match w.tasks[t].code.head
      case Branch(SameTab, _) => !l.choice
      case _ => true
  }

  lemma ThrownOwes(k: Task, paid: nat, n: nat, g: Goal)
    requires TaskOwes(k, paid, n, g) && k.handlers != []
    ensures var caught := k.(code := k.handlers[0], handlers := k.handlers[1..], flags := NOTHING, waiting := None);
      TaskOwes(caught, paid, n, g)
  {
    var left :| Owes(k.code, k.handlers, left, g) && (left.Some? ==> n <= paid + left.value);
    var none: Option<nat> := None;
    assert Owes(k.handlers[0], k.handlers[1..], none, g) || Owes(k.handlers[0], k.handlers[1..], g.thrown, g);
  }

  lemma LocalOwes(w: Worker, k: Task, choice: bool, paid: nat, n: nat, g: Goal)
    requires TaskOwes(k, paid, n, g) && k.code.Do? && !IsCall(k.code.head) && LocalTask(w, k, choice).Some?
    requires g.other && k.code.head.Branch? && k.code.head.cond == SameTab ==> !choice
    ensures var m := LocalTask(w, k, choice).value; TaskOwes(m, paid, n, g) && JobOf(m) == JobOf(k)
  {
    hide Owes, Execute, Paid, After;
    var left :| Owes(k.code, k.handlers, left, g) && (left.Some? ==> n <= paid + left.value);
    OwesOn(k.code, k.handlers, left, g);
    var m := LocalTask(w, k, choice).value;
    assert Owes(m.code, m.handlers, left, g);
  }

  lemma CallOwes(k: Task, m: Task, paid: nat, n: nat, g: Goal, issued: bool)
    requires TaskOwes(k, paid, n, g) && k.code.Do? && IsCall(k.code.head) && (!issued ==> k.code.head.AwaitIf?)
    requires m.code == k.code.next && m.handlers == k.handlers
    requires m.waiting.Some? ==> m.waiting.value.call == k.code.head.call
    ensures TaskOwes(m, paid + (if issued && k.code.head.call == g.call then 1 else 0), n, g)
  {
    var left :| Owes(k.code, k.handlers, left, g) && (left.Some? ==> n <= paid + left.value);
    var rest := if k.code.head.AwaitIf? then left else Paid(left, k.code.head.call, g);
    assert Owes(m.code, m.handlers, rest, g);
  }

  /** Nothing of the task that matters here differs. */
  predicate Unmoved(k: Task, m: Task) {
    && m.code == k.code && m.handlers == k.handlers && m.job == k.job
    && (m.waiting.Some? ==> k.waiting.Some? && m.waiting.value.call == k.waiting.value.call)
  }

  lemma UnmovedOwes(k: Task, m: Task, paid: nat, n: nat, g: Goal)
    requires TaskOwes(k, paid, n, g) && Unmoved(k, m)
    ensures TaskOwes(m, paid, n, g)
  {
    hide Owes;
  }

  lemma UnwindOwes(w: Worker, t: nat, job: Option<string>, n: nat, g: Goal)
    requires Owing(w, t, job, n, g) && t in w.tasks
    ensures Owing(Unwind(w, t, w.tasks[t]), t, job, n, g)
  {
    hide Owes, TaskOwes;
    if w.tasks[t].handlers != [] { ThrownOwes(w.tasks[t], Count(w.log, t, job, g.call), n, g); }
  }

  lemma CallKeeps(w: Worker, t: nat, choice: bool, tab: int, job: Option<string>, n: nat, g: Goal)
    requires Owing(w, t, job, n, g) && w.current == Some(t) && t in w.tasks && w.tasks[t].waiting.None?
    requires w.tasks[t].code.Do? && IsCall(w.tasks[t].code.head)
    ensures Owing(ExecCall(w, t, w.tasks[t], w.tasks[t].code.head, choice, tab), t, job, n, g)
  {
    hide Owes, TaskOwes, Count, Unwind;
    var k := w.tasks[t];
    var v := ExecCall(w, t, k, k.code.head, choice, tab);
    UnwindOwes(w, t, job, n, g);
    if v != Unwind(w, t, k) {
      CallOwes(k, v.tasks[t], Count(w.log, t, job, g.call), n, g, |v.log| > |w.log|);
      CountOne(w.log, Issue(k.code.head.call, t, job, k.captured, w.generation), t, job, g.call);
    }
  }

  lemma LocalKeeps(w: Worker, t: nat, choice: bool, job: Option<string>, n: nat, g: Goal)
    requires Owing(w, t, job, n, g) && w.current == Some(t) && t in w.tasks && w.tasks[t].waiting.None?
    requires w.tasks[t].code.Do? && !IsCall(w.tasks[t].code.head)
    requires Otherwise(w, Run(choice, 0), t, g)
    ensures Owing(ExecLocal(w, t, w.tasks[t], w.tasks[t].code.head, choice), t, job, n, g)
  {
    hide Owes, TaskOwes, Count, Unwind, LocalTask;
    var k := w.tasks[t];
    UnwindOwes(w, t, job, n, g);
    if LocalTask(w, k, choice).Some? { LocalOwes(w, k, choice, Count(w.log, t, job, g.call), n, g); }
  }

  lemma OtherCounts(w: Worker, v: Worker, t: nat, job: Option<string>, call: Call)
    requires v.log == w.log || exists i :: v.log == w.log + [i] && i.task != t
    ensures Count(v.log, t, job, call) == Count(w.log, t, job, call)
  {
    if v.log != w.log {
      var i :| v.log == w.log + [i] && i.task != t;
      CountOne(w.log, i, t, job, call);
    }
  }

  /** A step of another task. */
  lemma OthersKeepOwing(w: Worker, v: Worker, t: nat, job: Option<string>, n: nat, g: Goal)
    requires Owing(w, t, job, n, g) && w.nextTask <= v.nextTask
    requires t in v.tasks ==> t in w.tasks && Unmoved(w.tasks[t], v.tasks[t])
    requires v.log == w.log || exists i :: v.log == w.log + [i] && i.task != t
    ensures Owing(v, t, job, n, g)
  {
    hide Owes, TaskOwes, Count;
    OtherCounts(w, v, t, job, g.call);
    if t in v.tasks { UnmovedOwes(w.tasks[t], v.tasks[t], Count(w.log, t, job, g.call), n, g); }
  }

  /** What a step of one task does to the others and to the log. */
  lemma ExecOthers(w: Worker, choice: bool, tab: int, t: nat)
    requires w.current.Some? && w.current.value in w.tasks && w.current.value != t
    ensures var v := Exec(w, choice, tab);
      && w.nextTask == v.nextTask && (t in v.tasks ==> t in w.tasks && v.tasks[t] == w.tasks[t])
      && (v.log == w.log || exists i :: v.log == w.log + [i] && i.task != t)
  {
    hide LocalTask;
  }

  lemma SettleOwes(w: Worker, t: nat, outcome: Outcome, job: Option<string>, n: nat, g: Goal)
    requires Owing(w, t, job, n, g) && Waits(w, t)
    ensures Owing(Settle(w, t, outcome), t, job, n, g)
  {
    NoPoll(w.tasks[t], Count(w.log, t, job, g.call), n, g);
    hide Owes, TaskOwes, Count, Unwind;
    UnwindOwes(w, t, job, n, g);
    var v := Settle(w, t, outcome);
    if v != Unwind(w, t, w.tasks[t]) {
      UnmovedOwes(w.tasks[t], v.tasks[t], Count(w.log, t, job, g.call), n, g);
    }
  }

  lemma NoPoll(k: Task, paid: nat, n: nat, g: Goal)
    requires TaskOwes(k, paid, n, g)
    ensures k.waiting.Some? ==> k.waiting.value.call != PollApi
  {
  }

  lemma StoreOthers(w: Worker, task: nat, t: nat)
    requires Waits(w, task)
    ensures var v := Store(w, task);
      w.nextTask == v.nextTask && v.log == w.log && (t in v.tasks ==> t in w.tasks && Unmoved(w.tasks[t], v.tasks[t]))
  {
  }

  lemma SettleOthers(w: Worker, task: nat, outcome: Outcome, t: nat)
    requires Waits(w, task) && task != t
    ensures var v := Settle(w, task, outcome);
      w.nextTask == v.nextTask && v.log == w.log && (t in v.tasks ==> t in w.tasks && v.tasks[t] == w.tasks[t])
  {
  }

  lemma StepOwes(w: Worker, l: Label, v: Worker, t: nat, job: Option<string>, n: nat, g: Goal)
    requires Step(w, l, v) && Owing(w, t, job, n, g) && Otherwise(w, l, t, g)
    requires w.current.Some? ==> w.current.value in w.tasks && w.tasks[w.current.value].waiting.None?
    ensures Owing(v, t, job, n, g)
  {
    hide Owing, Unwind, Settle, Store, ExecCall, ExecLocal, LocalTask, Entry;
    match l {
      case Spawn(c) => SpawnOwes(w, c, v, t, job, n, g);
      case Run(choice, tab) =>
        if w.current.value != t {
          hide Exec;
          ExecOthers(w, choice, tab, t);
          OthersKeepOwing(w, v, t, job, n, g);
        } else if w.tasks[t].code.Done? {
          GoneOwes(w, v, t, job, n, g);
        } else if IsCall(w.tasks[t].code.head) {
          CallKeeps(w, t, choice, tab, job, n, g);
        } else {
          LocalKeeps(w, t, choice, job, n, g);
        }
      case Perform(task) =>
        StoreOthers(w, task, t);
        OthersKeepOwing(w, v, t, job, n, g);
      case Resume(task, outcome) =>
        if task == t { SettleOwes(w, t, outcome, job, n, g); }
        else {
          SettleOthers(w, task, outcome, t);
          OthersKeepOwing(w, v, t, job, n, g);
        }
      case ClearSession => OthersKeepOwing(w, v, t, job, n, g);
    }
  }

  lemma GoneOwes(w: Worker, v: Worker, t: nat, job: Option<string>, n: nat, g: Goal)
    requires Owing(w, t, job, n, g) && t !in v.tasks && v.nextTask == w.nextTask
    ensures Owing(v, t, job, n, g)
  {
  }

  lemma SpawnOwes(w: Worker, c: Code, v: Worker, t: nat, job: Option<string>, n: nat, g: Goal)
    requires Owing(w, t, job, n, g)
    requires v == PutTask(w, w.nextTask, NewTask(c)).(current := Some(w.nextTask), nextTask := w.nextTask + 1)
    ensures Owing(v, t, job, n, g)
  {
    hide Owes, TaskOwes, Count;
  }

  /** A task that is at `i` where it owes `n` calls for its job on every way to the goal, and at `j` is at
      the goal, has issued them in between. */
  lemma {:induction false} OwedIsIssued(ws: seq<Worker>, labels: seq<Label>, leftover: Option<Stored>, i: nat, j: nat,
      t: nat, n: nat, g: Goal)
    requires IsRun(ws, labels, leftover) && i <= j < |ws| && t in ws[i].tasks && ws[i].tasks[t].waiting.None?
    requires Owes(ws[i].tasks[t].code, ws[i].tasks[t].handlers, Some(n), g)
    requires g.thrown.Some? ==> n <= g.thrown.value
    requires forall m :: i <= m < j ==> Otherwise(ws[m], labels[m], t, g)
    ensures Owing(ws[j], t, JobOf(ws[i].tasks[t]), Count(ws[i].log, t, JobOf(ws[i].tasks[t]), g.call) + n, g)
  {
    hide Owes, Otherwise, Count, Owing, Inv, Step, Boots;
    var job := JobOf(ws[i].tasks[t]);
    var paid := Count(ws[i].log, t, job, g.call);
    if i == j {
      RunKeeps(ws, labels, leftover, i, i);
      NowOwing(ws[i], t, n, g, leftover);
    } else {
      OwedIsIssued(ws, labels, leftover, i, j - 1, t, n, g);
      RunKeeps(ws, labels, leftover, i, j - 1);
      CurrentRuns(ws[j - 1], leftover);
      StepOwes(ws[j - 1], labels[j - 1], ws[j], t, job, paid + n, g);
    }
  }

  lemma NowOwing(w: Worker, t: nat, n: nat, g: Goal, leftover: Option<Stored>)
    requires Inv(w, leftover) && t in w.tasks && w.tasks[t].waiting.None?
    requires Owes(w.tasks[t].code, w.tasks[t].handlers, Some(n), g) && (g.thrown.Some? ==> n <= g.thrown.value)
    ensures Owing(w, t, JobOf(w.tasks[t]), Count(w.log, t, JobOf(w.tasks[t]), g.call) + n, g)
  {
    hide Owes, Count, Guarded;
    assert TaskInv(w, t, w.tasks[t], leftover);
  }

  lemma CurrentRuns(w: Worker, leftover: Option<Stored>)
    requires Inv(w, leftover)
    ensures w.current.Some? ==> w.current.value in w.tasks && w.tasks[w.current.value].waiting.None?
  {
    hide Guarded;
    if w.current.Some? { assert TaskInv(w, w.current.value, w.tasks[w.current.value], leftover); }
  }

  // ---------------------------------------------------------------- the programs

  /** Instructions that go straight on. */
  predicate Straight(i: Instr) {
    match i
    case NewGeneration(_) => true
    case Capture => true
    case AssertGeneration => true
    case TestControl(_) => true
    case Keep => true
    case Test => true
    case Await(_) => true
    case Quietly(_) => true
    case AwaitIf(_, _) => true
    case _ => false
  }

  /** The goal stands where a program ends, and the call is none of the reads every program does. */
  predicate Ends(g: Goal) {
    && (g.target.Done? || g.target.head == EndTry || g.target.head == SetRunning(false))
    && g.call !in {StoreGet, TabGet, Yield, TabLoaded, Detach}
  }

  function Less(left: Option<nat>, i: Instr, g: Goal): Option<nat> {
    match i
    case Await(call) => Paid(left, call, g)
    case Quietly(call) => Paid(left, call, g)
    case _ => left
  }

  lemma Past(i: Instr, next: Code, hs: seq<Code>, left: Option<nat>, g: Goal)
    requires Ends(g) && Straight(i) && Owes(next, hs, Less(left, i, g), g)
    requires i.Await? || i.Quietly? || i.AwaitIf? ==> i.call != PollApi
    ensures Owes(Do(i, next), hs, left, g)
  {
  }

  /** A branch: nothing less is owed on either way. */
  lemma Fork(cond: Cond, instead: Code, next: Code, hs: seq<Code>, left: Option<nat>, g: Goal)
    requires Ends(g) && !Loses(cond)
    requires Owes(next, hs, left, g) && ((g.other && cond == SameTab) || Owes(instead, hs, left, g))
    ensures Owes(Do(Branch(cond, instead), next), hs, left, g)
  {
  }

  lemma CheckedOwes(same: bool, next: Code, hs: seq<Code>, left: Option<nat>, g: Goal)
    requires Ends(g) && Owes(next, hs, left, g)
    ensures Owes(Checked(same, next), hs, left, g)
  {
    hide Owes;
    Past(Await(Yield), next, hs, left, g);
    Past(Test, Do(Await(Yield), next), hs, left, g);
    var c6 := Do(AssertGeneration, Do(Test, Do(Await(Yield), next)));
    Past(AssertGeneration, c6.next, hs, left, g);
    Past(Await(TabGet), c6, hs, left, g);
    var c4 := Do(TestControl(same), Do(Await(TabGet), c6));
    Past(TestControl(same), c4.next, hs, left, g);
    Past(AssertGeneration, c4, hs, left, g);
    Past(Await(StoreGet), Do(AssertGeneration, c4), hs, left, g);
    Past(AssertGeneration, Do(Await(StoreGet), Do(AssertGeneration, c4)), hs, left, g);
  }

  /** `k` calls more, if they are of the goal's kind. */
  function More(n: nat, k: nat, call: Call, g: Goal): Option<nat> {
    Some(if call == g.call then n + k else n)
  }

  lemma DispatchOwes(next: Code, hs: seq<Code>, n: nat, g: Goal)
    requires Ends(g) && Owes(next, hs, Some(n), g)
    ensures Owes(Dispatch(next), hs, More(n, 1, SendCommand, g), g)
  {
    hide Owes, Checked;
    var left := More(n, 1, SendCommand, g);
    Past(Await(SendCommand), next, hs, left, g);
    Past(AssertGeneration, Do(Await(SendCommand), next), hs, left, g);
    var send := Do(AssertGeneration, Do(Await(SendCommand), next));
    Past(Test, send, hs, left, g);
    CheckedOwes(true, Do(Test, send), hs, left, g);
  }

  lemma EvaluateOwes(next: Code, hs: seq<Code>, n: nat, g: Goal)
    requires Ends(g) && Owes(next, hs, Some(n), g)
    ensures Owes(Evaluate(next), hs, More(n, 3, SendCommand, g), g)
  {
    hide Owes, Checked, Dispatch;
    var m := if g.call == SendCommand then 1 else 0;
    Past(Test, next, hs, Some(n), g);
    var d := Do(Test, next);
    DispatchOwes(d, hs, n, g);
    DispatchOwes(Dispatch(d), hs, n + m, g);
    DispatchOwes(Dispatch(Dispatch(d)), hs, n + 2 * m, g);
    CheckedOwes(true, Dispatch(Dispatch(Dispatch(d))), hs, More(n, 3, SendCommand, g), g);
  }

  lemma PointOwes(selector: bool, next: Code, hs: seq<Code>, n: nat, g: Goal)
    requires Ends(g) && Owes(next, hs, Some(n), g)
    ensures Owes(Point(selector, next), hs, More(n, if selector then 3 else 0, SendCommand, g), g)
  {
    hide Owes, Evaluate;
    Past(Await(Yield), next, hs, Some(n), g);
    if selector { EvaluateOwes(Do(Await(Yield), next), hs, n, g); }
  }

  lemma GiveUpOwes(hs: seq<Code>, left: Option<nat>, next: Code, g: Goal)
    requires Ends(g) && g.target.Do? && Owes(next, hs, left, g)
    ensures Owes(GiveUp(), hs, left, g)
  {
    assert Owes(Do(Throw, Done), hs, left, g);
  }

  lemma SwitchTabOwes(next: Code, hs: seq<Code>, n: nat, g: Goal)
    requires Ends(g) && g.target.Do? && Owes(next, hs, Some(n), g)
    requires (g.call == Attach ==> g.other) && g.call != StoreSwitch
    ensures Owes(SwitchTab(next), hs, More(n, 1, Attach, g), g)
  {
    hide Owes, Checked, GiveUp;
    var left := More(n, 1, Attach, g);
    GiveUpOwes(hs, Some(n), next, g);
    Fork(Paused, GiveUp(), next, hs, Some(n), g);
    var attach := Do(Await(Attach), Do(Branch(Paused, GiveUp()), next));
    Past(Await(Attach), attach.next, hs, left, g);
    Past(AssertGeneration, attach, hs, left, g);
    var detach := Do(Quietly(Detach), Do(AssertGeneration, attach));
    Past(Quietly(Detach), detach.next, hs, left, g);
    Past(Await(StoreSwitch), detach, hs, left, g);
    var switch := Do(Branch(SameTab, next), Do(Await(StoreSwitch), detach));
    Fork(SameTab, next, switch.next, hs, left, g);
    Past(AssertGeneration, switch, hs, left, g);
    CheckedOwes(true, Do(AssertGeneration, switch), hs, left, g);
    Past(Test, Checked(true, Do(AssertGeneration, switch)), hs, left, g);
  }

  /** What an action does to the browser at least: debugger commands, a new tab, and an attach to the
      tab it goes to if that is another one. */
  function Due(a: Action, call: Call, other: bool): nat {
    match call
    case SendCommand =>
      (match a
       case Click(selector) => if selector then 5 else 2
       case Type(selector) => if selector then 4 else 1
       case Inspect => 3
       case Key => 2
       case Screenshot => 1
       case Navigate => 1
       case Scroll => 1
       case _ => 0)
    case CreateTab => if a == NewTab then 1 else 0
    case Attach => if other && (a == NewTab || a == SelectTab) then 1 else 0
    case _ => 0
  }

  predicate Effect(c: Call) {
    c == SendCommand || c == CreateTab || c == Attach || c == ResultApi
  }

  lemma NewTabOwes(next: Code, hs: seq<Code>, n: nat, g: Goal)
    requires Ends(g) && g.target.Do? && Owes(next, hs, Some(n), g) && Effect(g.call) && (g.call == Attach ==> g.other)
    ensures Owes(Body(NewTab, next), hs, Some(n + Due(NewTab, g.call, g.other)), g)
  {
    hide Owes, Checked, SwitchTab;
    var left := Some(n + Due(NewTab, g.call, g.other));
    SwitchTabOwes(next, hs, n, g);
    var rest := if g.call == Attach then Some(n + 1) else Some(n);
    Past(Await(TabLoaded), SwitchTab(next), hs, rest, g);
    var create := Do(AssertGeneration, Do(Await(CreateTab), Do(Await(TabLoaded), SwitchTab(next))));
    Past(Await(CreateTab), Do(Await(TabLoaded), SwitchTab(next)), hs, left, g);
    Past(AssertGeneration, create.next, hs, left, g);
    CheckedOwes(true, create, hs, left, g);
    Past(Test, Checked(true, create), hs, left, g);
    Past(Test, Do(Test, Checked(true, create)), hs, left, g);
  }

  lemma SelectTabOwes(next: Code, hs: seq<Code>, n: nat, g: Goal)
    requires Ends(g) && g.target.Do? && Owes(next, hs, Some(n), g) && Effect(g.call) && (g.call == Attach ==> g.other)
    ensures Owes(Body(SelectTab, next), hs, Some(n + Due(SelectTab, g.call, g.other)), g)
  {
    hide Owes, SwitchTab;
    SwitchTabOwes(next, hs, n, g);
    Past(Await(TabGet), SwitchTab(next), hs, Some(n + Due(SelectTab, g.call, g.other)), g);
  }

  lemma TypingOwes(selector: bool, next: Code, hs: seq<Code>, n: nat, g: Goal)
    requires Ends(g) && Owes(next, hs, Some(n), g) && Effect(g.call)
    ensures Owes(Body(Type(selector), next), hs, Some(n + Due(Type(selector), g.call, false)), g)
  {
    hide Owes, Checked, Dispatch, Point;
    var m := if g.call == SendCommand then 1 else 0;
    DispatchOwes(next, hs, n, g);
    Past(Test, Dispatch(next), hs, Some(n + m), g);
    CheckedOwes(true, Do(Test, Dispatch(next)), hs, Some(n + m), g);
    PointOwes(true, Checked(true, Do(Test, Dispatch(next))), hs, n + m, g);
  }

  lemma ClickingOwes(selector: bool, next: Code, hs: seq<Code>, n: nat, g: Goal)
    requires Ends(g) && Owes(next, hs, Some(n), g) && Effect(g.call)
    ensures Owes(Body(Click(selector), next), hs, Some(n + Due(Click(selector), g.call, false)), g)
  {
    hide Owes, Checked, Dispatch, Point;
    var m := if g.call == SendCommand then 1 else 0;
    DispatchOwes(next, hs, n, g);
    DispatchOwes(Dispatch(next), hs, n + m, g);
    CheckedOwes(true, Dispatch(Dispatch(next)), hs, Some(n + 2 * m), g);
    PointOwes(selector, Checked(true, Dispatch(Dispatch(next))), hs, n + 2 * m, g);
  }

  lemma ShortOwes(a: Action, next: Code, hs: seq<Code>, n: nat, g: Goal)
    requires Ends(g) && Owes(next, hs, Some(n), g) && Effect(g.call)
    requires a in {Key, Screenshot, Navigate, Scroll, Inspect}
    ensures Owes(Body(a, next), hs, Some(n + Due(a, g.call, g.other)), g)
  {
    hide Owes, Dispatch, Evaluate;
    Past(Test, next, hs, Some(n), g);
    EvaluateOwes(next, hs, n, g);
    DispatchOwes(next, hs, n, g);
    DispatchOwes(Do(Test, next), hs, n, g);
    var m := if g.call == SendCommand then 1 else 0;
    Past(Test, Dispatch(Do(Test, next)), hs, Some(n + m), g);
    DispatchOwes(Dispatch(next), hs, n + m, g);
    Past(Test, Dispatch(Dispatch(next)), hs, Some(n + 2 * m), g);
  }

  lemma QuietOwes(next: Code, hs: seq<Code>, n: nat, g: Goal)
    requires Ends(g) && Owes(next, hs, Some(n), g)
    ensures Owes(Body(Tabs, next), hs, Some(n), g) && Owes(Body(Other, next), hs, Some(n), g)
  {
    NeverOwes(next, hs, n, g);
    hide Owes;
    Past(AwaitIf(Unmanaged, TabGet), next, hs, Some(n), g);
    Past(AwaitIf(Managed, TabQuery), Do(AwaitIf(Unmanaged, TabGet), next), hs, Some(n), g);
  }

  /** After a throw nothing is owed. */
  lemma NeverOwes(next: Code, hs: seq<Code>, n: nat, g: Goal)
    requires Ends(g) && Owes(next, hs, Some(n), g)
    ensures Owes(Do(Throw, next), hs, Some(n), g)
  {
  }

  lemma BodyOwes(a: Action, next: Code, hs: seq<Code>, n: nat, g: Goal)
    requires Ends(g) && g.target.Do? && Owes(next, hs, Some(n), g) && Effect(g.call) && (g.call == Attach ==> g.other)
    ensures Owes(Body(a, next), hs, Some(n + Due(a, g.call, g.other)), g)
  {
    hide Owes, Body;
    match a {
      case NewTab => NewTabOwes(next, hs, n, g);
      case SelectTab => SelectTabOwes(next, hs, n, g);
      case Click(selector) => ClickingOwes(selector, next, hs, n, g);
      case Type(selector) => TypingOwes(selector, next, hs, n, g);
      case Tabs => QuietOwes(next, hs, n, g);
      case Other => QuietOwes(next, hs, n, g);
      case _ => ShortOwes(a, next, hs, n, g);
    }
  }

  lemma ExecuteOwes(a: Action, next: Code, hs: seq<Code>, n: nat, g: Goal)
    requires Ends(g) && g.target.Do? && Owes(next, hs, Some(n), g) && Effect(g.call) && (g.call == Attach ==> g.other)
    ensures Owes(Execute(a, next), hs, Some(n + Due(a, g.call, g.other)), g)
  {
    hide Owes, Body, Checked;
    var left := Some(n + Due(a, g.call, g.other));
    BodyOwes(a, next, hs, n, g);
    Past(Keep, Body(a, next), hs, left, g);
    CheckedOwes(true, Do(Keep, Body(a, next)), hs, left, g);
    Past(Capture, Checked(true, Do(Keep, Body(a, next))), hs, left, g);
  }

  // ---------------------------------------------------------------- after a job

  /** Where a job that ran to its end leaves off, and what is installed there. */
  function JobDone(): Code {
    Do(EndTry, AfterExecute())
  }

  function JobHandlers(): seq<Code> {
    [AfterExecute(), TickCatch()]
  }

  /** `k` calls more where anything is due at all. */
  function Added(left: Option<nat>, k: nat): Option<nat> {
    if left.Some? then Some(left.value + k) else None
  }

  /** What a stop does: the record is removed and the badge cleared. */
  predicate Clears(c: Call) {
    c == StoreRemove || c == Badge
  }

  lemma StopOwes(notify: bool, next: Code, hs: seq<Code>, left: Option<nat>, g: Goal)
    requires Ends(g) && Owes(next, hs, left, g) && g.call != SavedPair
    ensures Owes(Stop(notify, next), hs, Added(left, if Clears(g.call) then 1 else 0), g)
  {
    hide Owes;
    var tell := if notify then Do(Await(SavedPair), Do(AwaitIf(Paired, ControlOffApi), next)) else next;
    TellOwes(next, hs, left, g);
    var one := Added(left, if g.call == Badge then 1 else 0);
    Past(Await(Badge), tell, hs, one, g);
    Past(AwaitIf(HasStored, Detach), Do(Await(Badge), tell), hs, one, g);
    StopStarts(tell, hs, one, Added(left, if Clears(g.call) then 1 else 0), g);
  }

  lemma TellOwes(next: Code, hs: seq<Code>, left: Option<nat>, g: Goal)
    requires Ends(g) && Owes(next, hs, left, g) && g.call != SavedPair
    ensures Owes(Do(Await(SavedPair), Do(AwaitIf(Paired, ControlOffApi), next)), hs, left, g)
  {
    hide Owes;
    Past(AwaitIf(Paired, ControlOffApi), next, hs, left, g);
    Past(Await(SavedPair), Do(AwaitIf(Paired, ControlOffApi), next), hs, left, g);
  }

  lemma StopStarts(tell: Code, hs: seq<Code>, one: Option<nat>, left: Option<nat>, g: Goal)
    requires Ends(g) && Owes(Do(AwaitIf(HasStored, Detach), Do(Await(Badge), tell)), hs, one, g)
    requires one == Paid(left, StoreRemove, g)
    ensures Owes(Do(Await(StoreGet), Do(Await(StoreRemove), Do(AwaitIf(HasStored, Detach), Do(Await(Badge), tell)))),
                 hs, left, g)
  {
    hide Owes;
    var rest := Do(AwaitIf(HasStored, Detach), Do(Await(Badge), tell));
    Past(Await(StoreRemove), rest, hs, left, g);
    Past(Await(StoreGet), Do(Await(StoreRemove), rest), hs, left, g);
  }

  lemma PauseOwes(notify: bool, next: Code, hs: seq<Code>, left: Option<nat>, g: Goal)
    requires Ends(g) && Owes(next, hs, left, g) && g.call != SavedPair
    ensures Owes(Pause(notify, next), hs, Added(left, if Clears(g.call) then 1 else 0), g)
  {
    hide Owes, Stop;
    StopOwes(notify, next, hs, left, g);
    Past(NewGeneration(false), Stop(notify, next), hs, Added(left, if Clears(g.call) then 1 else 0), g);
  }

  /** The goal is inside the try block of a poll. */
  predicate InTick(g: Goal) {
    Ends(g) && g.target.Do? && |g.home| > 0 && g.home[|g.home| - 1] == TickCatch() && g.call != SavedPair
  }

  /** What catches an exception of a poll never comes back to the goal. */
  lemma TickCatchOff(g: Goal)
    requires InTick(g)
    ensures Owes(TickCatch(), [], None, g)
  {
    hide Pause;
    var over := Do(EndTry, Finally());
    var caught := [Finally()];
    FinallyOff(g);
    assert Owes(over, caught, None, g);
    PauseOwes(true, over, caught, None, g);
    assert [Finally()] + [] == caught;
  }

  lemma FinallyOff(g: Goal)
    requires InTick(g)
    ensures Owes(Finally(), [], None, g) && Owes(Do(EndTry, Finally()), [Finally()], None, g)
  {
    assert Tail([Finally()]) == [];
    assert Finally() != TickCatch();
    assert Owes(Done, [], None, g);
    assert Owes(Finally(), [], None, g);
  }

  /** The end of a poll, from the job's end. */
  lemma AfterExecuteOwes(left: Option<nat>, g: Goal)
    requires InTick(g) && (Finally() == g.target && g.home == [TickCatch()] ==> left == Some(0))
    ensures Owes(AfterExecute(), [TickCatch()], Added(left, if g.call == ResultApi then 1 else 0), g)
  {
    hide Checked, TickCatch;
    var hs := [TickCatch()];
    TickCatchOff(g);
    assert Owes(Done, hs, left, g);
    assert Owes(Finally(), hs, left, g);
    hide Owes;
    var more := Added(left, if g.call == ResultApi then 1 else 0);
    Past(Await(ResultApi), Finally(), hs, more, g);
    CheckedOwes(true, Do(Await(ResultApi), Finally()), hs, more, g);
    Past(Capture, Checked(true, Do(Await(ResultApi), Finally())), hs, more, g);
  }

  /** The goal of a job: its end, with nothing thrown. */
  function JobGoal(call: Call, other: bool): Goal {
    Goal(JobDone(), JobHandlers(), call, other, None)
  }

  lemma JobDoneOwes(call: Call, other: bool)
    requires Effect(call) && call != ResultApi
    ensures Owes(JobDone(), JobHandlers(), Some(0), JobGoal(call, other))
  {
    hide AfterExecute, TickCatch, Owes;
    var g := JobGoal(call, other);
    AfterExecuteOwes(Some(0), g);
    AfterExecuteOwes(None, g);
    TryEnds(AfterExecute(), AfterExecute(), [TickCatch()], Some(0), g);
    assert JobHandlers() == [AfterExecute()] + [TickCatch()];
  }

  /** The end of a try block. */
  lemma TryEnds(next: Code, handler: Code, hs: seq<Code>, left: Option<nat>, g: Goal)
    requires Owes(next, hs, left, g) && (Owes(handler, hs, None, g) || Owes(handler, hs, g.thrown, g))
    requires Do(EndTry, next) == g.target ==> left == Some(0)
    ensures Owes(Do(EndTry, next), [handler] + hs, left, g)
  {
    var all := [handler] + hs;
    assert all[0] == handler && all[1..] == hs && Tail(all) == hs;
  }

  // ---------------------------------------------------------------- where a job is executed

  /** A program, with what is installed, executes a job only where its end and an exception are told apart,
      and pauses where it has lost its control. */
  ghost predicate Fine(c: Code, hs: seq<Code>)
    decreases Size(c) + Sizes(hs)
  {
    && (hs != [] ==> Size(c) > 0 && Fine(hs[0], hs[1..]))
    && match c
       case Done => true
       case Do(i, next) =>
         match i
         case BeginExecute => next == JobDone() && hs == JobHandlers() && Fine(next, hs)
         case Try(handler) => (SizesCons(handler, hs); Fine(next, [handler] + hs))
         case EndTry => Fine(next, Tail(hs))
         case Branch(cond, instead) =>
           && Fine(next, hs) && Fine(instead, hs)
           && (Loses(cond) ==> instead == Pause(false, Finally()) && hs == [TickCatch()])
         case Throw => true
         case _ => Fine(next, hs)
  }

  /** What owing says of the next place. */
  lemma OwesOn(c: Code, hs: seq<Code>, left: Option<nat>, g: Goal)
    requires Owes(c, hs, left, g)
    ensures hs != [] ==> Owes(hs[0], hs[1..], None, g) || Owes(hs[0], hs[1..], g.thrown, g)
    ensures c.Do? ==> !c.head.BeginExecute?
    ensures c.Do? && c.head.Try? ==> Owes(c.next, [c.head.handler] + hs, left, g)
    ensures c.Do? && c.head.EndTry? ==> Owes(c.next, Tail(hs), left, g)
    ensures c.Do? && c.head.Branch? ==>
      && !Loses(c.head.cond) && Owes(c.next, hs, left, g)
      && ((g.other && c.head.cond == SameTab) || Owes(c.head.instead, hs, left, g))
    ensures c.Do? && (c.head.Await? || c.head.Quietly?) ==> Owes(c.next, hs, Paid(left, c.head.call, g), g)
    ensures c.Do? && !c.head.Try? && !c.head.EndTry? && !c.head.Branch? && !c.head.Await? && !c.head.Quietly? ==>
      c.head.Throw? || c.head.BeginExecute? || Owes(c.next, hs, left, g)
  {
  }

  lemma {:induction false} OwesIsFine(c: Code, hs: seq<Code>, left: Option<nat>, g: Goal)
    requires Owes(c, hs, left, g) && !g.other
    ensures Fine(c, hs)
    decreases Size(c) + Sizes(hs)
  {
    OwesOn(c, hs, left, g);
    hide Owes, Fine, Paid, Tail;
    SizeIsMore(c, hs);
    if hs != [] {
      if Owes(hs[0], hs[1..], None, g) { OwesIsFine(hs[0], hs[1..], None, g); }
      else { OwesIsFine(hs[0], hs[1..], g.thrown, g); }
    }
    if c.Done? {
      FineDone(hs);
    } else {
      match c.head {
        case Throw => FineThrow(c.next, hs);
        case Try(handler) =>
          SizesCons(handler, hs);
          OwesIsFine(c.next, [handler] + hs, left, g);
          FineTry(handler, c.next, hs);
        case EndTry =>
          OwesIsFine(c.next, Tail(hs), left, g);
          FineEnd(c.next, hs);
        case Branch(cond, instead) =>
          OwesIsFine(c.next, hs, left, g);
          OwesIsFine(instead, hs, left, g);
          FineFork(cond, instead, c.next, hs);
        case Await(call) =>
          OwesIsFine(c.next, hs, Paid(left, call, g), g);
          FinePast(c.head, c.next, hs);
        case Quietly(call) =>
          OwesIsFine(c.next, hs, Paid(left, call, g), g);
          FinePast(c.head, c.next, hs);
        case BeginExecute =>
        case _ =>
          OwesIsFine(c.next, hs, left, g);
          FinePast(c.head, c.next, hs);
      }
    }
  }

  /** Every step leads to something smaller. */
  lemma SizeIsMore(c: Code, hs: seq<Code>)
    ensures Size(c) > 0
    ensures hs != [] ==> Size(hs[0]) + Sizes(hs[1..]) == Sizes(hs) && Sizes(Tail(hs)) <= Sizes(hs)
    ensures hs == [] ==> Sizes(Tail(hs)) == Sizes(hs)
    ensures c.Do? ==> Size(c.next) < Size(c)
    ensures c.Do? && c.head.Try? ==> Size(c.next) + Size(c.head.handler) < Size(c)
    ensures c.Do? && c.head.Branch? ==> Size(c.head.instead) < Size(c)
  {
  }

  /** An exception leads on to something fine, too. */
  ghost predicate Caught(hs: seq<Code>) {
    hs != [] ==> Fine(hs[0], hs[1..])
  }

  lemma FineDone(hs: seq<Code>)
    requires Caught(hs)
    ensures Fine(Done, hs)
  {
  }

  lemma FineThrow(next: Code, hs: seq<Code>)
    requires Caught(hs)
    ensures Fine(Do(Throw, next), hs)
  {
  }

  lemma FineEnd(next: Code, hs: seq<Code>)
    requires Caught(hs) && Fine(next, Tail(hs))
    ensures Fine(Do(EndTry, next), hs)
  {
  }

  lemma FineTry(handler: Code, next: Code, hs: seq<Code>)
    requires Caught(hs) && Fine(next, [handler] + hs)
    ensures Fine(Do(Try(handler), next), hs)
  {
  }

  /** No execution and no such test anywhere in the program. */
  predicate Plain(c: Code)
    decreases c
  {
    match c
    case Done => true
    case Do(Try(handler), next) => Plain(handler) && Plain(next)
    case Do(Branch(cond, instead), next) => !Loses(cond) && Plain(instead) && Plain(next)
    case Do(BeginExecute, _) => false
    case Do(_, next) => Plain(next)
  }

  lemma {:induction false} PlainIsFine(c: Code, hs: seq<Code>)
    requires Plain(c) && forall h :: h in hs ==> Plain(h)
    ensures Fine(c, hs)
    decreases Size(c) + Sizes(hs)
  {
    if hs != [] { PlainIsFine(hs[0], hs[1..]); }
    if c.Do? {
      match c.head {
        case Throw =>
        case Try(handler) =>
          SizesCons(handler, hs);
          PlainIsFine(c.next, [handler] + hs);
        case EndTry => PlainIsFine(c.next, Tail(hs));
        case Branch(_, instead) =>
          PlainIsFine(c.next, hs);
          PlainIsFine(instead, hs);
        case BeginExecute =>
        case _ => PlainIsFine(c.next, hs);
      }
    }
  }

  lemma CheckedPlain(same: bool, next: Code)
    requires Plain(next)
    ensures Plain(Checked(same, next))
  {
    var c5 := Do(AssertGeneration, Do(Test, Do(Await(Yield), next)));
    assert Plain(c5);
    assert Plain(Do(AssertGeneration, Do(TestControl(same), Do(Await(TabGet), c5))));
  }

  lemma StopPlain(notify: bool, next: Code)
    requires Plain(next)
    ensures Plain(Stop(notify, next)) && Plain(Pause(notify, next))
  {
    var tell := if notify then Do(Await(SavedPair), Do(AwaitIf(Paired, ControlOffApi), next)) else next;
    assert Plain(tell);
    assert Plain(Do(AwaitIf(HasStored, Detach), Do(Await(Badge), tell)));
  }

  lemma AuthorisePlain()
    ensures Plain(Authorise())
  {
    hide Pause;
    var throw := Do(Throw, Done);
    assert Plain(throw);
    StopPlain(true, throw);
    var badges := Do(Await(Badge), Do(Await(Badge), Do(EndTry, Done)));
    assert Plain(badges.next);
    assert Plain(badges);
    var check := Do(Await(StoreNew), Do(Branch(Paused, Pause(true, throw)), badges));
    assert Plain(check.next);
    assert Plain(check);
    assert Plain(Do(Await(ControlOffApi), throw));
    assert Plain(Do(Branch(Paused, Do(Await(ControlOffApi), throw)), check));
  }

  lemma StartPlain()
    ensures Plain(Start())
  {
    hide Authorise, Stop;
    AuthorisePlain();
    assert Plain(GiveUp());
    var attach := Do(AssertGeneration, Do(Await(Attach), Do(Try(GiveUp()), Authorise())));
    assert Plain(attach.next.next);
    assert Plain(attach);
    var after := Do(Await(Yield), Do(AssertGeneration, Do(Await(TabGet), Do(Test, attach))));
    assert Plain(after.next.next);
    assert Plain(after);
    StopPlain(true, after);
    var test := Do(AssertGeneration, Do(Test, Stop(true, after)));
    assert Plain(test);
    assert Plain(Do(AssertGeneration, Do(Await(SavedPair), test)));
  }

  lemma HandlersPlain()
    ensures Plain(Finally()) && Plain(TickCatch()) && Plain(AfterExecute()) && Plain(Pause(false, Finally()))
  {
    hide Pause, Checked;
    StopPlain(false, Finally());
    StopPlain(true, Do(EndTry, Finally()));
    CheckedPlain(true, Do(Await(ResultApi), Finally()));
  }

  lemma FinePast(i: Instr, next: Code, hs: seq<Code>)
    requires (Straight(i) || i.SetRunning?) && Fine(next, hs)
    ensures Fine(Do(i, next), hs)
  {
  }

  lemma FineFork(cond: Cond, instead: Code, next: Code, hs: seq<Code>)
    requires Fine(next, hs) && Fine(instead, hs)
    requires Loses(cond) ==> instead == Pause(false, Finally()) && hs == [TickCatch()]
    ensures Fine(Do(Branch(cond, instead), next), hs)
  {
  }

  lemma CheckedFine(same: bool, next: Code, hs: seq<Code>)
    requires Fine(next, hs)
    ensures Fine(Checked(same, next), hs)
  {
    hide Fine;
    FinePast(Await(Yield), next, hs);
    FinePast(Test, Do(Await(Yield), next), hs);
    var c6 := Do(AssertGeneration, Do(Test, Do(Await(Yield), next)));
    FinePast(AssertGeneration, c6.next, hs);
    FinePast(Await(TabGet), c6, hs);
    FinePast(TestControl(same), Do(Await(TabGet), c6), hs);
    var c3 := Do(AssertGeneration, Do(TestControl(same), Do(Await(TabGet), c6)));
    FinePast(AssertGeneration, c3.next, hs);
    FinePast(Await(StoreGet), c3, hs);
    FinePast(AssertGeneration, Do(Await(StoreGet), c3), hs);
  }

  /** From the grant to the execution. */
  lemma GrantFine()
    ensures Fine(Do(Try(AfterExecute()), Do(BeginExecute, JobDone())), [TickCatch()])
  {
    hide AfterExecute, TickCatch;
    HandlersPlain();
    var hs := JobHandlers();
    assert hs == [AfterExecute()] + [TickCatch()] && hs[1..] == [TickCatch()];
    PlainIsFine(JobDone(), hs);
    PlainIsFine(AfterExecute(), [TickCatch()]);
    PlainIsFine(Done, [TickCatch()]);
    assert Fine(Do(BeginExecute, JobDone()), hs);
  }

  lemma TakeJobFine()
    ensures Fine(TakeJob(), [TickCatch()])
  {
    hide Fine, Pause, Finally, AfterExecute, TickCatch, Plain;
    var hs := [TickCatch()];
    HandlersPlain();
    PlainIsFine(Finally(), hs);
    PlainIsFine(Pause(false, Finally()), hs);
    GrantFine();
    var run := Do(Try(AfterExecute()), Do(BeginExecute, JobDone()));
    FinePast(Await(StartApi), run, hs);
    var pick := Do(Branch(NoJob, Finally()), Do(Await(StartApi), run));
    FineFork(NoJob, Finally(), pick.next, hs);
    FineFork(OtherControl, Pause(false, Finally()), pick, hs);
    FinePast(Await(PollApi), Do(Branch(OtherControl, Pause(false, Finally())), pick), hs);
  }

  lemma TickFine()
    ensures Fine(Tick(), [])
  {
    hide Pause, Finally, TickCatch, Plain, Checked, TakeJob;
    var hs := [TickCatch()];
    HandlersPlain();
    PlainIsFine(Finally(), hs);
    PlainIsFine(Pause(false, Finally()), hs);
    PlainIsFine(Done, []);
    TakeJobFine();
    var look := Do(Branch(Unpaired, Pause(false, Finally())), TakeJob());
    FineFork(Unpaired, Pause(false, Finally()), TakeJob(), hs);
    FinePast(Await(SavedPair), look, hs);
    FinePast(Keep, Do(Await(SavedPair), look), hs);
    var keep := Do(Keep, Do(Await(SavedPair), look));
    CheckedFine(false, keep, hs);
    FinePast(Capture, Checked(false, keep), hs);
    FineFork(NoControl, Finally(), Do(Capture, Checked(false, keep)), hs);
    FinePast(Await(StoreGet), LookForJob(), hs);
    assert [TickCatch()] + [] == hs;
    FineTry(TickCatch(), Do(Await(StoreGet), LookForJob()), []);
    FinePast(SetRunning(true), Do(Try(TickCatch()), Do(Await(StoreGet), LookForJob())), []);
    FineFork(Busy, Done, Do(SetRunning(true), Do(Try(TickCatch()), Do(Await(StoreGet), LookForJob()))), []);
  }

  lemma EntryFine(c: Code)
    requires Entry(c)
    ensures Fine(c, [])
  {
    hide Fine, Start, Pause, Tick;
    if c == Start() {
      StartPlain();
      PlainIsFine(c, []);
    } else if c == Tick() {
      TickFine();
    } else {
      StopPlain(c == Pause(true, Done), Done);
      PlainIsFine(c, []);
    }
  }

  // ---------------------------------------------------------------- the goal of a whole poll

  /** The end of a poll, reached with its catch block still to come. */
  function PollGoal(): Goal {
    Goal(Finally(), [TickCatch()], ResultApi, false, Some(1))
  }

  /** Whether the job ran to its end or was given up, its result is due. */
  lemma JobDonePolls()
    ensures Owes(JobDone(), JobHandlers(), Some(1), PollGoal())
  {
    hide AfterExecute, TickCatch, Owes;
    var g := PollGoal();
    AfterExecuteOwes(Some(0), g);
    TryEnds(AfterExecute(), AfterExecute(), [TickCatch()], Some(1), g);
    assert JobHandlers() == [AfterExecute()] + [TickCatch()];
  }

  // ---------------------------------------------------------------- every task of every run

  ghost predicate AllFine(w: Worker) {
    forall t :: t in w.tasks ==> Fine(w.tasks[t].code, w.tasks[t].handlers)
  }

  /** The program of any action, with what is installed when it starts. */
  lemma ExecuteFine(a: Action)
    ensures Fine(Execute(a, JobDone()), JobHandlers())
  {
    hide Owes, Execute, JobDone, JobHandlers, Fine;
    JobDoneOwes(SendCommand, false);
    JobGoalEnds(SendCommand, false);
    ExecuteOwes(a, JobDone(), JobHandlers(), 0, JobGoal(SendCommand, false));
    OwesIsFine(Execute(a, JobDone()), JobHandlers(), Some(Due(a, SendCommand, false)), JobGoal(SendCommand, false));
  }

  lemma JobGoalEnds(call: Call, other: bool)
    requires Effect(call)
    ensures Ends(JobGoal(call, other)) && JobGoal(call, other).target.Do?
  {
  }

  lemma ThrownFine(k: Task)
    requires Fine(k.code, k.handlers) && k.handlers != []
    ensures Fine(k.handlers[0], k.handlers[1..])
  {
  }

  lemma LocalFine(w: Worker, k: Task, choice: bool)
    requires Fine(k.code, k.handlers) && k.code.Do? && !IsCall(k.code.head) && LocalTask(w, k, choice).Some?
    ensures var m := LocalTask(w, k, choice).value; Fine(m.code, m.handlers)
  {
    hide Execute, JobDone, JobHandlers;
    if k.code.head.BeginExecute? { ExecuteFine(k.job.value.action); }
  }

  lemma CallFine(k: Task)
    requires Fine(k.code, k.handlers) && k.code.Do? && IsCall(k.code.head)
    ensures Fine(k.code.next, k.handlers)
  {
  }

  lemma ExecFine(w: Worker, choice: bool, tab: int)
    requires AllFine(w) && w.current.Some? && w.current.value in w.tasks
    ensures AllFine(Exec(w, choice, tab))
  {
    hide Fine, LocalTask;
    var t := w.current.value;
    var k := w.tasks[t];
    assert Fine(k.code, k.handlers);
    if k.handlers != [] { ThrownFine(k); }
    if k.code.Do? {
      if IsCall(k.code.head) { CallFine(k); }
      else if LocalTask(w, k, choice).Some? { LocalFine(w, k, choice); }
    }
  }

  lemma SettleFine(w: Worker, task: nat, outcome: Outcome)
    requires AllFine(w) && Waits(w, task)
    ensures AllFine(Settle(w, task, outcome))
  {
    hide Fine;
    if w.tasks[task].handlers != [] { ThrownFine(w.tasks[task]); }
  }

  lemma StoreFine(w: Worker, task: nat)
    requires AllFine(w) && Waits(w, task)
    ensures AllFine(Store(w, task))
  {
    hide Fine;
  }

  lemma StepFine(w: Worker, l: Label, v: Worker)
    requires Step(w, l, v) && AllFine(w)
    ensures AllFine(v)
  {
    hide AllFine, Exec, Settle, Store, PutTask, NewTask, Entry;
    match l {
      case Spawn(c) => SpawnFine(w, c);
      case Run(choice, tab) => ExecFine(w, choice, tab);
      case Perform(task) => StoreFine(w, task);
      case Resume(task, outcome) => SettleFine(w, task, outcome);
      case ClearSession => ClearFine(w);
    }
  }

  lemma ClearFine(w: Worker)
    requires AllFine(w)
    ensures AllFine(w.(session := None))
  {
    hide Fine;
  }

  lemma SpawnFine(w: Worker, c: Code)
    requires AllFine(w) && Entry(c)
    ensures AllFine(PutTask(w, w.nextTask, NewTask(c)).(current := Some(w.nextTask), nextTask := w.nextTask + 1))
  {
    hide Fine, Entry;
    EntryFine(c);
  }

  lemma {:induction false} RunFine(ws: seq<Worker>, labels: seq<Label>, leftover: Option<Stored>, n: nat)
    requires IsRun(ws, labels, leftover) && n < |ws|
    ensures AllFine(ws[n])
  {
    hide Step, Stop;
    if n == 0 {
      StopPlain(true, Done);
      PlainIsFine(Stop(true, Done), []);
    } else {
      hide Boots, AllFine;
      RunFine(ws, labels, leftover, n - 1);
      StepFine(ws[n - 1], labels[n - 1], ws[n]);
    }
  }

  // ---------------------------------------------------------------- the straight way

  /** How often the call is issued on the way to the end of a try block that takes no branch and skips what
      is optional; None: that way leads elsewhere. */
  function StraightWay(c: Code, call: Call): Option<nat> {
    match c
    case Done => None
    case Do(EndTry, _) => Some(0)
    case Do(Throw, _) => None
    case Do(BeginExecute, _) => None
    case Do(Await(one), next) => Counted(one == call, StraightWay(next, call))
    case Do(Quietly(one), next) => Counted(one == call, StraightWay(next, call))
    case Do(_, next) => StraightWay(next, call)
  }

  function Counted(one: bool, rest: Option<nat>): Option<nat> {
    if one && rest.Some? then Some(rest.value + 1) else rest
  }

  lemma CheckedWay(same: bool, next: Code, call: Call)
    requires Effect(call)
    ensures StraightWay(Checked(same, next), call) == StraightWay(next, call)
  {
    var c5 := Do(AssertGeneration, Do(Test, Do(Await(Yield), next)));
    assert StraightWay(c5.next, call) == StraightWay(next, call);
    var c4 := Do(TestControl(same), Do(Await(TabGet), c5));
    assert StraightWay(c4.next, call) == StraightWay(next, call);
    assert StraightWay(Do(Await(StoreGet), Do(AssertGeneration, c4)), call) == StraightWay(c4, call);
  }

  lemma DispatchWay(next: Code, call: Call)
    requires Effect(call)
    ensures StraightWay(Dispatch(next), call) == Counted(call == SendCommand, StraightWay(next, call))
  {
    hide Checked;
    var send := Do(AssertGeneration, Do(Await(SendCommand), next));
    assert StraightWay(send, call) == Counted(call == SendCommand, StraightWay(next, call));
    CheckedWay(true, Do(Test, send), call);
  }

  lemma EvaluateWay(next: Code, call: Call)
    requires Effect(call) && StraightWay(next, call).Some?
    ensures StraightWay(Evaluate(next), call) ==
            Some(StraightWay(next, call).value + if call == SendCommand then 3 else 0)
  {
    hide Checked, Dispatch;
    var d := Do(Test, next);
    DispatchWay(d, call);
    DispatchWay(Dispatch(d), call);
    DispatchWay(Dispatch(Dispatch(d)), call);
    CheckedWay(true, Dispatch(Dispatch(Dispatch(d))), call);
  }

  lemma SwitchTabWay(next: Code, call: Call)
    requires Effect(call)
    ensures StraightWay(SwitchTab(next), call) == Counted(call == Attach, StraightWay(next, call))
  {
    hide Checked, GiveUp;
    var attach := Do(Await(Attach), Do(Branch(Paused, GiveUp()), next));
    assert StraightWay(attach, call) == Counted(call == Attach, StraightWay(next, call));
    var detach := Do(Quietly(Detach), Do(AssertGeneration, attach));
    assert StraightWay(detach, call) == StraightWay(attach, call);
    var switch := Do(Branch(SameTab, next), Do(Await(StoreSwitch), detach));
    assert StraightWay(switch, call) == StraightWay(attach, call);
    CheckedWay(true, Do(AssertGeneration, switch), call);
  }

  lemma NewTabWay(next: Code, call: Call)
    requires Effect(call) && StraightWay(next, call) == Some(0)
    ensures StraightWay(Body(NewTab, next), call) == Some(Due(NewTab, call, true))
  {
    hide Checked, SwitchTab;
    SwitchTabWay(next, call);
    var create := Do(AssertGeneration, Do(Await(CreateTab), Do(Await(TabLoaded), SwitchTab(next))));
    CheckedWay(true, create, call);
    assert StraightWay(create.next.next, call) == StraightWay(SwitchTab(next), call);
  }

  lemma PointerWay(selector: bool, next: Code, call: Call)
    requires Effect(call) && StraightWay(next, call) == Some(0)
    ensures StraightWay(Body(Click(selector), next), call) == Some(Due(Click(selector), call, true))
    ensures StraightWay(Body(Type(selector), next), call) == Some(Due(Type(selector), call, true))
  {
    hide Checked, Dispatch, Point;
    DispatchWay(next, call);
    DispatchWay(Dispatch(next), call);
    CheckedWay(true, Dispatch(Dispatch(next)), call);
    PointWay(Checked(true, Dispatch(Dispatch(next))), call);
    CheckedWay(true, Do(Test, Dispatch(next)), call);
    PointWay(Checked(true, Do(Test, Dispatch(next))), call);
  }

  lemma BodyWay(a: Action, next: Code, call: Call)
    requires Effect(call) && StraightWay(next, call) == Some(0)
    ensures StraightWay(Body(a, next), call) == if a == Other then None else Some(Due(a, call, true))
  {
    hide Checked, Dispatch, Evaluate, SwitchTab, Point;
    match a {
      case NewTab => NewTabWay(next, call);
      case SelectTab => SwitchTabWay(next, call);
      case Inspect => EvaluateWay(next, call);
      case Screenshot => DispatchWay(Do(Test, next), call);
      case Navigate => DispatchWay(Do(Test, next), call);
      case Scroll => DispatchWay(next, call);
      case Key =>
        DispatchWay(next, call);
        DispatchWay(Dispatch(next), call);
      case Click(selector) => PointerWay(selector, next, call);
      case Type(selector) => PointerWay(selector, next, call);
      case _ =>
    }
  }

  lemma PointWay(next: Code, call: Call)
    requires Effect(call) && StraightWay(next, call).Some?
    ensures StraightWay(Point(false, next), call) == StraightWay(next, call)
    ensures StraightWay(Point(true, next), call) ==
            Some(StraightWay(next, call).value + if call == SendCommand then 3 else 0)
  {
    hide Evaluate;
    EvaluateWay(Do(Await(Yield), next), call);
  }

  /** Nothing in its way, every supported action comes to its end, with exactly the effects it stands for;
      an unsupported one never does. */
  lemma ExecuteWay(a: Action, call: Call)
    requires call in {SendCommand, CreateTab, Attach}
    ensures StraightWay(Execute(a, JobDone()), call) == if a == Other then None else Some(Due(a, call, true))
  {
    hide Body, Checked, AfterExecute;
    BodyWay(a, JobDone(), call);
    CheckedWay(true, Do(Keep, Body(a, JobDone())), call);
  }

  // ---------------------------------------------------------------- what a run shows

  /** In this step the task begins to execute its job. */
  predicate Begins(w: Worker, l: Label, t: nat) {
    && l.Run? && w.current == Some(t) && t in w.tasks
    && w.tasks[t].code.Do? && w.tasks[t].code.head == BeginExecute && w.tasks[t].job.Some?
  }

  /** The task finds that the tab it is to go to is the one it has. */
  predicate FindsSameTab(w: Worker, l: Label, t: nat) {
    && l.Run? && l.choice && w.current == Some(t) && t in w.tasks && w.tasks[t].code.Do?
    && w.tasks[t].code.head.Branch? && w.tasks[t].code.head.cond == SameTab
  }

  lemma Begun(w: Worker, l: Label, v: Worker, t: nat)
    requires Step(w, l, v) && Begins(w, l, t) && AllFine(w)
    requires w.tasks[t].waiting.None?
    ensures t in v.tasks && v.log == w.log && v.tasks[t].waiting.None? && JobOf(v.tasks[t]) == JobOf(w.tasks[t])
    ensures v.tasks[t].code == Execute(w.tasks[t].job.value.action, JobDone()) && v.tasks[t].handlers == JobHandlers()
  {
    hide Execute, JobDone, JobHandlers;
    assert Fine(w.tasks[t].code, w.tasks[t].handlers);
  }

  lemma IsOwing(w: Worker, t: nat, job: Option<string>, n: nat, g: Goal)
    requires Owing(w, t, job, n, g) && t in w.tasks
    requires w.tasks[t].code == g.target && w.tasks[t].handlers == g.home
    ensures Count(w.log, t, job, g.call) >= n
  {
    var left :| Owes(w.tasks[t].code, w.tasks[t].handlers, left, g)
      && (left.Some? ==> n <= Count(w.log, t, job, g.call) + left.value);
  }

  /** Over any interleaving: a job that was begun, and that comes to its end without an exception, has had
      at least the effects its action stands for; the attach counts unless the tab was found to be the
      same. */
  lemma ExecutionActs(ws: seq<Worker>, labels: seq<Label>, leftover: Option<Stored>, i: nat, j: nat, t: nat, call: Call,
      other: bool)
    requires IsRun(ws, labels, leftover) && i < j < |ws| && Begins(ws[i], labels[i], t)
    requires call in {SendCommand, CreateTab, Attach} && (call == Attach ==> other)
    requires other ==> forall m :: i < m < j ==> !FindsSameTab(ws[m], labels[m], t)
    requires t in ws[j].tasks && ws[j].tasks[t].code == JobDone() && ws[j].tasks[t].handlers == JobHandlers()
    ensures var job := ws[i].tasks[t].job.value;
      Count(ws[j].log, t, Some(job.id), call) >=
      Count(ws[i].log, t, Some(job.id), call) + Due(job.action, call, other)
  {
    hide Execute, JobDone, JobHandlers, Owes, Count, Owing, AllFine, Inv, Step, Boots, Due;
    var job, g := ws[i].tasks[t].job.value, JobGoal(call, other);
    BeginsAt(ws, labels, leftover, i, t);
    JobDoneOwes(call, other);
    JobGoalEnds(call, other);
    ExecuteOwes(job.action, JobDone(), JobHandlers(), 0, g);
    OwedIsIssued(ws, labels, leftover, i + 1, j, t, Due(job.action, call, other), g);
    IsOwing(ws[j], t, Some(job.id), Count(ws[i].log, t, Some(job.id), call) + Due(job.action, call, other), g);
  }

  lemma BeginsAt(ws: seq<Worker>, labels: seq<Label>, leftover: Option<Stored>, i: nat, t: nat)
    requires IsRun(ws, labels, leftover) && i < |labels| && Begins(ws[i], labels[i], t)
    ensures var v := ws[i + 1];
      && t in v.tasks && v.log == ws[i].log && v.tasks[t].waiting.None?
      && JobOf(v.tasks[t]) == Some(ws[i].tasks[t].job.value.id)
      && v.tasks[t].code == Execute(ws[i].tasks[t].job.value.action, JobDone()) && v.tasks[t].handlers == JobHandlers()
  {
    hide Execute, JobDone, JobHandlers, AllFine, Inv, Step, Boots;
    RunFine(ws, labels, leftover, i);
    RunKeeps(ws, labels, leftover, i, i);
    CurrentRuns(ws[i], leftover);
    Begun(ws[i], labels[i], ws[i + 1], t);
  }

  /** And a poll that has executed a job, and comes to its end without another exception, has posted a
      result for that very job, whether the job succeeded or not. */
  lemma ExecutionAnswers(ws: seq<Worker>, labels: seq<Label>, leftover: Option<Stored>, i: nat, j: nat, t: nat)
    requires IsRun(ws, labels, leftover) && i < j < |ws| && Begins(ws[i], labels[i], t)
    requires t in ws[j].tasks && ws[j].tasks[t].code == Finally() && ws[j].tasks[t].handlers == [TickCatch()]
    ensures var job := ws[i].tasks[t].job.value;
      Count(ws[j].log, t, Some(job.id), ResultApi) > Count(ws[i].log, t, Some(job.id), ResultApi)
  {
    hide Execute, JobDone, JobHandlers, Owes, Count, Owing, AllFine, Inv, Step, Boots;
    var job, g := ws[i].tasks[t].job.value, PollGoal();
    BeginsAt(ws, labels, leftover, i, t);
    JobDonePolls();
    ExecuteOwes(job.action, JobDone(), JobHandlers(), 1, g);
    assert Due(job.action, ResultApi, false) == 0;
    OwedIsIssued(ws, labels, leftover, i + 1, j, t, 1, g);
    IsOwing(ws[j], t, Some(job.id), Count(ws[i].log, t, Some(job.id), ResultApi) + 1, g);
  }

  /** A pause that comes to its end without an exception has removed the control record and cleared the
      badge. */
  lemma PauseClears(ws: seq<Worker>, labels: seq<Label>, leftover: Option<Stored>, i: nat, j: nat, t: nat, notify: bool,
      call: Call)
    requires IsRun(ws, labels, leftover) && i < j < |ws| && call in {StoreRemove, Badge}
    requires labels[i] == Spawn(Pause(notify, Done)) && ws[i].nextTask == t
    requires t in ws[j].tasks && ws[j].tasks[t].code == Done && ws[j].tasks[t].handlers == []
    ensures Count(ws[j].log, t, None, call) > Count(ws[i].log, t, None, call)
  {
    hide Owes, Count, Owing, Inv, Boots, Pause;
    var g := Goal(Done, [], call, false, None);
    NothingOwes(g);
    PauseOwes(notify, Done, [], Some(0), g);
    OwedIsIssued(ws, labels, leftover, i + 1, j, t, 1, g);
    IsOwing(ws[j], t, None, Count(ws[i].log, t, None, call) + 1, g);
  }

  lemma NothingOwes(g: Goal)
    ensures Owes(Done, [], Some(0), g)
  {
  }

  /** What start() is for. */
  predicate Grants(c: Call) {
    c == Attach || c == ControlOnApi || c == StoreNew
  }

  function StartGoal(call: Call): Goal {
    Goal(Do(EndTry, Done), [GiveUp()], call, false, None)
  }

  lemma GiveUpOff(call: Call)
    ensures Owes(GiveUp(), [], None, StartGoal(call))
  {
  }

  lemma StartEndOwes(call: Call)
    ensures Owes(Do(EndTry, Done), [GiveUp()], Some(0), StartGoal(call))
    ensures Owes(Do(Throw, Done), [GiveUp()], Some(0), StartGoal(call))
    ensures Owes(Do(Throw, Done), [GiveUp()], Some(1), StartGoal(call))
  {
    hide GiveUp;
    GiveUpOff(call);
    assert Tail([GiveUp()]) == [];
  }

  /** The part of start() inside its try block. */
  lemma AuthoriseOwes(call: Call)
    requires Grants(call)
    ensures Owes(Authorise(), [GiveUp()], Some(if call == Attach then 0 else 1), StartGoal(call))
  {
    hide Owes, GiveUp, Pause;
    var g, hs, end, throw := StartGoal(call), [GiveUp()], Do(EndTry, Done), Do(Throw, Done);
    StartEndOwes(call);
    Past(Await(Badge), end, hs, Some(0), g);
    var badges := Do(Await(Badge), Do(Await(Badge), end));
    Past(Await(Badge), Do(Await(Badge), end), hs, Some(0), g);
    var check := Do(Branch(Paused, Pause(true, throw)), badges);
    RecordOwes(call, badges);
    var one, both := Some(if call == StoreNew then 1 else 0), Some(if call == Attach then 0 else 1);
    Past(Await(ControlOffApi), throw, hs, one, g);
    Fork(Paused, Do(Await(ControlOffApi), throw), Do(Await(StoreNew), check), hs, one, g);
    var ask := Do(Branch(Paused, Do(Await(ControlOffApi), throw)), Do(Await(StoreNew), check));
    Past(Await(ControlOnApi), ask, hs, both, g);
    Past(AssertGeneration, Do(Await(ControlOnApi), ask), hs, both, g);
  }

  lemma RecordOwes(call: Call, badges: Code)
    requires Grants(call) && Owes(badges, [GiveUp()], Some(0), StartGoal(call))
    ensures Owes(Do(Await(StoreNew), Do(Branch(Paused, Pause(true, Do(Throw, Done))), badges)), [GiveUp()],
                 Some(if call == StoreNew then 1 else 0), StartGoal(call))
  {
    hide Owes, GiveUp, Pause;
    var g, hs, throw := StartGoal(call), [GiveUp()], Do(Throw, Done);
    StartEndOwes(call);
    PauseOwes(true, throw, hs, Some(0), g);
    Fork(Paused, Pause(true, throw), badges, hs, Some(0), g);
    var check := Do(Branch(Paused, Pause(true, throw)), badges);
    Past(Await(StoreNew), check, hs, Some(if call == StoreNew then 1 else 0), g);
  }

  lemma TryOwes(handler: Code, next: Code, left: Option<nat>, g: Goal)
    requires Ends(g) && Owes(next, [handler] + [], left, g)
    ensures Owes(Do(Try(handler), next), [], left, g)
  {
  }

  lemma StartOwes(call: Call)
    requires Grants(call)
    ensures Owes(Start(), [], Some(1), StartGoal(call))
  {
    hide Owes, Authorise, Stop, GiveUp;
    var g := StartGoal(call);
    AuthoriseOwes(call);
    assert [GiveUp()] + [] == [GiveUp()];
    var rest := Some(if call == Attach then 0 else 1);
    TryOwes(GiveUp(), Authorise(), rest, g);
    var attached := Do(Try(GiveUp()), Authorise());
    Past(Await(Attach), attached, [], Some(1), g);
    var attach := Do(AssertGeneration, Do(Await(Attach), attached));
    Past(AssertGeneration, attach.next, [], Some(1), g);
    AfterStopOwes(attach, g);
    var after := Do(Await(Yield), Do(AssertGeneration, Do(Await(TabGet), Do(Test, attach))));
    StopOwes(true, after, [], Some(1), g);
    BeforeStopOwes(Stop(true, after), g);
  }

  lemma AfterStopOwes(attach: Code, g: Goal)
    requires Ends(g) && Owes(attach, [], Some(1), g)
    ensures Owes(Do(Await(Yield), Do(AssertGeneration, Do(Await(TabGet), Do(Test, attach)))), [], Some(1), g)
  {
    hide Owes;
    Past(Test, attach, [], Some(1), g);
    Past(Await(TabGet), Do(Test, attach), [], Some(1), g);
    Past(AssertGeneration, Do(Await(TabGet), Do(Test, attach)), [], Some(1), g);
    Past(Await(Yield), Do(AssertGeneration, Do(Await(TabGet), Do(Test, attach))), [], Some(1), g);
  }

  lemma BeforeStopOwes(stop: Code, g: Goal)
    requires Ends(g) && Owes(stop, [], Some(1), g) && g.call != SavedPair && g.call != Recovery
    ensures Owes(Do(NewGeneration(true), Do(Await(Recovery), Do(AssertGeneration, Do(Await(SavedPair),
                 Do(AssertGeneration, Do(Test, stop)))))), [], Some(1), g)
  {
    hide Owes;
    Past(Test, stop, [], Some(1), g);
    Past(AssertGeneration, Do(Test, stop), [], Some(1), g);
    var pair := Do(Await(SavedPair), Do(AssertGeneration, Do(Test, stop)));
    Past(Await(SavedPair), pair.next, [], Some(1), g);
    Past(AssertGeneration, pair, [], Some(1), g);
    Past(Await(Recovery), Do(AssertGeneration, pair), [], Some(1), g);
    Past(NewGeneration(true), Do(Await(Recovery), Do(AssertGeneration, pair)), [], Some(1), g);
  }

  /** A start that comes to its end without an exception has attached to the tab, had the server make a
      control, and stored the record of it. */
  lemma StartGrants(ws: seq<Worker>, labels: seq<Label>, leftover: Option<Stored>, i: nat, j: nat, t: nat, call: Call)
    requires IsRun(ws, labels, leftover) && i < j < |ws| && call in {Attach, ControlOnApi, StoreNew}
    requires labels[i] == Spawn(Start()) && ws[i].nextTask == t
    requires t in ws[j].tasks && ws[j].tasks[t].code == Do(EndTry, Done) && ws[j].tasks[t].handlers == [GiveUp()]
    ensures Count(ws[j].log, t, None, call) > Count(ws[i].log, t, None, call)
  {
    hide Owes, Count, Owing, Inv, Boots, Start;
    StartOwes(call);
    OwedIsIssued(ws, labels, leftover, i + 1, j, t, 1, StartGoal(call));
    IsOwing(ws[j], t, None, Count(ws[i].log, t, None, call) + 1, StartGoal(call));
  }

  // ---------------------------------------------------------------- when a poll has to stop

  function CatchGoal(call: Call): Goal {
    Goal(Do(EndTry, Finally()), [Finally()], call, false, None)
  }

  lemma CatchOwes(call: Call)
    requires Clears(call)
    ensures Owes(TickCatch(), [], Some(1), CatchGoal(call))
  {
    hide Pause, Owes;
    var g, over := CatchGoal(call), Do(EndTry, Finally());
    assert [Finally()] + [] == [Finally()];
    FinallyEnds(None, g);
    FinallyEnds(Some(0), g);
    TryEnds(Finally(), Finally(), [], Some(0), g);
    PauseOwes(true, over, [Finally()], Some(0), g);
    TryOwes(Finally(), Pause(true, over), Some(1), g);
  }

  lemma FinallyEnds(left: Option<nat>, g: Goal)
    requires g.home != []
    ensures Owes(Finally(), [], left, g)
  {
    assert Owes(Done, [], left, g);
  }

  /** A poll that was thrown out, and gets through its catch block, has paused. */
  lemma CatchPauses(ws: seq<Worker>, labels: seq<Label>, leftover: Option<Stored>, i: nat, j: nat, t: nat, call: Call)
    requires IsRun(ws, labels, leftover) && i < j < |ws| && call in {StoreRemove, Badge}
    requires t in ws[i].tasks && ws[i].tasks[t].waiting.None?
    requires ws[i].tasks[t].code == TickCatch() && ws[i].tasks[t].handlers == []
    requires t in ws[j].tasks && ws[j].tasks[t].code == Do(EndTry, Finally()) && ws[j].tasks[t].handlers == [Finally()]
    ensures var job := JobOf(ws[i].tasks[t]); Count(ws[j].log, t, job, call) > Count(ws[i].log, t, job, call)
  {
    hide Owes, Count, Owing, Inv, Boots, Step, TickCatch;
    var job := JobOf(ws[i].tasks[t]);
    CatchOwes(call);
    OwedIsIssued(ws, labels, leftover, i, j, t, 1, CatchGoal(call));
    IsOwing(ws[j], t, job, Count(ws[i].log, t, job, call) + 1, CatchGoal(call));
  }

  /** In this step a poll finds that it has lost its control. */
  predicate FindsLost(w: Worker, l: Label, t: nat) {
    && l.Run? && w.current == Some(t) && t in w.tasks && w.tasks[t].code.Do? && w.tasks[t].code.head.Branch?
    && Loses(w.tasks[t].code.head.cond) && Holds(w.tasks[t].code.head.cond, w, w.tasks[t], l.choice)
  }

  function LostGoal(call: Call): Goal {
    Goal(Finally(), [TickCatch()], call, false, None)
  }

  lemma LostOwes(call: Call)
    requires Clears(call)
    ensures Owes(Pause(false, Finally()), [TickCatch()], Some(1), LostGoal(call))
  {
    hide Pause, TickCatch, Owes;
    var g := LostGoal(call);
    TickCatchOff(g);
    FinallyWithin(g);
    PauseOwes(false, Finally(), [TickCatch()], Some(0), g);
  }

  lemma FinallyWithin(g: Goal)
    requires Owes(TickCatch(), [], None, g)
    ensures Owes(Finally(), [TickCatch()], Some(0), g)
  {
    hide TickCatch;
    assert Owes(Done, [TickCatch()], Some(0), g);
  }

  lemma LostAt(w: Worker, l: Label, v: Worker, t: nat)
    requires Step(w, l, v) && FindsLost(w, l, t) && AllFine(w) && w.tasks[t].waiting.None?
    ensures t in v.tasks && v.log == w.log && v.tasks[t].waiting.None? && JobOf(v.tasks[t]) == JobOf(w.tasks[t])
    ensures v.tasks[t].code == Pause(false, Finally()) && v.tasks[t].handlers == [TickCatch()]
  {
    hide Pause, TickCatch, Execute;
    assert Fine(w.tasks[t].code, w.tasks[t].handlers);
  }

  /** A poll that finds that it has lost its control, and comes to its end, has paused. */
  lemma LostControlPauses(ws: seq<Worker>, labels: seq<Label>, leftover: Option<Stored>, i: nat, j: nat, t: nat,
      call: Call)
    requires IsRun(ws, labels, leftover) && i < j < |ws| && call in {StoreRemove, Badge}
    requires FindsLost(ws[i], labels[i], t)
    requires t in ws[j].tasks && ws[j].tasks[t].code == Finally() && ws[j].tasks[t].handlers == [TickCatch()]
    ensures var job := JobOf(ws[i].tasks[t]); Count(ws[j].log, t, job, call) > Count(ws[i].log, t, job, call)
  {
    hide Owes, Count, Owing, Inv, Boots, Step, TickCatch, AllFine, Pause, Finally;
    RunFine(ws, labels, leftover, i);
    RunKeeps(ws, labels, leftover, i, i);
    CurrentRuns(ws[i], leftover);
    LostAt(ws[i], labels[i], ws[i + 1], t);
    var job := JobOf(ws[i].tasks[t]);
    LostOwes(call);
    OwedIsIssued(ws, labels, leftover, i + 1, j, t, 1, LostGoal(call));
    IsOwing(ws[j], t, job, Count(ws[i].log, t, job, call) + 1, LostGoal(call));
  }

  /** And a pause silences the worker from its first instruction on, until a start: the generation is new,
      and no start made it. */
  lemma PauseSilences(ws: seq<Worker>, labels: seq<Label>, leftover: Option<Stored>, i: nat, n: nat, k: nat,
      notify: bool)
    requires IsRun(ws, labels, leftover) && i + 2 <= n < |ws| && |ws[i].log| <= k < |ws[n].log|
    requires labels[i] == Spawn(Pause(notify, Done)) && labels[i + 1].Run?
    requires ws[n].minted == ws[i].minted && (leftover.Some? ==> leftover.value.generation <= ws[i].generation)
    ensures ws[n].log[k].call !in {SendCommand, Attach, CreateTab}
  {
    hide Boots, Inv, Stop;
    RunKeeps(ws, labels, leftover, i, i);
    NewIsUnminted(ws[i], leftover);
    var v, u := ws[i + 1], ws[i + 2];
    assert Step(ws[i], labels[i], v) && Step(v, labels[i + 1], u);
    assert u.generation == ws[i].generation + 1 && u.minted == ws[i].minted && u.log == ws[i].log;
    NothingAfterPause(ws, labels, leftover, i + 2, n, k);
  }

  lemma NewIsUnminted(w: Worker, leftover: Option<Stored>)
    requires Inv(w, leftover)
    ensures w.generation + 1 !in w.minted
  {
  }
}
