/** Under which control record the worker acts: what a job does to the browser is done under the record of
    the control the job was asked for, and what is written to session storage is that record again, for
    another tab, or the record of a control the server has just made. */
module AutomationControl {
  import opened Prelude
  import opened Automation
  import opened AutomationRuns

  /** What a task knows of records at a point of its program: the one it last read, and the one it keeps,
      are of its job's control; and the id it has is one the server has given out. */
  datatype Known = Known(read: bool, kept: bool, given: bool)

  const UNKNOWN := Known(false, false, false)

  function Learns(i: Instr, f: Known): Known {
    match i
    case TestControl(same) => f.(read := f.read || same)
    case Keep => f.(kept := f.read)
    case Await(StoreGet) => f.(read := false)
    case Quietly(StoreGet) => f.(read := false)
    case AwaitIf(_, StoreGet) => f.(read := false)
    case Await(PollApi) => f.(read := false, kept := false)
    case Quietly(PollApi) => f.(read := false, kept := false)
    case AwaitIf(_, PollApi) => f.(read := false, kept := false)
    case Await(ControlOnApi) => f.(given := true)
    case _ => f
  }

  /** What an operation needs to be known. */
  predicate Knows(c: Call, f: Known) {
    && (c == SendCommand || c == CreateTab ==> f.read)
    && (c == StoreSwitch ==> f.kept)
    && (c == StoreNew ==> f.given)
  }

  predicate Proper(c: Code, f: Known)
    decreases c
  {
    match c
    case Done => true
    case Do(i, next) =>
      match i
      case BeginExecute => Proper(next, UNKNOWN)
      case Try(handler) => Proper(handler, UNKNOWN) && Proper(next, f)
      case Branch(_, instead) => Proper(instead, UNKNOWN) && Proper(next, f)
      case Await(call) => Knows(call, f) && Proper(next, Learns(i, f))
      case Quietly(call) => Knows(call, f) && Proper(next, Learns(i, f))
      case AwaitIf(_, call) => Knows(call, f) && Proper(next, Learns(i, f))
      case _ => Proper(next, Learns(i, f))
  }

  predicate Less(f: Known, g: Known) {
    (f.read ==> g.read) && (f.kept ==> g.kept) && (f.given ==> g.given)
  }

  lemma {:induction false} ProperLess(c: Code, f: Known, g: Known)
    requires Proper(c, f) && Less(f, g)
    ensures Proper(c, g)
    decreases c
  {
    if c.Do? {
      LearnsLess(c.head, f, g);
      hide Learns;
      match c.head {
        case BeginExecute =>
        case Try(_) => ProperLess(c.next, f, g);
        case Branch(_, _) => ProperLess(c.next, f, g);
        case _ => ProperLess(c.next, Learns(c.head, f), Learns(c.head, g));
      }
    }
  }

  lemma LearnsLess(i: Instr, f: Known, g: Known)
    requires Less(f, g)
    ensures Less(Learns(i, f), Learns(i, g))
  {
  }

  // ---------------------------------------------------------------- the programs

  predicate Straight(i: Instr) {
    !i.BeginExecute? && !i.Try? && !i.Branch?
  }

  lemma Past(i: Instr, next: Code, f: Known)
    requires Straight(i) && Proper(next, Learns(i, f))
    requires i.Await? || i.Quietly? || i.AwaitIf? ==> Knows(i.call, f)
    ensures Proper(Do(i, next), f)
  {
  }

  lemma Fork(cond: Cond, instead: Code, next: Code, f: Known)
    requires Proper(next, f) && Proper(instead, UNKNOWN)
    ensures Proper(Do(Branch(cond, instead), next), f)
  {
  }

  /** After a check for the job's control its record is known; any other check knows nothing of it. */
  lemma CheckedProper(same: bool, next: Code, f: Known)
    requires Proper(next, f.(read := same))
    ensures Proper(Checked(same, next), f)
  {
    hide Proper;
    var known := f.(read := same);
    var none := f.(read := false);
    Past(Await(Yield), next, known);
    Past(Test, Do(Await(Yield), next), known);
    var c6 := Do(AssertGeneration, Do(Test, Do(Await(Yield), next)));
    Past(AssertGeneration, c6.next, known);
    Past(Await(TabGet), c6, known);
    Past(TestControl(same), Do(Await(TabGet), c6), none);
    ReadProper(Do(TestControl(same), Do(Await(TabGet), c6)), f);
  }

  /** The read of the record: what was known of the one before is gone. */
  lemma ReadProper(next: Code, f: Known)
    requires Proper(next, f.(read := false))
    ensures Proper(Do(AssertGeneration, Do(Await(StoreGet), Do(AssertGeneration, next))), f)
  {
    hide Proper;
    Past(AssertGeneration, next, f.(read := false));
    Past(Await(StoreGet), Do(AssertGeneration, next), f);
    Past(AssertGeneration, Do(Await(StoreGet), Do(AssertGeneration, next)), f);
  }

  lemma DispatchProper(next: Code, f: Known)
    requires Proper(next, f.(read := true))
    ensures Proper(Dispatch(next), f)
  {
    hide Proper, Checked;
    var known := f.(read := true);
    Past(Await(SendCommand), next, known);
    Past(AssertGeneration, Do(Await(SendCommand), next), known);
    Past(Test, Do(AssertGeneration, Do(Await(SendCommand), next)), known);
    CheckedProper(true, Do(Test, Do(AssertGeneration, Do(Await(SendCommand), next))), f);
  }

  lemma EvaluateProper(next: Code, f: Known)
    requires Proper(next, f.(read := true))
    ensures Proper(Evaluate(next), f)
  {
    hide Proper, Checked, Dispatch;
    var known := f.(read := true);
    Past(Test, next, known);
    var d := Do(Test, next);
    DispatchProper(d, known);
    DispatchProper(Dispatch(d), known);
    DispatchProper(Dispatch(Dispatch(d)), known);
    CheckedProper(true, Dispatch(Dispatch(Dispatch(d))), f);
  }

  lemma PointProper(selector: bool, next: Code, f: Known)
    requires Proper(next, f)
    ensures Proper(Point(selector, next), f)
  {
    hide Proper, Evaluate;
    Past(Await(Yield), next, f);
    if selector {
      ProperLess(Do(Await(Yield), next), f, f.(read := true));
      EvaluateProper(Do(Await(Yield), next), f);
    }
  }

  lemma GiveUpProper()
    ensures Proper(GiveUp(), UNKNOWN)
  {
  }

  lemma SwitchTabProper(next: Code, f: Known)
    requires Proper(next, UNKNOWN) && f.kept
    ensures Proper(SwitchTab(next), f)
  {
    hide Proper, Checked, GiveUp;
    GiveUpProper();
    var known := f.(read := true);
    ProperLess(next, UNKNOWN, known);
    Fork(Paused, GiveUp(), next, known);
    var attach := Do(Await(Attach), Do(Branch(Paused, GiveUp()), next));
    Past(Await(Attach), attach.next, known);
    Past(AssertGeneration, attach, known);
    var detach := Do(Quietly(Detach), Do(AssertGeneration, attach));
    Past(Quietly(Detach), detach.next, known);
    Past(Await(StoreSwitch), detach, known);
    var switch := Do(Branch(SameTab, next), Do(Await(StoreSwitch), detach));
    Fork(SameTab, next, switch.next, known);
    Past(AssertGeneration, switch, known);
    CheckedProper(true, Do(AssertGeneration, switch), f);
    Past(Test, Checked(true, Do(AssertGeneration, switch)), f);
  }

  lemma NewTabProper(next: Code, f: Known)
    requires Proper(next, UNKNOWN) && f.kept
    ensures Proper(Body(NewTab, next), f)
  {
    hide Proper, Checked, SwitchTab;
    var known := f.(read := true);
    SwitchTabProper(next, known);
    Past(Await(TabLoaded), SwitchTab(next), known);
    var create := Do(AssertGeneration, Do(Await(CreateTab), Do(Await(TabLoaded), SwitchTab(next))));
    Past(Await(CreateTab), Do(Await(TabLoaded), SwitchTab(next)), known);
    Past(AssertGeneration, create.next, known);
    CheckedProper(true, create, f);
    Past(Test, Checked(true, create), f);
    Past(Test, Do(Test, Checked(true, create)), f);
  }

  lemma PointerProper(selector: bool, next: Code, f: Known)
    requires Proper(next, UNKNOWN)
    ensures Proper(Body(Click(selector), next), f) && Proper(Body(Type(selector), next), f)
  {
    hide Proper, Checked, Dispatch, Point;
    var known := f.(read := true);
    ProperLess(next, UNKNOWN, known);
    DispatchProper(next, known);
    DispatchProper(Dispatch(next), known);
    CheckedProper(true, Dispatch(Dispatch(next)), f);
    PointProper(selector, Checked(true, Dispatch(Dispatch(next))), f);
    Past(Test, Dispatch(next), known);
    CheckedProper(true, Do(Test, Dispatch(next)), f);
    PointProper(true, Checked(true, Do(Test, Dispatch(next))), f);
  }

  lemma ShortProper(a: Action, next: Code, f: Known)
    requires Proper(next, UNKNOWN) && a in {Key, Screenshot, Navigate, Scroll, Inspect}
    ensures Proper(Body(a, next), f)
  {
    hide Proper, Dispatch, Evaluate;
    var known := f.(read := true);
    ProperLess(next, UNKNOWN, known);
    Past(Test, next, known);
    EvaluateProper(next, f);
    DispatchProper(next, known);
    DispatchProper(next, f);
    DispatchProper(Do(Test, next), f);
    Past(Test, Dispatch(Do(Test, next)), f);
    DispatchProper(Dispatch(next), f);
    Past(Test, Dispatch(Dispatch(next)), f);
  }

  lemma QuietProper(next: Code, f: Known)
    requires Proper(next, UNKNOWN)
    ensures Proper(Body(Tabs, next), f) && Proper(Body(Other, next), f)
  {
    hide Proper;
    ProperLess(next, UNKNOWN, f);
    Past(AwaitIf(Unmanaged, TabGet), next, f);
    Past(AwaitIf(Managed, TabQuery), Do(AwaitIf(Unmanaged, TabGet), next), f);
    Past(Throw, next, f);
  }

  lemma BodyProper(a: Action, next: Code, f: Known)
    requires Proper(next, UNKNOWN) && f.kept
    ensures Proper(Body(a, next), f)
  {
    hide Proper, Body, SwitchTab;
    match a {
      case NewTab => NewTabProper(next, f);
      case SelectTab => SelectTabProper(next, f);
      case Click(selector) => PointerProper(selector, next, f);
      case Type(selector) => PointerProper(selector, next, f);
      case Tabs => QuietProper(next, f);
      case Other => QuietProper(next, f);
      case _ => ShortProper(a, next, f);
    }
  }

  lemma SelectTabProper(next: Code, f: Known)
    requires Proper(next, UNKNOWN) && f.kept
    ensures Proper(Body(SelectTab, next), f)
  {
    hide Proper, SwitchTab;
    SwitchTabProper(next, f);
    Past(Await(TabGet), SwitchTab(next), f);
  }

  lemma ExecuteProper(a: Action, next: Code)
    requires Proper(next, UNKNOWN)
    ensures Proper(Execute(a, next), UNKNOWN)
  {
    hide Proper, Body, Checked;
    var known := UNKNOWN.(read := true, kept := true);
    BodyProper(a, next, known);
    Past(Keep, Body(a, next), UNKNOWN.(read := true));
    CheckedProper(true, Do(Keep, Body(a, next)), UNKNOWN);
    Past(Capture, Checked(true, Do(Keep, Body(a, next))), UNKNOWN);
  }

  lemma StopProper(notify: bool, next: Code)
    requires Proper(next, UNKNOWN)
    ensures Proper(Stop(notify, next), UNKNOWN) && Proper(Pause(notify, next), UNKNOWN)
  {
    hide Proper;
    TellProper(next);
    RemoveProper(if notify then Do(Await(SavedPair), Do(AwaitIf(Paired, ControlOffApi), next)) else next);
    Past(NewGeneration(false), Stop(notify, next), UNKNOWN);
  }

  lemma TellProper(next: Code)
    requires Proper(next, UNKNOWN)
    ensures Proper(Do(Await(SavedPair), Do(AwaitIf(Paired, ControlOffApi), next)), UNKNOWN)
  {
    hide Proper;
    Past(AwaitIf(Paired, ControlOffApi), next, UNKNOWN);
    Past(Await(SavedPair), Do(AwaitIf(Paired, ControlOffApi), next), UNKNOWN);
  }

  lemma RemoveProper(tell: Code)
    requires Proper(tell, UNKNOWN)
    ensures Proper(Do(Await(StoreGet), Do(Await(StoreRemove), Do(AwaitIf(HasStored, Detach), Do(Await(Badge), tell)))),
                   UNKNOWN)
  {
    hide Proper;
    var f := UNKNOWN;
    Past(Await(Badge), tell, f);
    var rest := Do(AwaitIf(HasStored, Detach), Do(Await(Badge), tell));
    Past(AwaitIf(HasStored, Detach), rest.next, f);
    Past(Await(StoreRemove), rest, f);
    Past(Await(StoreGet), Do(Await(StoreRemove), rest), f);
  }

  lemma AuthoriseProper()
    ensures Proper(Authorise(), UNKNOWN)
  {
    hide Proper, Pause;
    var throw, off, given := Do(Throw, Done), Do(Await(ControlOffApi), Do(Throw, Done)), UNKNOWN.(given := true);
    Ends();
    StopProper(true, throw);
    ProperLess(Do(EndTry, Done), UNKNOWN, given);
    Past(Await(Badge), Do(EndTry, Done), given);
    var badges := Do(Await(Badge), Do(Await(Badge), Do(EndTry, Done)));
    Past(Await(Badge), badges.next, given);
    Fork(Paused, Pause(true, throw), badges, given);
    var check := Do(Await(StoreNew), Do(Branch(Paused, Pause(true, throw)), badges));
    Past(Await(StoreNew), check.next, given);
    Fork(Paused, off, check, given);
    Past(Await(ControlOnApi), Do(Branch(Paused, off), check), UNKNOWN);
    Past(AssertGeneration, Do(Await(ControlOnApi), Do(Branch(Paused, off), check)), UNKNOWN);
  }

  lemma Ends()
    ensures Proper(Do(Throw, Done), UNKNOWN) && Proper(Do(EndTry, Done), UNKNOWN) && Proper(Done, UNKNOWN)
    ensures Proper(Do(Await(ControlOffApi), Do(Throw, Done)), UNKNOWN)
    ensures Proper(Finally(), UNKNOWN) && Proper(Do(EndTry, Finally()), UNKNOWN)
  {
  }

  lemma TryProper(handler: Code, next: Code, f: Known)
    requires Proper(handler, UNKNOWN) && Proper(next, f)
    ensures Proper(Do(Try(handler), next), f)
  {
  }

  lemma StartProper()
    ensures Proper(Start(), UNKNOWN)
  {
    hide Proper, Authorise, Stop, GiveUp;
    var f := UNKNOWN;
    AuthoriseProper();
    GiveUpProper();
    TryProper(GiveUp(), Authorise(), f);
    var attach := Do(AssertGeneration, Do(Await(Attach), Do(Try(GiveUp()), Authorise())));
    Past(Await(Attach), attach.next.next, f);
    Past(AssertGeneration, attach.next, f);
    var after := Do(Await(Yield), Do(AssertGeneration, Do(Await(TabGet), Do(Test, attach))));
    Past(Test, attach, f);
    Past(Await(TabGet), Do(Test, attach), f);
    Past(AssertGeneration, Do(Await(TabGet), Do(Test, attach)), f);
    Past(Await(Yield), after.next, f);
    StopProper(true, after);
    BeforeStopProper(Stop(true, after));
  }

  lemma BeforeStopProper(stop: Code)
    requires Proper(stop, UNKNOWN)
    ensures Proper(Do(NewGeneration(true), Do(Await(Recovery), Do(AssertGeneration, Do(Await(SavedPair),
                   Do(AssertGeneration, Do(Test, stop)))))), UNKNOWN)
  {
    hide Proper;
    var f := UNKNOWN;
    Past(Test, stop, f);
    Past(AssertGeneration, Do(Test, stop), f);
    var pair := Do(Await(SavedPair), Do(AssertGeneration, Do(Test, stop)));
    Past(Await(SavedPair), pair.next, f);
    Past(AssertGeneration, pair, f);
    Past(Await(Recovery), Do(AssertGeneration, pair), f);
    Past(NewGeneration(true), Do(Await(Recovery), Do(AssertGeneration, pair)), f);
  }

  lemma AfterExecuteProper()
    ensures Proper(AfterExecute(), UNKNOWN) && Proper(Do(EndTry, AfterExecute()), UNKNOWN)
  {
    hide Proper, Checked;
    Ends();
    ProperLess(Finally(), UNKNOWN, UNKNOWN.(read := true));
    Past(Await(ResultApi), Finally(), UNKNOWN.(read := true));
    CheckedProper(true, Do(Await(ResultApi), Finally()), UNKNOWN);
    Past(Capture, Checked(true, Do(Await(ResultApi), Finally())), UNKNOWN);
    Past(EndTry, AfterExecute(), UNKNOWN);
  }

  lemma TakeJobProper()
    ensures Proper(TakeJob(), UNKNOWN)
  {
    hide Proper, Pause, Finally, AfterExecute;
    var f := UNKNOWN;
    Ends();
    AfterExecuteProper();
    StopProper(false, Finally());
    ExecutionProper();
    TryProper(AfterExecute(), Do(BeginExecute, Do(EndTry, AfterExecute())), f);
    var run := Do(Try(AfterExecute()), Do(BeginExecute, Do(EndTry, AfterExecute())));
    Past(Await(StartApi), run, f);
    var pick := Do(Branch(NoJob, Finally()), Do(Await(StartApi), run));
    Fork(NoJob, Finally(), pick.next, f);
    Fork(OtherControl, Pause(false, Finally()), pick, f);
    Past(Await(PollApi), Do(Branch(OtherControl, Pause(false, Finally())), pick), f);
  }

  lemma ExecutionProper()
    ensures Proper(Do(BeginExecute, Do(EndTry, AfterExecute())), UNKNOWN)
  {
    hide AfterExecute;
    AfterExecuteProper();
  }

  lemma TickProper()
    ensures Proper(Tick(), UNKNOWN)
  {
    hide Proper, Pause, Finally, TakeJob, Checked, TickCatch;
    var f := UNKNOWN;
    Ends();
    TakeJobProper();
    StopProper(false, Finally());
    var look := Do(Branch(Unpaired, Pause(false, Finally())), TakeJob());
    Fork(Unpaired, Pause(false, Finally()), TakeJob(), f);
    Past(Await(SavedPair), look, f);
    Past(Keep, Do(Await(SavedPair), look), f);
    var keep := Do(Keep, Do(Await(SavedPair), look));
    CheckedProper(false, keep, f);
    Past(Capture, Checked(false, keep), f);
    Fork(NoControl, Finally(), Do(Capture, Checked(false, keep)), f);
    Past(Await(StoreGet), LookForJob(), f);
    TickCatchProper();
    TryProper(TickCatch(), Do(Await(StoreGet), LookForJob()), f);
    Past(SetRunning(true), Do(Try(TickCatch()), Do(Await(StoreGet), LookForJob())), f);
    Fork(Busy, Done, Do(SetRunning(true), Do(Try(TickCatch()), Do(Await(StoreGet), LookForJob()))), f);
  }

  lemma TickCatchProper()
    ensures Proper(TickCatch(), UNKNOWN)
  {
    hide Proper, Pause, Finally;
    Ends();
    StopProper(true, Do(EndTry, Finally()));
    TryProper(Finally(), Pause(true, Do(EndTry, Finally())), UNKNOWN);
  }

  lemma EntryProper(c: Code)
    requires Entry(c)
    ensures Proper(c, UNKNOWN)
  {
    hide Proper, Start, Tick, Pause;
    StartProper();
    TickProper();
    Ends();
    StopProper(true, Done);
    StopProper(false, Done);
  }

  // ---------------------------------------------------------------- runs

  /** What being known comes to; `ids` are those the server has given out. A task that waits for a read or a
      poll knows nothing that the answer could change. */
  predicate Means(k: Task, f: Known, ids: set<string>) {
    && (k.waiting.Some? && k.waiting.value.call == StoreGet ==> !f.read)
    && (k.waiting.Some? && k.waiting.value.call == PollApi ==> !f.read && !f.kept)
    && (f.read ==> k.job.Some? && k.stored.Some? && k.stored.value.id == k.job.value.controlId)
    && (f.kept ==> k.job.Some? && k.control.Some? && k.control.value.id == k.job.value.controlId)
    && (f.given ==>
          k.newId in ids || (k.waiting.Some? && k.waiting.value.call == ControlOnApi && !k.waiting.value.quiet))
  }

  /** The record a pending write is about to leave. */
  predicate Writes(k: Task, ids: set<string>) {
    k.waiting.Some? ==>
      var wait := k.waiting.value;
      && (wait.call == StoreSwitch ==> k.job.Some? && wait.value.Some? && wait.value.value.id == k.job.value.controlId)
      && (wait.call == StoreNew ==>
            wait.value.Some? && wait.value.value.id in ids && wait.value.value.generation == k.captured)
  }

  ghost predicate Informed(k: Task, ids: set<string>) {
    && (forall h :: h in k.handlers ==> Proper(h, UNKNOWN))
    && Writes(k, ids)
    && exists f :: Proper(k.code, f) && Means(k, f, ids)
  }

  ghost predicate AllInformed(w: Worker, ids: set<string>) {
    forall t :: t in w.tasks ==> Informed(w.tasks[t], ids)
  }

  lemma FreshInformed(k: Task, ids: set<string>)
    requires Proper(k.code, UNKNOWN) && k.waiting.None? && forall h :: h in k.handlers ==> Proper(h, UNKNOWN)
    ensures Informed(k, ids)
  {
    assert Means(k, UNKNOWN, ids);
  }

  lemma ThrownInformed(k: Task, ids: set<string>)
    requires Informed(k, ids) && k.handlers != []
    ensures Informed(k.(code := k.handlers[0], handlers := k.handlers[1..], flags := NOTHING, waiting := None), ids)
  {
    hide Proper;
    var m := k.(code := k.handlers[0], handlers := k.handlers[1..], flags := NOTHING, waiting := None);
    assert forall h :: h in k.handlers[1..] ==> h in k.handlers;
    FreshInformed(m, ids);
  }

  lemma LocalInformed(w: Worker, k: Task, choice: bool, ids: set<string>)
    requires Informed(k, ids) && k.waiting.None? && k.code.Do? && !IsCall(k.code.head)
    requires LocalTask(w, k, choice).Some?
    ensures Informed(LocalTask(w, k, choice).value, ids)
  {
    hide Execute;
    var m := LocalTask(w, k, choice).value;
    var f :| Proper(k.code, f) && Means(k, f, ids);
    if k.code.head.BeginExecute? {
      ExecuteProper(k.job.value.action, k.code.next);
      FreshInformed(m, ids);
    } else if k.code.head.Branch? && m.code == k.code.head.instead {
      FreshInformed(m, ids);
    } else {
      assert Proper(m.code, Learns(k.code.head, f)) && Means(m, Learns(k.code.head, f), ids);
      HandlersStay(k, m);
    }
  }

  lemma HandlersStay(k: Task, m: Task)
    requires k.code.Do? && forall h :: h in k.handlers ==> Proper(h, UNKNOWN)
    requires
      || m.handlers == k.handlers
      || (k.code.head.Try? && Proper(k.code.head.handler, UNKNOWN) && m.handlers == [k.code.head.handler] + k.handlers)
      || m.handlers == if k.handlers == [] then [] else k.handlers[1..]
    ensures forall h :: h in m.handlers ==> Proper(h, UNKNOWN)
  {
    hide Proper;
    assert k.handlers != [] ==> forall h :: h in k.handlers[1..] ==> h in k.handlers;
  }

  /** Issuing a call, or passing one that is not due. */
  lemma CallInformed(k: Task, m: Task, tab: int, ids: set<string>)
    requires Informed(k, ids) && k.waiting.None? && k.code.Do? && IsCall(k.code.head)
    requires m == k.(code := k.code.next, flags := m.flags, waiting := m.waiting)
    requires m.waiting.None? ==> k.code.head.AwaitIf?
    requires m.waiting.Some? ==>
      && m.waiting.value.call == k.code.head.call && m.waiting.value.value == Written(k, k.code.head.call, tab)
      && m.waiting.value.quiet == (k.code.head.Quietly? || (k.code.head.AwaitIf? && k.code.head.call == Detach))
    ensures Informed(m, ids)
  {
    var f :| Proper(k.code, f) && Means(k, f, ids);
    assert Proper(m.code, Learns(k.code.head, f)) && Means(m, Learns(k.code.head, f), ids);
  }

  lemma CallNeeds(k: Task, ids: set<string>)
    requires Informed(k, ids) && k.waiting.None? && k.code.Do? && IsCall(k.code.head)
    ensures k.code.head.call in {SendCommand, CreateTab} ==>
      k.job.Some? && k.stored.Some? && k.stored.value.id == k.job.value.controlId
    ensures k.code.head.call == StoreSwitch ==>
      k.job.Some? && k.control.Some? && k.control.value.id == k.job.value.controlId
  {
    var f :| Proper(k.code, f) && Means(k, f, ids);
    assert Knows(k.code.head.call, f);
  }

  /** A call that settles. */
  lemma SettledInformed(k: Task, m: Task, outcome: Outcome, ids: set<string>)
    requires Informed(k, ids) && k.waiting.Some? && m.waiting.None?
    requires m.code == k.code && m.handlers == k.handlers && m.control == k.control
    requires m.job != k.job ==> k.waiting.value.call == PollApi
    requires m.stored != k.stored ==> k.waiting.value.call == StoreGet
    requires if k.waiting.value.call == ControlOnApi && !k.waiting.value.quiet then m.newId in ids
             else m.newId == k.newId || m.newId in ids
    ensures Informed(m, ids)
  {
    var f :| Proper(k.code, f) && Means(k, f, ids);
    assert Means(m, f, ids);
  }

  lemma MoreIds(k: Task, ids: set<string>, more: set<string>)
    requires Informed(k, ids) && ids <= more
    ensures Informed(k, more)
  {
    var f :| Proper(k.code, f) && Means(k, f, ids);
    assert Means(k, f, more);
  }

  lemma UnwindInformed(w: Worker, t: nat, ids: set<string>)
    requires AllInformed(w, ids) && t in w.tasks
    ensures AllInformed(Unwind(w, t, w.tasks[t]), ids)
  {
    hide Informed;
    if w.tasks[t].handlers != [] { ThrownInformed(w.tasks[t], ids); }
  }

  lemma CallKeepsAll(w: Worker, t: nat, choice: bool, tab: int, ids: set<string>)
    requires AllInformed(w, ids) && w.current == Some(t) && t in w.tasks && w.tasks[t].waiting.None?
    requires w.tasks[t].code.Do? && IsCall(w.tasks[t].code.head)
    ensures AllInformed(ExecCall(w, t, w.tasks[t], w.tasks[t].code.head, choice, tab), ids)
  {
    hide Informed, Unwind;
    var v := ExecCall(w, t, w.tasks[t], w.tasks[t].code.head, choice, tab);
    UnwindInformed(w, t, ids);
    if v != Unwind(w, t, w.tasks[t]) { CallInformed(w.tasks[t], v.tasks[t], tab, ids); }
  }

  lemma LocalKeepsAll(w: Worker, t: nat, choice: bool, ids: set<string>)
    requires AllInformed(w, ids) && w.current == Some(t) && t in w.tasks && w.tasks[t].waiting.None?
    requires w.tasks[t].code.Do? && !IsCall(w.tasks[t].code.head)
    ensures AllInformed(ExecLocal(w, t, w.tasks[t], w.tasks[t].code.head, choice), ids)
  {
    hide Informed, Unwind, LocalTask;
    UnwindInformed(w, t, ids);
    if LocalTask(w, w.tasks[t], choice).Some? { LocalInformed(w, w.tasks[t], choice, ids); }
  }

  lemma SettleKeepsAll(w: Worker, t: nat, outcome: Outcome, ids: set<string>)
    requires AllInformed(w, ids) && Waits(w, t)
    requires outcome.Fulfilled? && w.tasks[t].waiting.value.call == ControlOnApi ==> outcome.newId in ids
    ensures AllInformed(Settle(w, t, outcome), ids)
  {
    hide Informed, Unwind;
    var v := Settle(w, t, outcome);
    UnwindInformed(w, t, ids);
    if outcome.Fulfilled? || w.tasks[t].waiting.value.quiet {
      SettledInformed(w.tasks[t], v.tasks[t], outcome, ids);
    }
  }

  lemma StoreKeepsAll(w: Worker, t: nat, ids: set<string>)
    requires AllInformed(w, ids) && Waits(w, t)
    ensures AllInformed(Store(w, t), ids)
  {
    hide Proper;
    var k, m := w.tasks[t], Store(w, t).tasks[t];
    var f :| Proper(k.code, f) && Means(k, f, ids);
    assert Means(m, f, ids);
    assert Informed(m, ids);
  }

  /** What the server answers to a call of start() is the id of a control it has made. */
  function Answered(w: Worker, l: Label): set<string> {
    match l
    case Resume(t, Fulfilled(_, _, id)) =>
      if Waits(w, t) && w.tasks[t].waiting.value.call == ControlOnApi then {id} else {}
    case _ => {}
  }

  /** The ids the server has given out in the first `n` steps. */
  function GivenOut(ws: seq<Worker>, labels: seq<Label>, n: nat): set<string>
    requires n <= |labels| && n <= |ws|
  {
    if n == 0 then {} else GivenOut(ws, labels, n - 1) + Answered(ws[n - 1], labels[n - 1])
  }

  lemma StepInformed(w: Worker, l: Label, v: Worker, ids: set<string>)
    requires Step(w, l, v) && AllInformed(w, ids)
    requires w.current.Some? ==> w.current.value in w.tasks && w.tasks[w.current.value].waiting.None?
    ensures AllInformed(v, ids + Answered(w, l))
  {
    var more := ids + Answered(w, l);
    forall t | t in w.tasks ensures Informed(w.tasks[t], more) { MoreIds(w.tasks[t], ids, more); }
    assert AllInformed(w, more);
    hide Informed, Settle, Store, ExecCall, ExecLocal, Entry;
    match l {
      case Spawn(c) =>
        EntryProper(c);
        FreshInformed(NewTask(c), more);
      case Run(choice, tab) =>
        var t := w.current.value;
        if w.tasks[t].code.Do? {
          if IsCall(w.tasks[t].code.head) { CallKeepsAll(w, t, choice, tab, more); }
          else { LocalKeepsAll(w, t, choice, more); }
        }
      case Perform(t) => StoreKeepsAll(w, t, more);
      case Resume(t, outcome) => SettleKeepsAll(w, t, outcome, more);
      case ClearSession =>
    }
  }

  lemma {:induction false} RunInformed(ws: seq<Worker>, labels: seq<Label>, leftover: Option<Stored>, n: nat)
    requires IsRun(ws, labels, leftover) && n < |ws|
    ensures AllInformed(ws[n], GivenOut(ws, labels, n))
    ensures ws[n].current.Some? ==>
      ws[n].current.value in ws[n].tasks && ws[n].tasks[ws[n].current.value].waiting.None?
  {
    hide Step, Stop, Answered;
    RunKeeps(ws, labels, leftover, n, n);
    CurrentRuns(ws[n], leftover);
    if n == 0 {
      Ends();
      StopProper(true, Done);
      FreshInformed(NewTask(Stop(true, Done)), {});
    } else {
      hide Boots, AllInformed, Inv;
      RunInformed(ws, labels, leftover, n - 1);
      StepInformed(ws[n - 1], labels[n - 1], ws[n], GivenOut(ws, labels, n - 1));
    }
  }

  lemma CurrentRuns(w: Worker, leftover: Option<Stored>)
    requires Inv(w, leftover)
    ensures w.current.Some? ==> w.current.value in w.tasks && w.tasks[w.current.value].waiting.None?
  {
    hide Guarded;
    if w.current.Some? { assert TaskInv(w, w.current.value, w.tasks[w.current.value], leftover); }
  }

  /** Over any interleaving: a debugger command or a new tab is asked for only by a task whose last read of
      session storage was the record of the very control its job was sent for. */
  lemma ActsUnderOwnControl(ws: seq<Worker>, labels: seq<Label>, leftover: Option<Stored>, n: nat, t: nat)
    requires IsRun(ws, labels, leftover) && n < |ws| && ws[n].current == Some(t) && t in ws[n].tasks
    requires ws[n].tasks[t].code.Do? && IsCall(ws[n].tasks[t].code.head)
    requires ws[n].tasks[t].code.head.call in {SendCommand, CreateTab}
    ensures var k := ws[n].tasks[t];
      k.job.Some? && k.stored.Some? && k.stored.value.id == k.job.value.controlId
  {
    hide Informed, Step, Boots;
    RunInformed(ws, labels, leftover, n);
    CallNeeds(ws[n].tasks[t], GivenOut(ws, labels, n));
  }

  /** And what a task leaves in session storage is, after a change of tab, a record of its job's control
      again, and after a start, one with an id the server has given out and the generation of that start. */
  lemma WritesOwnRecord(ws: seq<Worker>, labels: seq<Label>, leftover: Option<Stored>, n: nat, t: nat)
    requires IsRun(ws, labels, leftover) && n < |labels| && labels[n] == Perform(t) && Waits(ws[n], t)
    requires ws[n].tasks[t].waiting.value.call in {StoreSwitch, StoreNew}
    ensures var k, session := ws[n].tasks[t], ws[n + 1].session;
      && session.Some?
      && (k.waiting.value.call == StoreSwitch ==> k.job.Some? && session.value.id == k.job.value.controlId)
      && (k.waiting.value.call == StoreNew ==>
            session.value.id in GivenOut(ws, labels, n) && session.value.generation == k.captured)
  {
    RunInformed(ws, labels, leftover, n);
    hide Proper, Means, Boots;
    assert Step(ws[n], labels[n], ws[n + 1]);
    assert Informed(ws[n].tasks[t], GivenOut(ws, labels, n));
  }
}
