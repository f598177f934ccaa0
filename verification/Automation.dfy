/** The extension's automation worker: async functions that share one generation counter and
    interleave at every `await`.

    A JavaScript function is a `Code`: straight-line instructions, with `Await` where the source
    awaits. One instruction is one step. Between two awaits nothing else runs, so while a task is
    `current` only it may step; at an await it hands control back, and any waiting task may be
    resumed next, in any order and with any outcome. */
module Automation {
  import opened Prelude

  /** What chrome.storage.session holds under the control key. */
  datatype Stored = Stored(id: string, tabId: int, managed: bool, generation: nat)

  datatype Action =
    | Inspect | Screenshot | Navigate | Click(selector: bool) | Type(selector: bool) | Key | Scroll | Tabs | NewTab
    | SelectTab | Other

  datatype Job = Job(id: string, controlId: string, action: Action)

  /** The asynchronous operations the worker issues. */
  datatype Call =
    | StoreGet | StoreNew | StoreSwitch | StoreRemove
    | TabGet | TabQuery | TabLoaded | CreateTab
    | Attach | Detach | SendCommand
    | Badge | SavedPair | Recovery | Yield
    | PollApi | StartApi | ResultApi | ControlOnApi | ControlOffApi

  /** The effects on the user's browser, and the record that authorises later ones. */
  predicate Guards(c: Call) {
    c == SendCommand || c == Attach || c == CreateTab || c == StoreNew
  }

  datatype Cond =
    | Busy | NoControl | Unpaired | OtherControl | NoJob | Paused | SameTab | HasStored | Paired | Managed | Unmanaged

  datatype Instr =
    | NewGeneration(start: bool) // ++generation; start() also keeps the new value
    | Capture                    // remember the present generation
    | AssertGeneration           // throw unless it is still the remembered one
    | TestControl(same: bool)    // throw unless the stored control is of that generation (and of the job's control)
    | Keep                       // const control = what was just checked
    | Test                       // a test of values read from Chrome, which may throw
    | Throw
    | Try(handler: Code)
    | EndTry
    | Branch(cond: Cond, instead: Code)
    | SetRunning(on: bool)
    | Await(call: Call)
    | Quietly(call: Call)        // await with rejections swallowed
    | AwaitIf(cond: Cond, call: Call)
    | BeginExecute               // execute(request)

  datatype Code = Done | Do(head: Instr, next: Code)

  // ---------------------------------------------------------------- the programs

  function Checked(same: bool, next: Code): Code {
    Do(AssertGeneration, Do(Await(StoreGet), Do(AssertGeneration, Do(TestControl(same), Do(Await(TabGet),
    Do(AssertGeneration, Do(Test, Do(Await(Yield), next))))))))
  }

  function Dispatch(next: Code): Code {
    Checked(true, Do(Test, Do(AssertGeneration, Do(Await(SendCommand), next))))
  }

  function Evaluate(next: Code): Code {
    Checked(true, Dispatch(Dispatch(Dispatch(Do(Test, next)))))
  }

  function Point(selector: bool, next: Code): Code {
    if selector then Evaluate(Do(Await(Yield), next)) else Do(Await(Yield), next)
  }

  /** Detach from the tab just attached, and rethrow. */
  function GiveUp(): Code {
    Do(Quietly(Detach), Do(Throw, Done))
  }

  function SwitchTab(next: Code): Code {
    Do(Test, Checked(true, Do(AssertGeneration, Do(Branch(SameTab, next), Do(Await(StoreSwitch), Do(Quietly(Detach),
    Do(AssertGeneration, Do(Await(Attach), Do(Branch(Paused, GiveUp()), next)))))))))
  }

  function Body(a: Action, next: Code): Code {
    match a
    case Tabs => Do(AwaitIf(Managed, TabQuery), Do(AwaitIf(Unmanaged, TabGet), next))
    case SelectTab => Do(Await(TabGet), SwitchTab(next))
    case NewTab =>
      Do(Test, Do(Test, Checked(true,
        Do(AssertGeneration, Do(Await(CreateTab), Do(Await(TabLoaded), SwitchTab(next)))))))
    case Inspect => Evaluate(next)
    case Screenshot => Dispatch(Do(Test, next))
    case Navigate => Do(Test, Dispatch(Do(Test, next)))
    case Click(selector) => Point(selector, Checked(true, Dispatch(Dispatch(next))))
    case Type(selector) =>
      var insert := Checked(true, Do(Test, Dispatch(next)));
      if selector then Point(true, insert) else insert
    case Key => Do(Test, Dispatch(Dispatch(next)))
    case Scroll => Dispatch(next)
    case Other => Do(Throw, next)
  }

  function Execute(a: Action, next: Code): Code {
    Do(Capture, Checked(true, Do(Keep, Body(a, next))))
  }

  /** stop() after its optional generation bump. */
  function Stop(notify: bool, next: Code): Code {
    Do(Await(StoreGet), Do(Await(StoreRemove), Do(AwaitIf(HasStored, Detach), Do(Await(Badge),
    if notify then Do(Await(SavedPair), Do(AwaitIf(Paired, ControlOffApi), next)) else next))))
  }

  function Pause(notify: bool, next: Code): Code {
    Do(NewGeneration(false), Stop(notify, next))
  }

  /** The part of start() inside its try block. */
  function Authorise(): Code {
    Do(AssertGeneration, Do(Await(ControlOnApi),
    Do(Branch(Paused, Do(Await(ControlOffApi), Do(Throw, Done))),
    Do(Await(StoreNew),
    Do(Branch(Paused, Pause(true, Do(Throw, Done))),
    Do(Await(Badge), Do(Await(Badge), Do(EndTry, Done))))))))
  }

  function Start(): Code {
    Do(NewGeneration(true), Do(Await(Recovery), Do(AssertGeneration, Do(Await(SavedPair), Do(AssertGeneration, Do(Test,
    Stop(true, Do(Await(Yield), Do(AssertGeneration, Do(Await(TabGet), Do(Test, Do(AssertGeneration, Do(Await(Attach),
    Do(Try(GiveUp()), Authorise()))))))))))))))
  }

  function Finally(): Code {
    Do(SetRunning(false), Done)
  }

  function TickCatch(): Code {
    Do(Try(Finally()), Pause(true, Do(EndTry, Finally())))
  }

  function AfterExecute(): Code {
    Do(Capture, Checked(true, Do(Await(ResultApi), Finally())))
  }

  /** tick() from the moment it has read its pairing. */
  function TakeJob(): Code {
    Do(Await(PollApi), Do(Branch(OtherControl, Pause(false, Finally())), Do(Branch(NoJob, Finally()),
    Do(Await(StartApi), Do(Try(AfterExecute()), Do(BeginExecute, Do(EndTry, AfterExecute())))))))
  }

  /** tick() between its first read and its job. */
  function LookForJob(): Code {
    Do(Branch(NoControl, Finally()),
    Do(Capture, Checked(false, Do(Keep,
      Do(Await(SavedPair), Do(Branch(Unpaired, Pause(false, Finally())), TakeJob()))))))
  }

  function Tick(): Code {
    Do(Branch(Busy, Done), Do(SetRunning(true), Do(Try(TickCatch()), Do(Await(StoreGet), LookForJob()))))
  }

  // ---------------------------------------------------------------- the static check

  /** What a task knows at a point of its code: that the generation is still the one it captured
      (nothing else ran since it looked), that its generation was authorised, and that it has
      just been granted its job by the server. */
  datatype Flags = Flags(live: bool, auth: bool, granted: bool)

  const NOTHING := Flags(false, false, false)

  function After(i: Instr, f: Flags): Flags {
    match i
    case NewGeneration(start) => Flags(start, start || f.auth, false)
    case Capture => Flags(true, false, false)
    case AssertGeneration => Flags(true, f.auth, false)
    case TestControl(_) => Flags(f.live, true, false)
    case Await(c) => Flags(false, f.auth, c == StartApi)
    case Quietly(_) => Flags(false, f.auth, false)
    case AwaitIf(_, _) => Flags(false, f.auth, false)
    case Branch(Paused, _) => Flags(true, f.auth, false)
    case Try(_) => f
    case BeginExecute => NOTHING
    case _ => f.(granted := false)
  }

  /** Guarded effects come right after a generation check, under an authorised generation; a job
      is executed only right after the server granted it. */
  predicate Guarded(c: Code, f: Flags)
    decreases c
  {
    match c
    case Done => true
    case Do(i, next) =>
      Guarded(next, After(i, f)) &&
      match i
      case Await(call) => Guards(call) ==> f.live && f.auth
      case Quietly(call) => Guards(call) ==> f.live && f.auth
      case AwaitIf(_, call) => Guards(call) ==> f.live && f.auth
      case Try(handler) => Guarded(handler, NOTHING)
      case Branch(_, instead) => Guarded(instead, NOTHING)
      case BeginExecute => f.granted
      case _ => true
  }

  predicate Weaker(f: Flags, g: Flags) {
    (f.live ==> g.live) && (f.auth ==> g.auth) && (f.granted ==> g.granted)
  }

  lemma {:induction false} GuardedMonotone(c: Code, f: Flags, g: Flags)
    requires Guarded(c, f) && Weaker(f, g)
    ensures Guarded(c, g)
    decreases c
  {
    if c.Do? {
      GuardedMonotone(c.next, After(c.head, f), After(c.head, g));
    }
  }

  /** Prefixing an instruction that neither installs nor jumps to other code. */
  lemma Then(i: Instr, next: Code, f: Flags)
    requires !i.Try? && !i.Branch? && !i.BeginExecute? && Guarded(next, After(i, f))
    requires i.Await? || i.Quietly? || i.AwaitIf? ==> Guards(i.call) ==> f.live && f.auth
    ensures Guarded(Do(i, next), f)
  {
  }

  lemma ThenTo(i: Instr, next: Code, f: Flags)
    requires (i.Try? && Guarded(i.handler, NOTHING)) || (i.Branch? && Guarded(i.instead, NOTHING))
    requires Guarded(next, After(i, f))
    ensures Guarded(Do(i, next), f)
  {
  }

  lemma ThenExecute(next: Code)
    requires Guarded(next, NOTHING)
    ensures Guarded(Do(BeginExecute, next), Flags(false, true, true))
  {
  }

  lemma GiveUpGuarded()
    ensures Guarded(GiveUp(), NOTHING)
  {
  }

  lemma CheckedGuarded(same: bool, next: Code, f: Flags)
    requires Guarded(next, Flags(false, true, false))
    ensures Guarded(Checked(same, next), f)
  {
    hide Guarded;
    var c5 := Do(Await(TabGet), Do(AssertGeneration, Do(Test, Do(Await(Yield), next))));
    CheckedTail(next);
    Then(TestControl(same), c5, Flags(true, f.auth, false));
    Then(AssertGeneration, Do(TestControl(same), c5), Flags(false, f.auth, false));
    var c2 := Do(AssertGeneration, Do(TestControl(same), c5));
    Then(Await(StoreGet), c2, Flags(true, f.auth, false));
    Then(AssertGeneration, Do(Await(StoreGet), c2), f);
  }

  lemma CheckedTail(next: Code)
    requires Guarded(next, Flags(false, true, false))
    ensures Guarded(Do(Await(TabGet), Do(AssertGeneration, Do(Test, Do(Await(Yield), next)))), Flags(true, true, false))
  {
    hide Guarded;
    var sure := Flags(true, true, false);
    var c8 := Do(Await(Yield), next);
    Then(Await(Yield), next, sure);
    Then(Test, c8, sure);
    Then(AssertGeneration, Do(Test, c8), Flags(false, true, false));
    Then(Await(TabGet), Do(AssertGeneration, Do(Test, c8)), sure);
  }

  lemma DispatchGuarded(next: Code, f: Flags)
    requires Guarded(next, Flags(false, true, false))
    ensures Guarded(Dispatch(next), f)
  {
    var send := Do(AssertGeneration, Do(Await(SendCommand), next));
    assert Guarded(send, Flags(false, true, false));
    CheckedGuarded(true, Do(Test, send), f);
  }

  lemma EvaluateGuarded(next: Code, f: Flags)
    requires Guarded(next, Flags(false, true, false))
    ensures Guarded(Evaluate(next), f)
  {
    var d := Do(Test, next);
    DispatchGuarded(d, Flags(false, true, false));
    DispatchGuarded(Dispatch(d), Flags(false, true, false));
    DispatchGuarded(Dispatch(Dispatch(d)), Flags(false, true, false));
    CheckedGuarded(true, Dispatch(Dispatch(Dispatch(d))), f);
  }

  lemma PointGuarded(selector: bool, next: Code, f: Flags)
    requires Guarded(next, NOTHING)
    ensures Guarded(Point(selector, next), f)
  {
    GuardedMonotone(next, NOTHING, Flags(false, true, false));
    GuardedMonotone(next, NOTHING, Flags(false, f.auth, false));
    var y := Do(Await(Yield), next);
    assert Guarded(y, Flags(false, true, false));
    EvaluateGuarded(y, f);
  }

  /** Wherever the code attaches to a tab it goes on either with a test for a pause that gives the tab
      up, or with a handler that gives it up for all that may still be thrown; and wherever it stores a new
      record it goes on with a test for a pause that removes it again. */
  predicate GivesUp(c: Code)
    decreases c
  {
    match c
    case Done => true
    case Do(i, next) =>
      GivesUp(next) &&
      match i
      case Await(Attach) => next.Do? && (next.head == Branch(Paused, GiveUp()) || next.head == Try(GiveUp()))
      case Await(StoreNew) => next.Do? && next.head == Branch(Paused, Pause(true, Do(Throw, Done)))
      case Quietly(call) => call != Attach
      case AwaitIf(_, call) => call != Attach
      case Try(handler) => GivesUp(handler)
      case Branch(_, instead) => GivesUp(instead)
      case _ => true
  }

  lemma CheckedGivesUp(same: bool, next: Code)
    requires GivesUp(next)
    ensures GivesUp(Checked(same, next))
  {
    var c5 := Do(Await(TabGet), Do(AssertGeneration, Do(Test, Do(Await(Yield), next))));
    assert GivesUp(c5.next.next);
    assert GivesUp(Do(TestControl(same), c5));
    assert GivesUp(Do(Await(StoreGet), Do(AssertGeneration, Do(TestControl(same), c5))));
  }

  lemma StopGivesUp(notify: bool, next: Code)
    requires GivesUp(next)
    ensures GivesUp(Stop(notify, next)) && GivesUp(Pause(notify, next))
  {
    var tell := if notify then Do(Await(SavedPair), Do(AwaitIf(Paired, ControlOffApi), next)) else next;
    assert GivesUp(tell);
    assert GivesUp(Do(AwaitIf(HasStored, Detach), Do(Await(Badge), tell)));
  }

  lemma AuthoriseGivesUp()
    ensures GivesUp(Authorise())
  {
    hide Pause;
    var throw := Do(Throw, Done);
    assert GivesUp(throw);
    StopGivesUp(true, throw);
    var badges := Do(Await(Badge), Do(Await(Badge), Do(EndTry, Done)));
    assert GivesUp(badges.next);
    var check := Do(Branch(Paused, Pause(true, throw)), badges);
    assert GivesUp(check);
    assert GivesUp(Do(Await(StoreNew), check));
    assert GivesUp(Do(Await(ControlOffApi), throw));
    assert GivesUp(Do(Branch(Paused, Do(Await(ControlOffApi), throw)), Do(Await(StoreNew), check)));
  }

  /** A start that is overtaken gives up its tab and removes its record. */
  lemma StartGivesUp()
    ensures GivesUp(Start())
  {
    hide Authorise, Stop;
    AuthoriseGivesUp();
    assert GivesUp(GiveUp());
    var attach := Do(AssertGeneration, Do(Await(Attach), Do(Try(GiveUp()), Authorise())));
    assert GivesUp(attach.next.next);
    assert GivesUp(attach);
    var after := Do(Await(Yield), Do(AssertGeneration, Do(Await(TabGet), Do(Test, attach))));
    assert GivesUp(after.next.next);
    StopGivesUp(true, after);
    var test := Do(AssertGeneration, Do(Test, Stop(true, after)));
    assert GivesUp(test);
    assert GivesUp(Do(AssertGeneration, Do(Await(SavedPair), test)));
  }

  lemma SwitchTabGivesUp(next: Code)
    requires GivesUp(next)
    ensures GivesUp(SwitchTab(next))
  {
    hide Checked;
    var attach := Do(AssertGeneration, Do(Await(Attach), Do(Branch(Paused, GiveUp()), next)));
    assert GivesUp(GiveUp());
    assert GivesUp(attach.next.next);
    assert GivesUp(attach);
    var switch := Do(Branch(SameTab, next), Do(Await(StoreSwitch), Do(Quietly(Detach), attach)));
    assert GivesUp(switch.next.next);
    assert GivesUp(switch);
    CheckedGivesUp(true, Do(AssertGeneration, switch));
  }

  lemma AttachGuarded(next: Code)
    requires Guarded(next, NOTHING)
    ensures Guarded(Do(Quietly(Detach), Do(AssertGeneration, Do(Await(Attach), Do(Branch(Paused, GiveUp()), next)))),
                    Flags(false, true, false))
  {
    hide Guarded;
    var a, sure := Flags(false, true, false), Flags(true, true, false);
    GiveUpGuarded();
    GuardedMonotone(next, NOTHING, sure);
    var attached := Do(Branch(Paused, GiveUp()), next);
    ThenTo(Branch(Paused, GiveUp()), next, a);
    Then(Await(Attach), attached, sure);
    Then(AssertGeneration, Do(Await(Attach), attached), a);
    Then(Quietly(Detach), Do(AssertGeneration, Do(Await(Attach), attached)), a);
  }

  /** Moving to another tab attaches only right after a check, and gives the tab up when paused. */
  lemma SwitchTabGuarded(next: Code, f: Flags)
    requires Guarded(next, NOTHING)
    ensures Guarded(SwitchTab(next), f)
    ensures GivesUp(next) ==> GivesUp(SwitchTab(next))
  {
    hide Guarded, Checked, GivesUp;
    if GivesUp(next) { SwitchTabGivesUp(next); }
    var a, sure := Flags(false, true, false), Flags(true, true, false);
    GuardedMonotone(next, NOTHING, sure);
    AttachGuarded(next);
    var detach := Do(Quietly(Detach), Do(AssertGeneration, Do(Await(Attach), Do(Branch(Paused, GiveUp()), next))));
    Then(Await(StoreSwitch), detach, sure);
    ThenTo(Branch(SameTab, next), Do(Await(StoreSwitch), detach), sure);
    var c := Do(AssertGeneration, Do(Branch(SameTab, next), Do(Await(StoreSwitch), detach)));
    Then(AssertGeneration, Do(Branch(SameTab, next), Do(Await(StoreSwitch), detach)), a);
    CheckedGuarded(true, c, f.(granted := false));
    Then(Test, Checked(true, c), f);
  }

  lemma NewTabGuarded(next: Code, f: Flags)
    requires Guarded(next, NOTHING)
    ensures Guarded(Body(NewTab, next), f)
  {
    hide Checked, SwitchTab;
    SwitchTabGuarded(next, Flags(false, true, false));
    var create := Do(AssertGeneration, Do(Await(CreateTab), Do(Await(TabLoaded), SwitchTab(next))));
    assert Guarded(Do(Await(TabLoaded), SwitchTab(next)), Flags(false, true, false));
    assert Guarded(create, Flags(false, true, false));
    CheckedGuarded(true, create, f.(granted := false));
    assert Guarded(Do(Test, Checked(true, create)), f.(granted := false));
  }

  lemma ClickGuarded(selector: bool, next: Code, f: Flags)
    requires Guarded(next, NOTHING)
    ensures Guarded(Body(Click(selector), next), f)
  {
    hide Checked, Dispatch, Point;
    var authorised := Flags(false, true, false);
    GuardedMonotone(next, NOTHING, authorised);
    DispatchGuarded(next, authorised);
    DispatchGuarded(Dispatch(next), authorised);
    CheckedGuarded(true, Dispatch(Dispatch(next)), NOTHING);
    PointGuarded(selector, Checked(true, Dispatch(Dispatch(next))), f);
  }

  lemma TypeGuarded(selector: bool, next: Code, f: Flags)
    requires Guarded(next, NOTHING)
    ensures Guarded(Body(Type(selector), next), f)
  {
    hide Checked, Dispatch, Point;
    var authorised := Flags(false, true, false);
    GuardedMonotone(next, NOTHING, authorised);
    DispatchGuarded(next, authorised);
    var insert := Do(Test, Dispatch(next));
    assert Guarded(insert, authorised);
    CheckedGuarded(true, insert, NOTHING);
    CheckedGuarded(true, insert, f);
    PointGuarded(true, Checked(true, insert), f);
  }

  lemma TabsGuarded(next: Code, f: Flags)
    requires Guarded(next, Flags(false, f.auth, false))
    ensures Guarded(Body(Tabs, next), f)
  {
    hide Guarded;
    Then(AwaitIf(Unmanaged, TabGet), next, Flags(false, f.auth, false));
    Then(AwaitIf(Managed, TabQuery), Do(AwaitIf(Unmanaged, TabGet), next), f);
  }

  lemma SelectTabGuarded(next: Code, f: Flags)
    requires Guarded(next, NOTHING)
    ensures Guarded(Body(SelectTab, next), f)
  {
    hide Guarded, SwitchTab;
    SwitchTabGuarded(next, Flags(false, f.auth, false));
    Then(Await(TabGet), SwitchTab(next), f);
  }

  lemma ScreenshotGuarded(next: Code, f: Flags)
    requires Guarded(next, Flags(false, true, false))
    ensures Guarded(Body(Screenshot, next), f)
  {
    hide Guarded, Dispatch;
    Then(Test, next, Flags(false, true, false));
    DispatchGuarded(Do(Test, next), f);
  }

  lemma NavigateGuarded(next: Code, f: Flags)
    requires Guarded(next, Flags(false, true, false))
    ensures Guarded(Body(Navigate, next), f)
  {
    hide Guarded, Dispatch;
    Then(Test, next, Flags(false, true, false));
    DispatchGuarded(Do(Test, next), f.(granted := false));
    Then(Test, Dispatch(Do(Test, next)), f);
  }

  lemma KeyGuarded(next: Code, f: Flags)
    requires Guarded(next, Flags(false, true, false))
    ensures Guarded(Body(Key, next), f)
  {
    hide Guarded, Dispatch;
    DispatchGuarded(next, Flags(false, true, false));
    DispatchGuarded(Dispatch(next), f.(granted := false));
    Then(Test, Dispatch(Dispatch(next)), f);
  }

  lemma PlainBodies(next: Code, f: Flags)
    requires Guarded(next, Flags(false, true, false)) && Guarded(next, f.(granted := false))
    ensures Guarded(Body(Inspect, next), f) && Guarded(Body(Scroll, next), f) && Guarded(Body(Other, next), f)
  {
    hide Guarded, Dispatch, Evaluate;
    EvaluateGuarded(next, f);
    DispatchGuarded(next, f);
    Then(Throw, next, f);
  }

  lemma BodyGuarded(a: Action, next: Code, f: Flags)
    requires Guarded(next, NOTHING)
    ensures Guarded(Body(a, next), f)
  {
    hide Guarded, Body;
    GuardedMonotone(next, NOTHING, Flags(false, true, false));
    GuardedMonotone(next, NOTHING, Flags(false, f.auth, false));
    GuardedMonotone(next, NOTHING, f.(granted := false));
    PlainBodies(next, f);
    match a {
      case Tabs => TabsGuarded(next, f);
      case SelectTab => SelectTabGuarded(next, f);
      case NewTab => NewTabGuarded(next, f);
      case Screenshot => ScreenshotGuarded(next, f);
      case Navigate => NavigateGuarded(next, f);
      case Click(selector) => ClickGuarded(selector, next, f);
      case Type(selector) => TypeGuarded(selector, next, f);
      case Key => KeyGuarded(next, f);
      case _ =>
    }
  }

  /** execute() is guarded for every action. */
  lemma ExecuteGuarded(a: Action, next: Code)
    requires Guarded(next, NOTHING)
    ensures Guarded(Execute(a, next), NOTHING)
  {
    hide Guarded, Checked, Body;
    var authorised := Flags(false, true, false);
    BodyGuarded(a, next, authorised);
    Then(Keep, Body(a, next), authorised);
    CheckedGuarded(true, Do(Keep, Body(a, next)), Flags(true, false, false));
    Then(Capture, Checked(true, Do(Keep, Body(a, next))), NOTHING);
  }

  lemma StopGuarded(notify: bool, next: Code, f: Flags)
    requires Guarded(next, Flags(false, f.auth, false))
    ensures Guarded(Stop(notify, next), f)
  {
    hide Guarded;
    var g := Flags(false, f.auth, false);
    TellGuarded(next, g);
    var tell := if notify then Do(Await(SavedPair), Do(AwaitIf(Paired, ControlOffApi), next)) else next;
    var rest := Do(AwaitIf(HasStored, Detach), Do(Await(Badge), tell));
    RemoveGuarded(tell, g);
    Then(Await(StoreGet), Do(Await(StoreRemove), rest), f);
  }

  lemma TellGuarded(next: Code, g: Flags)
    requires Guarded(next, g) && !g.live && !g.granted
    ensures Guarded(Do(Await(SavedPair), Do(AwaitIf(Paired, ControlOffApi), next)), g)
  {
    hide Guarded;
    Then(AwaitIf(Paired, ControlOffApi), next, g);
    Then(Await(SavedPair), Do(AwaitIf(Paired, ControlOffApi), next), g);
  }

  lemma RemoveGuarded(tell: Code, g: Flags)
    requires Guarded(tell, g) && !g.live && !g.granted
    ensures Guarded(Do(Await(StoreRemove), Do(AwaitIf(HasStored, Detach), Do(Await(Badge), tell))), g)
  {
    hide Guarded;
    Then(Await(Badge), tell, g);
    Then(AwaitIf(HasStored, Detach), Do(Await(Badge), tell), g);
    Then(Await(StoreRemove), Do(AwaitIf(HasStored, Detach), Do(Await(Badge), tell)), g);
  }

  lemma PauseGuarded(notify: bool, next: Code)
    requires Guarded(next, NOTHING)
    ensures Guarded(Pause(notify, next), NOTHING)
  {
    StopGuarded(notify, next, NOTHING);
  }

  lemma EndsGuarded()
    ensures Guarded(Do(Throw, Done), NOTHING) && Guarded(Do(Await(ControlOffApi), Do(Throw, Done)), NOTHING)
    ensures Guarded(Do(EndTry, Done), Flags(false, true, false))
  {
  }

  lemma AuthoriseGuarded()
    ensures Guarded(Authorise(), Flags(false, true, false))
  {
    hide Guarded, Pause;
    var a, sure := Flags(false, true, false), Flags(true, true, false);
    var throw, off := Do(Throw, Done), Do(Await(ControlOffApi), Do(Throw, Done));
    EndsGuarded();
    PauseGuarded(true, throw);
    Then(Await(Badge), Do(EndTry, Done), a);
    var badges := Do(Await(Badge), Do(Await(Badge), Do(EndTry, Done)));
    Then(Await(Badge), Do(Await(Badge), Do(EndTry, Done)), sure);
    var check := Do(Branch(Paused, Pause(true, throw)), badges);
    ThenTo(Branch(Paused, Pause(true, throw)), badges, a);
    Then(Await(StoreNew), check, sure);
    ThenTo(Branch(Paused, off), Do(Await(StoreNew), check), a);
    var ask := Do(Branch(Paused, off), Do(Await(StoreNew), check));
    Then(Await(ControlOnApi), ask, sure);
    Then(AssertGeneration, Do(Await(ControlOnApi), ask), a);
  }

  lemma StartGuarded()
    ensures Guarded(Start(), NOTHING)
  {
    hide Guarded, Authorise, Stop;
    var a, sure := Flags(false, true, false), Flags(true, true, false);
    AuthoriseGuarded();
    GiveUpGuarded();
    ThenTo(Try(GiveUp()), Authorise(), a);
    var attached := Do(Try(GiveUp()), Authorise());
    Then(Await(Attach), attached, sure);
    var attach := Do(AssertGeneration, Do(Await(Attach), attached));
    Then(AssertGeneration, Do(Await(Attach), attached), a);
    AfterStopGuarded(attach);
    var afterStop := Do(Await(Yield), Do(AssertGeneration, Do(Await(TabGet), Do(Test, attach))));
    StopGuarded(true, afterStop, sure);
    BeforeStopGuarded(Stop(true, afterStop));
  }

  lemma BeforeStopGuarded(c: Code)
    requires Guarded(c, Flags(true, true, false))
    ensures Guarded(Do(NewGeneration(true), Do(Await(Recovery), Do(AssertGeneration, Do(Await(SavedPair),
              Do(AssertGeneration, Do(Test, c)))))), NOTHING)
  {
    hide Guarded;
    var a, sure := Flags(false, true, false), Flags(true, true, false);
    Then(Test, c, sure);
    Then(AssertGeneration, Do(Test, c), a);
    var pair := Do(Await(SavedPair), Do(AssertGeneration, Do(Test, c)));
    Then(Await(SavedPair), Do(AssertGeneration, Do(Test, c)), sure);
    Then(AssertGeneration, pair, a);
    Then(Await(Recovery), Do(AssertGeneration, pair), sure);
    Then(NewGeneration(true), Do(Await(Recovery), Do(AssertGeneration, pair)), NOTHING);
  }

  lemma AfterStopGuarded(attach: Code)
    requires Guarded(attach, Flags(false, true, false))
    ensures Guarded(Do(Await(Yield), Do(AssertGeneration, Do(Await(TabGet), Do(Test, attach)))),
      Flags(false, true, false))
  {
    hide Guarded;
    Then(Test, attach, Flags(false, true, false));
    Then(Await(TabGet), Do(Test, attach), Flags(true, true, false));
    Then(AssertGeneration, Do(Await(TabGet), Do(Test, attach)), Flags(false, true, false));
    Then(Await(Yield), Do(AssertGeneration, Do(Await(TabGet), Do(Test, attach))), Flags(false, true, false));
  }

  lemma FinallyGuarded()
    ensures Guarded(Finally(), NOTHING)
  {
  }

  lemma TickPartsGuarded()
    ensures Guarded(Finally(), NOTHING) && Guarded(TickCatch(), NOTHING) && Guarded(AfterExecute(), NOTHING)
  {
    hide Guarded, Pause, Checked, Finally;
    var a := Flags(false, true, false);
    FinallyGuarded();
    Then(EndTry, Finally(), NOTHING);
    PauseGuarded(true, Do(EndTry, Finally()));
    ThenTo(Try(Finally()), Pause(true, Do(EndTry, Finally())), NOTHING);
    GuardedMonotone(Finally(), NOTHING, a);
    Then(Await(ResultApi), Finally(), a);
    CheckedGuarded(true, Do(Await(ResultApi), Finally()), Flags(true, false, false));
    Then(Capture, Checked(true, Do(Await(ResultApi), Finally())), NOTHING);
  }

  lemma TakeJobGuarded()
    ensures Guarded(TakeJob(), Flags(true, true, false)) && Guarded(TakeJob(), Flags(false, true, false))
  {
    hide Guarded, Pause, Finally, AfterExecute;
    var a := Flags(false, true, false);
    TickPartsGuarded();
    PauseGuarded(false, Finally());
    Then(EndTry, AfterExecute(), NOTHING);
    var run := Do(BeginExecute, Do(EndTry, AfterExecute()));
    ThenExecute(Do(EndTry, AfterExecute()));
    ThenTo(Try(AfterExecute()), run, Flags(false, true, true));
    Then(Await(StartApi), Do(Try(AfterExecute()), run), a);
    var grant := Do(Await(StartApi), Do(Try(AfterExecute()), run));
    ThenTo(Branch(NoJob, Finally()), grant, a);
    var pick := Do(Branch(NoJob, Finally()), grant);
    ThenTo(Branch(OtherControl, Pause(false, Finally())), pick, a);
    Then(Await(PollApi), Do(Branch(OtherControl, Pause(false, Finally())), pick), Flags(true, true, false));
    Then(Await(PollApi), Do(Branch(OtherControl, Pause(false, Finally())), pick), a);
  }

  lemma LookForJobGuarded()
    ensures Guarded(LookForJob(), NOTHING)
  {
    hide Guarded, Pause, Finally, TakeJob, Checked;
    var a := Flags(false, true, false);
    TickPartsGuarded();
    TakeJobGuarded();
    PauseGuarded(false, Finally());
    var stop := Branch(Unpaired, Pause(false, Finally()));
    ThenTo(stop, TakeJob(), a);
    Then(Await(SavedPair), Do(stop, TakeJob()), a);
    var keep := Do(Keep, Do(Await(SavedPair), Do(stop, TakeJob())));
    Then(Keep, Do(Await(SavedPair), Do(stop, TakeJob())), a);
    CheckedGuarded(false, keep, Flags(true, false, false));
    Then(Capture, Checked(false, keep), NOTHING);
    ThenTo(Branch(NoControl, Finally()), Do(Capture, Checked(false, keep)), NOTHING);
  }

  lemma TickGuarded()
    ensures Guarded(Tick(), NOTHING)
  {
    hide Guarded, Finally, TickCatch, LookForJob;
    TickPartsGuarded();
    LookForJobGuarded();
    Then(Await(StoreGet), LookForJob(), NOTHING);
    ThenTo(Try(TickCatch()), Do(Await(StoreGet), LookForJob()), NOTHING);
    TickHead(Do(Try(TickCatch()), Do(Await(StoreGet), LookForJob())));
  }

  lemma TickHead(body: Code)
    requires Guarded(body, NOTHING)
    ensures Guarded(Do(Branch(Busy, Done), Do(SetRunning(true), body)), NOTHING)
  {
  }
}
