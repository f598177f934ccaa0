/** The Antigravity bridge: `send`, `steer` and `interrupt` run under one lock and await the SDK,
    while the consumer of a response runs without it. One step is what runs between two awaits. */
module AntigravityBridge {
  import opened Prelude

  type Input = string
  type Task = nat

  datatype Reason = NoReason | Steer | Stop

  datatype Event =
    | Started
    | Accepted(input: Input)
    | Delta
    | Continued(ids: seq<Input>)
    | Completed(ids: seq<Input>)
    | Cancelled(ids: seq<Input>)
    | Error(ids: seq<Input>)
    | Uncertain(ids: seq<Input>)

  /** Who holds the lock and which await it stands at. */
  datatype Holder =
    | Free
    | SendChat(input: Input)
    | SteerCancel(task: Task, input: Input)
    | SteerJoin(task: Task, input: Input)
    | SteerChat(input: Input)
    | StopCancel(task: Task)
    | StopJoin(task: Task)

  /** How the loop over a response's chunks ends. */
  datatype Ending = Exhausted | SdkCancelled | TaskCancelled | Raised

  /** `reasons` has the cancel reason of every consumer ever started, `running` those not ended. */
  datatype State = State(
    busy: bool, active: Option<Task>, activeTurn: Option<Task>, inputIds: seq<Input>,
    reasons: map<Task, Reason>, running: set<Task>, lock: Holder, events: seq<Event>)

  datatype Label =
    | BeginSend(input: Input, contentOk: bool)
    | SendChatReturns(ok: bool)
    | BeginSteer(input: Input, contentOk: bool)
    | SteerCancelReturns(ok: bool)
    | SteerJoinReturns
    | SteerChatReturns(ok: bool)
    | BeginStop
    | StopCancelReturns(ok: bool)
    | StopJoinReturns
    | Chunk(task: Task)
    | ConsumerEnds(task: Task, ending: Ending)

  const START := State(false, None, None, [], map[], {}, Free, [])

  predicate Enabled(s: State, l: Label) {
    match l
    case BeginSend(_, _) => s.lock == Free
    case SendChatReturns(_) => s.lock.SendChat?
    case BeginSteer(_, _) => s.lock == Free
    case SteerCancelReturns(_) => s.lock.SteerCancel?
    case SteerJoinReturns => s.lock.SteerJoin? && s.lock.task !in s.running
    case SteerChatReturns(_) => s.lock.SteerChat?
    case BeginStop => s.lock == Free
    case StopCancelReturns(_) => s.lock.StopCancel?
    case StopJoinReturns => s.lock.StopJoin? && s.lock.task !in s.running
    case Chunk(t) => t in s.running
    case ConsumerEnds(t, _) => t in s.running
  }

  function Emit(s: State, e: Event): State {
    s.(events := s.events + [e])
  }

  /** `create_task(consume(...))` with a turn of its own. */
  function Consume(s: State): State {
    var t := |s.reasons|;
    s.(active := Some(t), activeTurn := Some(t), reasons := s.reasons[t := NoReason], running := s.running + {t})
  }

  /** The `except` block of steer. */
  function SteerFailed(s: State): State {
    if s.busy then Emit(s, Uncertain(s.inputIds)).(busy := false, lock := Free) else s.(lock := Free)
  }

  /** The body of `consume` after its loop, without the `finally` block. */
  function EndTurn(s: State, reason: Reason, ending: Ending): State {
    match ending
    case Exhausted => if reason == NoReason then Emit(s, Completed(s.inputIds)).(busy := false) else s
    case Raised => Emit(s, Error(s.inputIds)).(busy := false)
    case _ => if reason != Steer then Emit(s, Cancelled(s.inputIds)).(busy := false) else s
  }

  function ReasonOf(s: State, t: Task): Reason {
    if t in s.reasons then s.reasons[t] else NoReason
  }

  function Apply(s: State, l: Label): State
    requires Enabled(s, l)
  {
    match l
    case BeginSend(input, contentOk) => if s.busy || !contentOk then s else s.(lock := SendChat(input))
    case SendChatReturns(ok) =>
      if !ok then s.(lock := Free)
      else
        var begun := Emit(Emit(s, Started), Accepted(s.lock.input));
        Consume(begun.(busy := true, inputIds := [s.lock.input], lock := Free))
    case BeginSteer(input, contentOk) =>
      if !s.busy || s.active.None? || !contentOk || s.activeTurn.None? then s
      else s.(reasons := s.reasons[s.activeTurn.value := Steer], lock := SteerCancel(s.active.value, input))
    case SteerCancelReturns(ok) => if ok then s.(lock := SteerJoin(s.lock.task, s.lock.input)) else SteerFailed(s)
    case SteerJoinReturns => if s.busy then s.(lock := SteerChat(s.lock.input)) else SteerFailed(s)
    case SteerChatReturns(ok) =>
      if !ok then SteerFailed(s)
      else
        var ids := s.inputIds + [s.lock.input];
        Consume(Emit(Emit(s, Accepted(s.lock.input)), Continued(ids)).(inputIds := ids, lock := Free))
    case BeginStop =>
      if !s.busy || s.active.None? || s.activeTurn.None? then s
      else s.(reasons := s.reasons[s.activeTurn.value := Stop], lock := StopCancel(s.active.value))
    case StopCancelReturns(ok) => if ok then s.(lock := StopJoin(s.lock.task)) else s.(lock := Free)
    case StopJoinReturns =>
      if s.busy then Emit(s, Cancelled(s.inputIds)).(busy := false, lock := Free) else s.(lock := Free)
    case Chunk(_) => Emit(s, Delta)
    case ConsumerEnds(t, ending) =>
      var u := EndTurn(s, ReasonOf(s, t), ending).(running := s.running - {t});
      if s.active == Some(t) then u.(active := None, activeTurn := None) else u
  }

  /** `cancel()` returns normally. */
  predicate CancelReturns(l: Label) {
    (l.SteerCancelReturns? || l.StopCancelReturns?) ==> l.ok
  }

  /** `cancel()` returns, or raises where that does no harm: in steer once the consumer has ended, in
      interrupt once the turn has ended. */
  predicate CancelOk(s: State, l: Label)
    requires Enabled(s, l)
  {
    match l
    case SteerCancelReturns(ok) => ok || s.lock.task !in s.running
    case StopCancelReturns(ok) => ok || !s.busy
    case _ => true
  }

  /** A stretch of steps from `s`. */
  ghost predicate Goes(s: State, states: seq<State>, labels: seq<Label>) {
    && |states| == |labels| + 1 && states[0] == s
    && forall i :: 0 <= i < |labels| ==> Enabled(states[i], labels[i]) && states[i + 1] == Apply(states[i], labels[i])
  }

  ghost predicate IsRun(states: seq<State>, labels: seq<Label>) {
    Goes(START, states, labels)
  }

  /** No `cancel()` raises where it does harm; in particular when every one returns. */
  ghost predicate Benign(s: State, states: seq<State>, labels: seq<Label>)
    requires Goes(s, states, labels)
  {
    forall i :: 0 <= i < |labels| ==> CancelOk(states[i], labels[i])
  }

  lemma ReturningIsBenign(s: State, states: seq<State>, labels: seq<Label>)
    requires Goes(s, states, labels) && forall i :: 0 <= i < |labels| ==> CancelReturns(labels[i])
    ensures Benign(s, states, labels)
  {
  }

  // ---------------------------------------------------------------- what an event log means

  datatype TurnState = Closed | Open(ids: seq<Input>)

  predicate Terminal(e: Event) {
    e.Completed? || e.Cancelled? || e.Error? || e.Uncertain?
  }

  /** One turn at a time: started, inputs accepted, exactly one terminal event with those inputs. */
  function Read(t: TurnState, e: Event): Option<TurnState> {
    match e
    case Started => if t == Closed then Some(Open([])) else None
    case Accepted(i) => if t.Open? then Some(Open(t.ids + [i])) else None
    case Delta => if t.Open? then Some(t) else None
    case Continued(ids) => if t == Open(ids) then Some(t) else None
    case Completed(ids) => if t == Open(ids) then Some(Closed) else None
    case Cancelled(ids) => if t == Open(ids) then Some(Closed) else None
    case Error(ids) => if t == Open(ids) then Some(Closed) else None
    case Uncertain(ids) => if t == Open(ids) then Some(Closed) else None
  }

  function Scan(events: seq<Event>): Option<TurnState> {
    if events == [] then Some(Closed)
    else
      var t := Scan(events[..|events| - 1]);
      if t.None? then None else Read(t.value, events[|events| - 1])
  }

  function AcceptedIn(events: seq<Event>): seq<Input> {
    if events == [] then []
    else
      var n := |events| - 1;
      AcceptedIn(events[..n]) + (if events[n].Accepted? then [events[n].input] else [])
  }

  lemma ScanOne(events: seq<Event>, e: Event)
    ensures Scan(events + [e]) == if Scan(events).None? then None else Read(Scan(events).value, e)
  {
    assert (events + [e])[..|events|] == events;
  }

  // ---------------------------------------------------------------- invariant

  function Expected(s: State): TurnState {
    if s.busy then Open(s.inputIds) else Closed
  }

  /** The consumer a holder waits for: still active, or ended and no longer active. */
  predicate WaitsFor(s: State, t: Task, reason: Reason) {
    && t in s.reasons && s.reasons[t] == reason
    && (s.active == Some(t) || s.active.None?)
  }

  predicate HolderInv(s: State) {
    match s.lock
    case Free => (s.busy <==> s.active.Some?) && (s.active.Some? ==> ReasonOf(s, s.active.value) == NoReason)
    case SendChat(_) => !s.busy && s.active.None?
    case SteerCancel(t, _) => WaitsFor(s, t, Steer)
    case SteerJoin(t, _) => WaitsFor(s, t, Steer)
    case SteerChat(_) => s.busy && s.active.None?
    case StopCancel(t) => WaitsFor(s, t, Stop)
    case StopJoin(t) => WaitsFor(s, t, Stop)
  }

  ghost predicate Control(s: State) {
    && s.activeTurn == s.active
    && s.running == (if s.active.Some? then {s.active.value} else {})
    && (s.active.Some? ==> s.busy && s.active.value in s.reasons)
    && Numbered(s)
    && HolderInv(s)
  }

  /** Consumers are numbered in the order of their creation. */
  ghost predicate Numbered(s: State) {
    forall t :: t in s.reasons <==> 0 <= t < |s.reasons|
  }

  ghost predicate Inv(s: State) {
    Control(s) && Scan(s.events) == Some(Expected(s))
  }

  lemma SendKeepsControl(s: State, l: Label)
    requires Control(s) && Enabled(s, l) && (l.BeginSend? || l.SendChatReturns?) && Numbered(Apply(s, l))
    ensures Control(Apply(s, l))
  {
    if s.lock.SendChat? { FreshTask(s); }
    hide Numbered;
  }

  lemma SteerKeepsControl(s: State, l: Label)
    requires Control(s) && Enabled(s, l) && Numbered(Apply(s, l))
    requires l.BeginSteer? || l.SteerCancelReturns? || l.SteerJoinReturns?
    requires CancelOk(s, l)
    ensures Control(Apply(s, l))
  {
    hide Numbered;
  }

  lemma ContinueKeepsControl(s: State, l: Label)
    requires Control(s) && Enabled(s, l) && l.SteerChatReturns? && Numbered(Apply(s, l))
    ensures Control(Apply(s, l))
  {
    FreshTask(s);
    hide Numbered;
  }

  lemma StopKeepsControl(s: State, l: Label)
    requires Control(s) && Enabled(s, l) && Numbered(Apply(s, l))
    requires l.BeginStop? || l.StopCancelReturns? || l.StopJoinReturns?
    requires CancelOk(s, l)
    ensures Control(Apply(s, l))
  {
    hide Numbered;
  }

  lemma ConsumerKeepsControl(s: State, l: Label)
    requires Control(s) && Enabled(s, l) && (l.Chunk? || l.ConsumerEnds?) && Numbered(Apply(s, l))
    ensures Control(Apply(s, l))
  {
    hide Numbered;
  }

  lemma FreshTask(s: State)
    requires Numbered(s)
    ensures |s.reasons| !in s.reasons
  {
  }

  lemma StepKeepsControl(s: State, l: Label)
    requires Control(s) && Enabled(s, l) && CancelOk(s, l)
    ensures Control(Apply(s, l))
  {
    StepKeepsReasons(s, l);
    hide Numbered, HolderInv, Apply, Control;
    match l {
      case BeginSend(_, _) => SendKeepsControl(s, l);
      case SendChatReturns(_) => SendKeepsControl(s, l);
      case SteerChatReturns(_) => ContinueKeepsControl(s, l);
      case BeginSteer(_, _) => SteerKeepsControl(s, l);
      case SteerCancelReturns(_) => SteerKeepsControl(s, l);
      case SteerJoinReturns => SteerKeepsControl(s, l);
      case Chunk(_) => ConsumerKeepsControl(s, l);
      case ConsumerEnds(_, _) => ConsumerKeepsControl(s, l);
      case _ => StopKeepsControl(s, l);
    }
  }

  lemma StartedKeepsLog(s: State)
    requires Inv(s) && s.lock.SendChat?
    ensures Scan(Apply(s, SendChatReturns(true)).events) == Some(Expected(Apply(s, SendChatReturns(true))))
  {
    hide Scan, Control;
    ControlHolder(s);
    var e, f := Started, Accepted(s.lock.input);
    ScanOne(s.events, e);
    ScanOne(s.events + [e], f);
    assert [] + [s.lock.input] == [s.lock.input];
  }

  lemma ContinuedKeepsLog(s: State)
    requires Inv(s) && s.lock.SteerChat?
    ensures Scan(Apply(s, SteerChatReturns(true)).events) == Some(Expected(Apply(s, SteerChatReturns(true))))
  {
    hide Scan, Control;
    ControlHolder(s);
    var e := Accepted(s.lock.input);
    ScanOne(s.events, e);
    ScanOne(s.events + [e], Continued(s.inputIds + [s.lock.input]));
  }

  lemma ControlHolder(s: State)
    requires Control(s)
    ensures HolderInv(s)
  {
  }

  lemma OthersKeepLog(s: State, l: Label)
    requires Inv(s) && Enabled(s, l) && CancelOk(s, l) && !l.SendChatReturns? && !(l.SteerChatReturns? && l.ok)
    ensures Scan(Apply(s, l).events) == Some(Expected(Apply(s, l)))
  {
    hide Scan;
    if l.Chunk? { ScanOne(s.events, Delta); }
    ScanOne(s.events, Uncertain(s.inputIds));
    ScanOne(s.events, Completed(s.inputIds));
    ScanOne(s.events, Error(s.inputIds));
    ScanOne(s.events, Cancelled(s.inputIds));
  }

  lemma StepKeepsInv(s: State, l: Label)
    requires Inv(s) && Enabled(s, l) && CancelOk(s, l)
    ensures Inv(Apply(s, l))
  {
    StepKeepsControl(s, l);
    hide Scan, Control;
    if l == SendChatReturns(true) { StartedKeepsLog(s); }
    else if l == SteerChatReturns(true) { ContinuedKeepsLog(s); }
    else if !l.SendChatReturns? { OthersKeepLog(s, l); }
  }

  lemma ReasonsMove(s: State, l: Label)
    requires s.activeTurn == s.active && (s.active.Some? ==> s.active.value in s.reasons) && Enabled(s, l)
    ensures var r := Apply(s, l).reasons;
      || r == s.reasons || r == s.reasons[|s.reasons| := NoReason]
      || (s.active.Some? && (r == s.reasons[s.active.value := Steer] || r == s.reasons[s.active.value := Stop]))
  {
  }

  lemma StepKeepsReasons(s: State, l: Label)
    requires Control(s) && Enabled(s, l)
    ensures Numbered(Apply(s, l))
  {
    hide Apply, HolderInv, Enabled;
    ReasonsMove(s, l);
  }

  lemma {:induction false} StretchKeepsInv(s: State, states: seq<State>, labels: seq<Label>, n: nat)
    requires Inv(s) && Goes(s, states, labels) && Benign(s, states, labels) && n < |states|
    ensures Inv(states[n])
  {
    if n > 0 {
      hide Enabled, Apply, Inv, CancelOk;
      StretchKeepsInv(s, states, labels, n - 1);
      StepKeepsInv(states[n - 1], labels[n - 1]);
    }
  }

  lemma RunKeepsInv(states: seq<State>, labels: seq<Label>, n: nat)
    requires IsRun(states, labels) && Benign(START, states, labels) && n < |states|
    ensures Inv(states[n])
  {
    StretchKeepsInv(START, states, labels, n);
  }

  /** At every moment the log is one turn after another, each closed by exactly one terminal event
      that lists exactly the inputs accepted in it, and the last one is open exactly when busy. */
  lemma LogIsTurns(states: seq<State>, labels: seq<Label>, n: nat)
    requires IsRun(states, labels) && Benign(START, states, labels) && n < |states|
    ensures Scan(states[n].events) == Some(if states[n].busy then Open(states[n].inputIds) else Closed)
  {
    RunKeepsInv(states, labels, n);
  }

  /** Whenever nobody holds the lock, busy means exactly that a consumer is active, and it is the
      only one running; the turn dictionary is never missing when a consumer is there. */
  lemma BusyMeansConsumer(states: seq<State>, labels: seq<Label>, n: nat)
    requires IsRun(states, labels) && Benign(START, states, labels) && n < |states|
    ensures var s := states[n];
      && (s.lock == Free ==> (s.busy <==> s.active.Some?))
      && s.running == (if s.active.Some? then {s.active.value} else {})
      && s.activeTurn == s.active
  {
    RunKeepsInv(states, labels, n);
  }

  // ---------------------------------------------------------------- the same in plain terms

  /** From a `turn.started` at `i`: a terminal event at `k` with the inputs accepted since `i` as its
      ids, no other start or end between, and after it nothing but the next start. */
  ghost predicate EndsAt(events: seq<Event>, i: nat, k: nat) {
    && i < k < |events| && events[i] == Started && Terminal(events[k])
    && (forall j :: i < j < k ==> !Terminal(events[j]) && events[j] != Started)
    && IdsOf(events[k]) == AcceptedIn(events[i..k])
    && (k + 1 < |events| ==> events[k + 1] == Started)
  }

  function IdsOf(e: Event): seq<Input>
    requires Terminal(e)
  {
    e.ids
  }

  /** What an accepted log with an open turn looks like. */
  lemma {:induction false} OpenSince(events: seq<Event>) returns (i: nat)
    requires Scan(events).Some? && Scan(events).value.Open?
    ensures i < |events| && events[i] == Started
    ensures forall j :: i < j < |events| ==> !Terminal(events[j]) && events[j] != Started
    ensures AcceptedIn(events[i..]) == Scan(events).value.ids
  {
    var n := |events| - 1;
    var rest, last := events[..n], events[n];
    if last == Started {
      i := n;
      assert events[n..] == [Started];
      assert [Started][..0] == [];
    } else {
      i := OpenSince(rest);
      assert events[i..][..|events[i..]| - 1] == rest[i..];
    }
  }

  /** In an accepted log every started turn but an open last one ends, exactly once. */
  lemma {:induction false} StartedEnds(events: seq<Event>, i: nat) returns (k: nat)
    requires Scan(events) == Some(Closed) && i < |events| && events[i] == Started
    ensures EndsAt(events, i, k)
    decreases |events|
  {
    hide AcceptedIn, Read, EndsAt;
    var n := |events| - 1;
    var rest := events[..n];
    ClosedByTerminal(events);
    var j := OpenSince(rest);
    if i == j {
      k := n;
      assert rest[i..] == events[i..k];
      LastEnds(events, i);
    } else {
      var cut := CutBefore(rest, j);
      assert rest[..j] == events[..j] && events[j] == rest[j] == Started;
      k := StartedEnds(events[..j], i);
      EndsLater(events, j, i, k);
    }
  }

  lemma LastEnds(events: seq<Event>, i: nat)
    requires events != [] && i < |events| - 1 && events[i] == Started && Terminal(events[|events| - 1])
    requires forall j :: i < j < |events| - 1 ==> !Terminal(events[j]) && events[j] != Started
    requires IdsOf(events[|events| - 1]) == AcceptedIn(events[i..|events| - 1])
    ensures EndsAt(events, i, |events| - 1)
  {
  }

  /** A turn that ended before a later start has ended in the longer log too. */
  lemma EndsLater(events: seq<Event>, j: nat, i: nat, k: nat)
    requires j < |events| && events[j] == Started && EndsAt(events[..j], i, k)
    ensures EndsAt(events, i, k)
  {
    hide AcceptedIn;
    var before := events[..j];
    assert forall m :: 0 <= m < j ==> before[m] == events[m];
    assert before[i..k] == events[i..k];
  }

  lemma ClosedByTerminal(events: seq<Event>)
    requires Scan(events) == Some(Closed) && events != []
    ensures var n := |events| - 1;
      Scan(events[..n]).Some? && Scan(events[..n]).value.Open? && Terminal(events[n])
        && IdsOf(events[n]) == Scan(events[..n]).value.ids
  {
  }

  /** Before a start the log was closed. */
  lemma {:induction false} CutBefore(events: seq<Event>, j: nat) returns (t: TurnState)
    requires Scan(events).Some? && j < |events| && events[j] == Started
    ensures Scan(events[..j]) == Some(Closed)
  {
    t := Closed;
    var n := |events| - 1;
    if j < n {
      t := CutBefore(events[..n], j);
      assert events[..n][..j] == events[..j];
    }
  }

  /** Whenever the bridge is not busy, every turn that was started has ended exactly once. */
  lemma TurnsEnd(states: seq<State>, labels: seq<Label>, n: nat, i: nat) returns (k: nat)
    requires IsRun(states, labels) && Benign(START, states, labels) && n < |states| && !states[n].busy
    requires i < |states[n].events| && states[n].events[i] == Started
    ensures EndsAt(states[n].events, i, k)
  {
    LogIsTurns(states, labels, n);
    k := StartedEnds(states[n].events, i);
  }

  // ---------------------------------------------------------------- when cancel() raises

  /** What the results above say of a state. */
  ghost predicate Sane(s: State) {
    Scan(s.events) == Some(Expected(s)) && (s.lock == Free ==> (s.busy <==> s.active.Some?))
  }

  /** And of everything that can follow, as long as no later `cancel()` does harm. */
  ghost predicate SaneFrom(s: State) {
    forall states, labels ::
      Goes(s, states, labels) && Benign(s, states, labels) ==> Sane(states[|states| - 1])
  }

  /** Busy with nobody to end the turn: send, steer and interrupt are all refused. */
  predicate Wedged(s: State) {
    s.busy && s.active.None? && s.lock == Free && s.running == {}
  }

  /** A wedged bridge stays exactly as it is, whatever is asked of it. */
  lemma {:induction false} StaysWedged(s: State, states: seq<State>, labels: seq<Label>, n: nat)
    requires Wedged(s) && Goes(s, states, labels) && n < |states|
    ensures states[n] == s
  {
    if n > 0 { StaysWedged(s, states, labels, n - 1); }
  }

  /** A steer whose `cancel()` raises under a running consumer declares the turn uncertain, and that
      consumer can end it again. */
  lemma SteerEndsTwice(s: State)
    requires Inv(s) && s.lock.SteerCancel? && s.lock.task in s.running
    ensures var t := Apply(s, SteerCancelReturns(false));
      && Enabled(t, ConsumerEnds(s.lock.task, Raised))
      && Scan(Apply(t, ConsumerEnds(s.lock.task, Raised)).events) == None
  {
    hide Scan;
    var e, f := Uncertain(s.inputIds), Error(s.inputIds);
    ScanOne(s.events, e);
    ScanOne(s.events + [e], f);
  }

  /** An interrupt whose `cancel()` raises before the turn has ended leaves it to its consumer, which
      no longer ends it when it runs out of chunks: the bridge is wedged. */
  lemma StopWedges(s: State)
    requires Inv(s) && s.lock.StopCancel? && s.busy
    ensures var t := Apply(s, StopCancelReturns(false));
      if s.lock.task in s.running
      then Enabled(t, ConsumerEnds(s.lock.task, Exhausted)) && Wedged(Apply(t, ConsumerEnds(s.lock.task, Exhausted)))
      else Wedged(t)
  {
    hide Scan;
  }

  /** One more step shows that not all is sane from here. */
  lemma StepNotSane(s: State, l: Label)
    requires Enabled(s, l) && CancelReturns(l) && !Sane(Apply(s, l))
    ensures !SaneFrom(s)
  {
    hide Sane, Apply, Enabled;
    var states, labels := [s, Apply(s, l)], [l];
    assert Goes(s, states, labels) && Benign(s, states, labels);
  }

  lemma NotSaneNow(s: State)
    requires !Sane(s)
    ensures !SaneFrom(s)
  {
    hide Sane;
    var states, labels: seq<Label> := [s], [];
    assert Goes(s, states, labels) && Benign(s, states, labels);
  }

  lemma InvIsSane(s: State)
    requires Inv(s)
    ensures SaneFrom(s)
  {
    forall states, labels | Goes(s, states, labels) && Benign(s, states, labels) ensures Sane(states[|states| - 1]) {
      StretchKeepsInv(s, states, labels, |states| - 1);
    }
  }

  /** A raising `cancel()` leaves the invariant standing exactly where it does no harm. */
  lemma RaisingKeepsInv(s: State, l: Label)
    requires Inv(s) && Enabled(s, l) && !CancelReturns(l)
    ensures Inv(Apply(s, l)) <==> CancelOk(s, l)
  {
    if CancelOk(s, l) { StepKeepsInv(s, l); }
    hide Scan, Numbered;
  }

  /** In any run, a `cancel()` that raises is harmless, whatever follows, if and only if it raises in
      steer after the consumer has ended or in interrupt after the turn has ended. */
  lemma RaisingCancelExact(states: seq<State>, labels: seq<Label>, n: nat, l: Label)
    requires IsRun(states, labels) && Benign(START, states, labels) && n < |states|
    requires Enabled(states[n], l) && !CancelReturns(l)
    ensures SaneFrom(Apply(states[n], l)) <==> CancelOk(states[n], l)
  {
    RunKeepsInv(states, labels, n);
    var s := states[n];
    RaisingKeepsInv(s, l);
    hide Apply, Inv, Sane, SaneFrom, Goes, Benign, Wedged, Scan;
    if CancelOk(s, l) {
      InvIsSane(Apply(s, l));
    } else if l.SteerCancelReturns? {
      SteerEndsTwice(s);
      RejectedNotSane(Apply(Apply(s, l), ConsumerEnds(s.lock.task, Raised)));
      StepNotSane(Apply(s, l), ConsumerEnds(s.lock.task, Raised));
    } else {
      StopWedges(s);
      if s.lock.task in s.running {
        WedgedNotSane(Apply(Apply(s, l), ConsumerEnds(s.lock.task, Exhausted)));
        StepNotSane(Apply(s, l), ConsumerEnds(s.lock.task, Exhausted));
      } else {
        WedgedNotSane(Apply(s, l));
        NotSaneNow(Apply(s, l));
      }
    }
  }

  lemma RejectedNotSane(s: State)
    requires Scan(s.events) == None
    ensures !Sane(s)
  {
  }

  lemma WedgedNotSane(s: State)
    requires Wedged(s)
    ensures !Sane(s)
  {
  }

  // ---------------------------------------------------------------- what an event says

  /** Step `l` is what the event tells of: a turn is completed when its consumer ran out of chunks and
      nobody had asked it to stop, and so on for every kind. */
  predicate Tells(s: State, l: Label, e: Event)
    requires Enabled(s, l)
  {
    match e
    case Started => l == SendChatReturns(true)
    case Accepted(input) => (l == SendChatReturns(true) || l == SteerChatReturns(true)) && s.lock.input == input
    case Continued(ids) => l == SteerChatReturns(true) && ids == s.inputIds + [s.lock.input]
    case Delta => l.Chunk?
    case Completed(ids) =>
      l.ConsumerEnds? && l.ending == Exhausted && ReasonOf(s, l.task) == NoReason && ids == s.inputIds
    case Error(ids) => l.ConsumerEnds? && l.ending == Raised && ids == s.inputIds
    case Cancelled(ids) =>
      && ids == s.inputIds
      && (l == StopJoinReturns
          || (l.ConsumerEnds? && l.ending in {SdkCancelled, TaskCancelled} && ReasonOf(s, l.task) != Steer))
    case Uncertain(ids) =>
      (l == SteerCancelReturns(false) || l == SteerChatReturns(false)) && s.busy && ids == s.inputIds
  }

  lemma StepTells(s: State, l: Label, k: nat)
    requires Enabled(s, l) && |s.events| <= k < |Apply(s, l).events|
    ensures Tells(s, l, Apply(s, l).events[k])
  {
    if l.ConsumerEnds? {
      if l.ending == Exhausted { ExhaustedTells(s, l, k); } else { EndTells(s, l, k); }
    }
    else if l.SendChatReturns? || l.SteerChatReturns? { ChatTells(s, l, k); }
    else if l.SteerCancelReturns? { GivingUpTells(s, l, k); }
  }

  lemma ExhaustedTells(s: State, l: Label, k: nat)
    requires Enabled(s, l) && l.ConsumerEnds? && l.ending == Exhausted && |s.events| <= k < |Apply(s, l).events|
    ensures Tells(s, l, Apply(s, l).events[k])
  {
  }

  lemma EndTells(s: State, l: Label, k: nat)
    requires Enabled(s, l) && l.ConsumerEnds? && l.ending != Exhausted && |s.events| <= k < |Apply(s, l).events|
    ensures Tells(s, l, Apply(s, l).events[k])
  {
  }

  lemma ChatTells(s: State, l: Label, k: nat)
    requires Enabled(s, l) && (l.SendChatReturns? || l.SteerChatReturns?) && |s.events| <= k < |Apply(s, l).events|
    ensures Tells(s, l, Apply(s, l).events[k])
  {
  }

  lemma GivingUpTells(s: State, l: Label, k: nat)
    requires Enabled(s, l) && l.SteerCancelReturns? && |s.events| <= k < |Apply(s, l).events|
    ensures Tells(s, l, Apply(s, l).events[k])
  {
  }

  lemma StepKeepsLog(s: State, l: Label)
    requires Enabled(s, l)
    ensures s.events <= Apply(s, l).events
  {
  }

  /** Over every run, whatever `cancel()` does: each event of the log was logged by a step that it tells of. */
  lemma {:induction false} EventsTell(states: seq<State>, labels: seq<Label>, n: nat, k: nat) returns (i: nat)
    requires IsRun(states, labels) && n < |states| && k < |states[n].events|
    ensures i < n && Tells(states[i], labels[i], states[n].events[k])
  {
    hide Apply, Tells, Enabled;
    if n > 0 {
      StepKeepsLog(states[n - 1], labels[n - 1]);
      if k < |states[n - 1].events| {
        i := EventsTell(states, labels, n - 1, k);
      } else {
        i := n - 1;
        StepTells(states[n - 1], labels[n - 1], k);
      }
    }
  }

  // ---------------------------------------------------------------- the bridge itself

  /** What a chunk of a response is. */
  datatype Chunks = Text(text: string) | ToolCall | OtherChunk

  predicate Shown(c: Chunks) {
    (c.Text? && c.text != "") || c.ToolCall?
  }

  /** `n` events inside a turn. */
  function Deltas(n: nat): seq<Event> {
    if n == 0 then [] else Deltas(n - 1) + [Delta]
  }

  function CountShown(chunks: seq<Chunks>): nat {
    if chunks == [] then 0
    else CountShown(chunks[..|chunks| - 1]) + (if Shown(chunks[|chunks| - 1]) then 1 else 0)
  }

  /** A consumer that ends leaves its turn open only where somebody else asked for that. */
  predicate LeavesOpen(reason: Reason, ending: Ending) {
    (ending == Exhausted && reason != NoReason)
      || ((ending == SdkCancelled || ending == TaskCancelled) && reason == Steer)
  }

  /** What such a consumer logs at its end. */
  function Closing(reason: Reason, ending: Ending, ids: seq<Input>): seq<Event> {
    if LeavesOpen(reason, ending) then []
    else match ending
      case Exhausted => [Completed(ids)]
      case Raised => [Error(ids)]
      case _ => [Cancelled(ids)]
  }

  /** The bridge object. Its fields are those of the source and, for each task, where it stands:
      `lock` is the holder and the await it is at, `reasons` and `running` the consumers' turns and
      whether they run. Each method is the code of `send`, `steer`, `interrupt` or `consume` between
      two awaits; it takes the step of that name and keeps the log a list of turns. */
  class Bridge {
    var busy: bool
    var active: Option<Task>
    var activeTurn: Option<Task>
    var inputIds: seq<Input>
    var reasons: map<Task, Reason>
    var running: set<Task>
    var lock: Holder
    var events: seq<Event>

    ghost function Now(): State
      reads this
    {
      State(busy, active, activeTurn, inputIds, reasons, running, lock, events)
    }

    ghost predicate Valid()
      reads this
    {
      Inv(Now())
    }

    /** The turn the log says is open. */
    ghost function Turn(): Option<TurnState>
      reads this
    {
      Scan(events)
    }

    constructor ()
      ensures Valid() && Now() == START && Turn() == Some(Closed)
    {
      busy, active, activeTurn, inputIds := false, None, None, [];
      reasons, running, lock, events := map[], {}, Free, [];
    }

    method Emits(e: Event)
      modifies `events
      ensures events == old(events) + [e]
    {
      events := events + [e];
    }

    method StartConsumer()
      modifies `active, `activeTurn, `reasons, `running
      ensures Now() == Consume(old(Now()))
    {
      var t := |reasons|;
      activeTurn := Some(t);
      reasons := reasons[t := NoReason];
      active := Some(t);
      running := running + {t};
    }

    /** Refused exactly while a turn is open or the content cannot be read; the log stays. */
    method SendBegins(input: Input, contentOk: bool) returns (refused: bool)
      requires Valid() && lock == Free
      modifies `lock
      ensures Valid() && Now() == Apply(old(Now()), BeginSend(input, contentOk))
      ensures refused <==> Turn() != Some(Closed) || !contentOk
      ensures refused <==> lock == Free
    {
      hide Inv, Scan, Control, HolderInv;
      ghost var next := Apply(Now(), BeginSend(input, contentOk));
      StepKeepsInv(Now(), BeginSend(input, contentOk));
      LogAndControl(Now());
      HolderFacts(Now());
      LogAndControl(next);
      HolderFacts(next);
      if busy { return true; }
      if !contentOk { return true; }
      lock := SendChat(input);
      refused := false;
    }

    /** A new turn with this one input is open and consumed, or none was opened. */
    method SendResumes(ok: bool)
      requires Valid() && lock.SendChat?
      modifies this
      ensures Valid() && Now() == Apply(old(Now()), SendChatReturns(ok))
      ensures lock == Free && Turn() == Some(if ok then Open([old(lock.input)]) else Closed)
      ensures if ok then active.Some? && old(active.None?) else events == old(events)
    {
      hide Inv, Scan, Control, HolderInv, Expected;
      AfterSend(Now(), ok);
      ghost var next := Apply(Now(), SendChatReturns(ok));
      StepKeepsInv(Now(), SendChatReturns(ok));
      if ok {
        var input := lock.input;
        busy := true;
        inputIds := [input];
        Emits(Started);
        Emits(Accepted(input));
        StartConsumer();
      }
      lock := Free;
      assert Now() == next;
    }

    /** Refused exactly without an open turn or readable content; else the consumer knows. */
    method SteerBegins(input: Input, contentOk: bool) returns (refused: bool)
      requires Valid() && lock == Free
      modifies `lock, `reasons
      ensures Valid() && Now() == Apply(old(Now()), BeginSteer(input, contentOk))
      ensures refused <==> Turn() == Some(Closed) || !contentOk
      ensures !refused ==>
                active.Some? && lock == SteerCancel(active.value, input) && ReasonOf(Now(), active.value) == Steer
    {
      hide Inv, Scan, Control, HolderInv;
      ghost var next := Apply(Now(), BeginSteer(input, contentOk));
      StepKeepsInv(Now(), BeginSteer(input, contentOk));
      LogAndControl(Now());
      HolderFacts(Now());
      LogAndControl(next);
      HolderFacts(next);
      if !busy || active.None? { return true; }
      if !contentOk { return true; }
      if activeTurn.None? { return true; }
      reasons := reasons[activeTurn.value := Steer];
      lock := SteerCancel(active.value, input);
      refused := false;
    }

    /** The exception handler of steer. */
    method SteerGivesUp()
      modifies `busy, `lock, `events
      ensures Now() == SteerFailed(old(Now()))
    {
      if busy {
        busy := false;
        Emits(Uncertain(inputIds));
      }
      lock := Free;
    }

    /** Steer goes on to wait for the same consumer. If `cancel()` raised, the turn is closed, and the
        bridge is sound exactly when that consumer had already ended. */
    method SteerCancelled(ok: bool)
      requires Valid() && lock.SteerCancel?
      modifies `busy, `lock, `events
      ensures Now() == Apply(old(Now()), SteerCancelReturns(ok))
      ensures Valid() <==> ok || old(lock.task) !in running
      ensures ok ==> lock == SteerJoin(old(lock.task), old(lock.input)) && events == old(events)
      ensures !ok ==> lock == Free && Turn() == Some(Closed)
    {
      hide Inv, Scan, Control, HolderInv;
      if ok { StepKeepsInv(Now(), SteerCancelReturns(ok)); } else { RaisingKeepsInv(Now(), SteerCancelReturns(ok)); }
      LogAndControl(Now());
      ScanOne(events, Uncertain(inputIds));
      if ok { lock := SteerJoin(lock.task, lock.input); } else { SteerGivesUp(); }
    }

    /** Steer asks the SDK again exactly when the ended consumer left its turn open. */
    method SteerJoined()
      requires Valid() && lock.SteerJoin? && lock.task !in running
      modifies `busy, `lock, `events
      ensures Valid() && Now() == Apply(old(Now()), SteerJoinReturns)
      ensures events == old(events)
      ensures lock == if Turn() == Some(Closed) then Free else SteerChat(old(lock.input))
    {
      hide Inv, Scan, Control, HolderInv;
      ghost var next := Apply(Now(), SteerJoinReturns);
      StepKeepsInv(Now(), SteerJoinReturns);
      LogAndControl(Now());
      HolderFacts(Now());
      LogAndControl(next);
      HolderFacts(next);
      if !busy { SteerGivesUp(); } else { lock := SteerChat(lock.input); }
    }

    /** The open turn has one input more and a new consumer, or it is closed as uncertain. */
    method SteerResumes(ok: bool)
      requires Valid() && lock.SteerChat?
      modifies this
      ensures Valid() && Now() == Apply(old(Now()), SteerChatReturns(ok))
      ensures old(Turn()) == Some(Open(old(inputIds))) && lock == Free
      ensures ok ==> active.Some? && Turn() == Some(Open(old(inputIds) + [old(lock.input)]))
      ensures !ok ==> Turn() == Some(Closed) && events == old(events) + [Uncertain(old(inputIds))]
    {
      hide Inv, Scan, Control, HolderInv, Expected;
      AfterSteer(Now(), ok);
      ghost var next := Apply(Now(), SteerChatReturns(ok));
      StepKeepsInv(Now(), SteerChatReturns(ok));
      if ok {
        inputIds := inputIds + [lock.input];
        Emits(Accepted(lock.input));
        Emits(Continued(inputIds));
        StartConsumer();
        lock := Free;
        assert Now() == next;
      } else {
        SteerGivesUp();
        assert Now() == next;
      }
    }

    /** Refused exactly without an open turn; else the consumer knows. */
    method StopBegins() returns (refused: bool)
      requires Valid() && lock == Free
      modifies `lock, `reasons
      ensures Valid() && Now() == Apply(old(Now()), BeginStop)
      ensures refused <==> Turn() == Some(Closed)
      ensures !refused ==> active.Some? && lock == StopCancel(active.value) && ReasonOf(Now(), active.value) == Stop
    {
      hide Inv, Scan, Control, HolderInv;
      ghost var next := Apply(Now(), BeginStop);
      StepKeepsInv(Now(), BeginStop);
      LogAndControl(Now());
      HolderFacts(Now());
      LogAndControl(next);
      HolderFacts(next);
      if !busy || active.None? { return true; }
      if activeTurn.None? { return true; }
      reasons := reasons[activeTurn.value := Stop];
      lock := StopCancel(active.value);
      refused := false;
    }

    /** Interrupt goes on to wait for the same consumer. If `cancel()` raised, the bridge is sound
        exactly when the turn had already ended. */
    method StopCancelled(ok: bool)
      requires Valid() && lock.StopCancel?
      modifies `lock
      ensures Now() == Apply(old(Now()), StopCancelReturns(ok))
      ensures Valid() <==> ok || Turn() == Some(Closed)
      ensures lock == if ok then StopJoin(old(lock.task)) else Free
    {
      hide Inv, Scan, Control, HolderInv;
      if ok { StepKeepsInv(Now(), StopCancelReturns(ok)); } else { RaisingKeepsInv(Now(), StopCancelReturns(ok)); }
      LogAndControl(Now());
      lock := if ok then StopJoin(lock.task) else Free;
    }

    /** After an interrupt no turn is open, whichever way its consumer ended; a turn the consumer left
        open is ended as cancelled. */
    method StopJoined()
      requires Valid() && lock.StopJoin? && lock.task !in running
      modifies `busy, `lock, `events
      ensures Valid() && Now() == Apply(old(Now()), StopJoinReturns)
      ensures lock == Free && Turn() == Some(Closed)
      ensures events == old(events) + if old(Turn()) == Some(Closed) then [] else [Cancelled(old(inputIds))]
    {
      hide Inv, Scan, Control, HolderInv;
      ghost var next := Apply(Now(), StopJoinReturns);
      StepKeepsInv(Now(), StopJoinReturns);
      LogAndControl(Now());
      HolderFacts(Now());
      LogAndControl(next);
      HolderFacts(next);
      if busy {
        busy := false;
        Emits(Cancelled(inputIds));
      }
      lock := Free;
    }

    /** What `consume` does once its loop has ended: its turn is closed unless somebody asked for it to
        be left open, and nobody is active any more. */
    method ConsumeEnds(task: Task, ending: Ending)
      requires Valid() && task in running
      modifies `busy, `active, `activeTurn, `running, `events
      ensures Valid() && Now() == Apply(old(Now()), ConsumerEnds(task, ending))
      ensures running == {} && active.None?
      ensures events == old(events) + Closing(ReasonOf(Now(), task), ending, inputIds)
      ensures Turn() == Some(if LeavesOpen(ReasonOf(Now(), task), ending) then Open(inputIds) else Closed)
    {
      hide Inv, Scan, Control, HolderInv;
      ghost var next := Apply(Now(), ConsumerEnds(task, ending));
      StepKeepsInv(Now(), ConsumerEnds(task, ending));
      LogAndControl(Now());
      HolderFacts(Now());
      LogAndControl(next);
      HolderFacts(next);
      match ending {
        case Exhausted =>
          if reasons[task] == NoReason {
            busy := false;
            Emits(Completed(inputIds));
          }
        case Raised =>
          busy := false;
          Emits(Error(inputIds));
        case _ =>
          if reasons[task] != Steer {
            busy := false;
            Emits(Cancelled(inputIds));
          }
      }
      running := running - {task};
      if active == Some(task) {
        active := None;
        activeTurn := None;
      }
      assert Now() == next;
    }

    /** `consume` from its first chunk to its end, when nothing else runs meanwhile: one event for
        each chunk with text or a tool call, then the end of the turn. */
    method ConsumeAll(task: Task, chunks: seq<Chunks>, ending: Ending)
      requires Valid() && task in running
      modifies `busy, `active, `activeTurn, `running, `events
      ensures Valid() && running == {} && active.None?
      ensures Turn() == Some(if LeavesOpen(ReasonOf(Now(), task), ending) then Open(inputIds) else Closed)
      ensures events == old(events) + Deltas(CountShown(chunks)) + Closing(ReasonOf(Now(), task), ending, inputIds)
    {
      hide Inv, Scan, Control;
      var n := 0;
      assert chunks[..0] == [] && events + [] == events;
      while n < |chunks|
        invariant 0 <= n <= |chunks| && Valid() && task in running
        invariant events == old(events) + Deltas(CountShown(chunks[..n]))
        invariant reasons == old(reasons)
      {
        assert chunks[..n + 1][..n] == chunks[..n];
        if Shown(chunks[n]) {
          StepKeepsInv(Now(), Chunk(task));
          Emits(Delta);
        }
        n := n + 1;
      }
      assert chunks[..n] == chunks;
      ConsumeEnds(task, ending);
    }
  }

  /** What callers use of the invariant. */
  lemma LogAndControl(s: State)
    requires Inv(s)
    ensures Scan(s.events) == Some(Expected(s)) && s.activeTurn == s.active
    ensures s.running == (if s.active.Some? then {s.active.value} else {})
    ensures s.active.Some? ==> s.busy && s.active.value in s.reasons
  {
    hide Scan, HolderInv, Numbered;
  }

  lemma AfterSend(s: State, ok: bool)
    requires Inv(s) && s.lock.SendChat?
    ensures var t := Apply(s, SendChatReturns(ok));
      && Scan(t.events) == Some(if ok then Open([s.lock.input]) else Closed) && s.active.None?
      && if ok then t.active.Some? else t.events == s.events
  {
    hide Scan;
    StepKeepsInv(s, SendChatReturns(ok));
  }

  lemma AfterSteer(s: State, ok: bool)
    requires Inv(s) && s.lock.SteerChat?
    ensures var t := Apply(s, SteerChatReturns(ok));
      && Scan(s.events) == Some(Open(s.inputIds))
      && if ok then t.active.Some? && Scan(t.events) == Some(Open(s.inputIds + [s.lock.input]))
         else Scan(t.events) == Some(Closed) && t.events == s.events + [Uncertain(s.inputIds)]
  {
    hide Scan;
    StepKeepsInv(s, SteerChatReturns(ok));
  }

  lemma HolderFacts(s: State)
    requires Inv(s)
    ensures s.lock == Free ==> (s.busy <==> s.active.Some?)
    ensures s.lock.SendChat? ==> !s.busy && s.active.None?
    ensures s.lock.SteerChat? ==> s.busy && s.active.None?
    ensures s.lock.SteerCancel? || s.lock.StopCancel? ==> s.active == Some(s.lock.task) || s.active.None?
  {
    hide Scan, Numbered;
  }

  // ---------------------------------------------------------------- both kinds of harm happen

  /** When `cancel()` raises inside steer, the turn is declared uncertain while its consumer still
      runs, and the consumer can end it a second time. */
  lemma FailingCancelEndsTwice(a: Input, b: Input) returns (states: seq<State>, labels: seq<Label>)
    ensures IsRun(states, labels) && Scan(states[|states| - 1].events) == None
    ensures states[|states| - 1].events == [Started, Accepted(a), Uncertain([a]), Error([a])]
  {
    states, labels := FailingCancel(a, b);
    var s4 := states[4];
    var s5 := Apply(s4, ConsumerEnds(0, Raised));
    states, labels := states + [s5], labels + [ConsumerEnds(0, Raised)];
    var es := [Started, Accepted(a), Uncertain([a]), Error([a])];
    assert es[..3][..2][..1][..0] == [];
    assert es[..3][..2] == [Started, Accepted(a)] && es[..3][..2][..1] == [Started] && [] + [a] == [a];
  }

  lemma FailingCancel(a: Input, b: Input) returns (states: seq<State>, labels: seq<Label>)
    ensures IsRun(states, labels) && |states| == 5
    ensures states[4] == State(false, Some(0), Some(0), [a], map[0 := Steer], {0}, Free,
      [Started, Accepted(a), Uncertain([a])])
  {
    var s1 := Apply(START, BeginSend(a, true));
    var s2 := Apply(s1, SendChatReturns(true));
    assert s2 == State(true, Some(0), Some(0), [a], map[0 := NoReason], {0}, Free, [Started, Accepted(a)]);
    var s3 := Apply(s2, BeginSteer(b, true));
    var s4 := Apply(s3, SteerCancelReturns(false));
    states := [START, s1, s2, s3, s4];
    labels := [BeginSend(a, true), SendChatReturns(true), BeginSteer(b, true), SteerCancelReturns(false)];
  }

  /** When `cancel()` raises inside interrupt, the turn it meant to stop is never ended and nothing is
      accepted any more. */
  lemma FailingStopWedges(a: Input) returns (states: seq<State>, labels: seq<Label>)
    ensures IsRun(states, labels) && Wedged(states[|states| - 1])
    ensures states[|states| - 1].events == [Started, Accepted(a)]
  {
    var s1 := Apply(START, BeginSend(a, true));
    var s2 := Apply(s1, SendChatReturns(true));
    assert s2 == State(true, Some(0), Some(0), [a], map[0 := NoReason], {0}, Free, [Started, Accepted(a)]);
    var s3 := Apply(s2, BeginStop);
    var s4 := Apply(s3, StopCancelReturns(false));
    assert s4 == State(true, Some(0), Some(0), [a], map[0 := Stop], {0}, Free, [Started, Accepted(a)]);
    var s5 := Apply(s4, ConsumerEnds(0, Exhausted));
    states := [START, s1, s2, s3, s4, s5];
    labels := [BeginSend(a, true), SendChatReturns(true), BeginStop, StopCancelReturns(false),
      ConsumerEnds(0, Exhausted)];
  }
}
