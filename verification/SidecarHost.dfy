/** The sidecar host: callers register a request under a fresh id with a one-slot channel, write it
    to the process and wait; one reader per process pops the channel of an id and sends the reply;
    one waiter per process fails what is still pending when the process exits. A new process starts
    only when the previous waiter has finished. Each critical section and each channel operation is
    one step. */
module SidecarHost {
  import opened Prelude

  type Id = nat
  type Chan = nat
  type Body = string

  datatype Reply = Line(id: Id, body: Body) | Exited(process: nat)

  datatype Phase =
    | Writing
    | Waiting
    | Withdrawing        // write failed or context ended, about to delete its entry
    | Withdrawn
    | Abandoned          // the request could not be encoded: returned with its entry left behind
    | Received(reply: Reply)

  datatype Caller = Caller(ch: Chan, process: nat, phase: Phase)

  datatype Reader = Scanning | Holding(id: Id, ch: Chan, reply: Reply) | Finished

  datatype Waiter = Running | Failing(todo: map<Id, Chan>) | Done

  /** `buffer` holds the filled slots, `puts` every value ever sent to a channel, in order. */
  datatype State = State(
    started: nat, closed: bool, sequence: nat, chans: nat, pending: map<Id, Chan>, buffer: map<Chan, Reply>,
    callers: map<Id, Caller>, readers: map<nat, Reader>, waiters: map<nat, Waiter>, puts: map<Chan, seq<Reply>>)

  datatype Label =
    | Start
    | Register
    | EncodeFails(id: Id)
    | WriteDone(id: Id)
    | GiveUp(id: Id)                        // write error, or context done while waiting
    | Withdraw(id: Id)
    | Receive(id: Id)
    | ReadLine(process: nat, id: Id, body: Body)
    | SendReply(process: nat)
    | EndOfOutput(process: nat)
    | ProcessExit(process: nat)
    | FailOne(process: nat, id: Id)
    | WaitReturns(process: nat)

  const START := State(0, false, 0, 0, map[], map[], map[], map[], map[], map[])

  /** The process a request registered now would be failed by. */
  function Current(s: State): nat {
    if s.started == 0 then 0 else s.started - 1
  }

  function PhaseOf(s: State, id: Id): Option<Phase> {
    if id in s.callers then Some(s.callers[id].phase) else None
  }

  /** A send on a channel whose slot is taken would block, so it is not enabled. */
  predicate Enabled(s: State, l: Label) {
    match l
    case Start => s.started == 0 || (s.closed && (s.started - 1) in s.waiters && s.waiters[s.started - 1] == Done)
    case Register => !s.closed
    case EncodeFails(id) => PhaseOf(s, id) == Some(Writing)
    case WriteDone(id) => PhaseOf(s, id) == Some(Writing)
    case GiveUp(id) => PhaseOf(s, id) == Some(Writing) || PhaseOf(s, id) == Some(Waiting)
    case Withdraw(id) => PhaseOf(s, id) == Some(Withdrawing)
    case Receive(id) => PhaseOf(s, id) == Some(Waiting) && s.callers[id].ch in s.buffer
    case ReadLine(k, _, _) => k in s.readers && s.readers[k] == Scanning
    case SendReply(k) => k in s.readers && s.readers[k].Holding? && s.readers[k].ch !in s.buffer
    case EndOfOutput(k) => k in s.readers && s.readers[k] == Scanning
    case ProcessExit(k) => k in s.waiters && s.waiters[k] == Running
    case FailOne(k, id) => k in s.waiters && s.waiters[k].Failing? && id in s.waiters[k].todo
      && s.waiters[k].todo[id] !in s.buffer
    case WaitReturns(k) => k in s.waiters && s.waiters[k] == Failing(map[])
  }

  function PutsOf(s: State, ch: Chan): seq<Reply> {
    if ch in s.puts then s.puts[ch] else []
  }

  function NextCallers(s: State, l: Label): map<Id, Caller>
    requires Enabled(s, l)
  {
    match l
    case Register => s.callers[s.sequence + 1 := Caller(s.chans, Current(s), Writing)]
    case EncodeFails(id) => s.callers[id := s.callers[id].(phase := Abandoned)]
    case WriteDone(id) => s.callers[id := s.callers[id].(phase := Waiting)]
    case GiveUp(id) => s.callers[id := s.callers[id].(phase := Withdrawing)]
    case Withdraw(id) => s.callers[id := s.callers[id].(phase := Withdrawn)]
    case Receive(id) => s.callers[id := s.callers[id].(phase := Received(s.buffer[s.callers[id].ch]))]
    case _ => s.callers
  }

  function NextPending(s: State, l: Label): map<Id, Chan> {
    match l
    case Register => s.pending[s.sequence + 1 := s.chans]
    case Withdraw(id) => s.pending - {id}
    case ReadLine(_, id, _) => s.pending - {id}
    case ProcessExit(_) => map[]
    case _ => s.pending
  }

  function NextReaders(s: State, l: Label): map<nat, Reader>
    requires Enabled(s, l)
  {
    match l
    case Start => s.readers[s.started := Scanning]
    case ReadLine(k, id, body) => if id in s.pending then s.readers[k := Holding(id, s.pending[id], Line(id, body))]
      else s.readers
    case SendReply(k) => s.readers[k := Scanning]
    case EndOfOutput(k) => s.readers[k := Finished]
    case _ => s.readers
  }

  function NextWaiters(s: State, l: Label): map<nat, Waiter>
    requires Enabled(s, l)
  {
    match l
    case Start => s.waiters[s.started := Running]
    case ProcessExit(k) => s.waiters[k := Failing(s.pending)]
    case FailOne(k, id) => s.waiters[k := Failing(s.waiters[k].todo - {id})]
    case WaitReturns(k) => s.waiters[k := Done]
    case _ => s.waiters
  }

  predicate Sends(l: Label) {
    l.SendReply? || l.FailOne?
  }

  /** The channel a sending step sends to, and the value. */
  function Target(s: State, l: Label): (Chan, Reply)
    requires Enabled(s, l) && Sends(l)
  {
    if l.SendReply? then (s.readers[l.process].ch, s.readers[l.process].reply)
    else (s.waiters[l.process].todo[l.id], Exited(l.process))
  }

  function NextBuffer(s: State, l: Label): map<Chan, Reply>
    requires Enabled(s, l)
  {
    if Sends(l) then s.buffer[Target(s, l).0 := Target(s, l).1]
    else if l.Receive? then s.buffer - {s.callers[l.id].ch}
    else s.buffer
  }

  function NextPuts(s: State, l: Label): map<Chan, seq<Reply>>
    requires Enabled(s, l)
  {
    if Sends(l) then s.puts[Target(s, l).0 := PutsOf(s, Target(s, l).0) + [Target(s, l).1]] else s.puts
  }

  function Apply(s: State, l: Label): State
    requires Enabled(s, l)
  {
    var reg := if l.Register? then 1 else 0;
    State(if l.Start? then s.started + 1 else s.started, if l.Start? then false else l.ProcessExit? || s.closed,
          s.sequence + reg, s.chans + reg, NextPending(s, l), NextBuffer(s, l),
          NextCallers(s, l), NextReaders(s, l), NextWaiters(s, l), NextPuts(s, l))
  }

  ghost predicate IsRun(states: seq<State>, labels: seq<Label>) {
    && |states| == |labels| + 1 && states[0] == START
    && forall i :: 0 <= i < |labels| ==> Enabled(states[i], labels[i]) && states[i + 1] == Apply(states[i], labels[i])
  }

  // ---------------------------------------------------------------- invariants

  /** At most the newest process is not yet waited for. */
  ghost predicate Processes(s: State) {
    && (forall k :: k in s.readers <==> 0 <= k < s.started)
    && (forall k :: k in s.waiters <==> 0 <= k < s.started)
    && (forall k :: 0 <= k < s.started - 1 ==> s.waiters[k] == Done)
    && (s.closed <==> s.started > 0 && s.waiters[s.started - 1] != Running)
  }

  /** Nothing is pending once the process has exited; a process fails its own requests only. */
  ghost predicate Epochs(s: State) {
    && Processes(s)
    && (s.closed ==> s.pending == map[])
    && (forall id :: id in s.pending ==> id in s.callers && s.callers[id].process == Current(s))
    && (forall k, id :: k in s.waiters && Fails(s.waiters[k], id) ==> id in s.callers && s.callers[id].process == k)
  }

  predicate Fitting(id: Id, process: nat, r: Reply) {
    match r
    case Line(i, _) => i == id
    case Exited(k) => k == process
  }

  /** Every caller has its own channel; ids come from the sequence. */
  ghost predicate Callers(s: State) {
    && (forall id :: id in s.callers ==> 1 <= id <= s.sequence && s.callers[id].ch < s.chans)
    && (forall i, j :: i in s.callers && j in s.callers && i != j ==> s.callers[i].ch != s.callers[j].ch)
  }

  /** Nothing was ever put into the channel of `id`. */
  predicate Unsent(s: State, id: Id) {
    id in s.callers && s.callers[id].ch !in s.buffer && PutsOf(s, s.callers[id].ch) == []
  }

  /** A value was put into the channel of `id`. */
  predicate Answered(s: State, id: Id) {
    id in s.callers && PutsOf(s, s.callers[id].ch) != []
  }

  predicate Pops(r: Reader, id: Id) {
    r.Holding? && r.id == id
  }

  predicate Fails(w: Waiter, id: Id) {
    w.Failing? && id in w.todo
  }

  /** The right to send to a channel is in one place: the table, one reader, or the waiter. */
  ghost predicate Pending(s: State) {
    forall id :: id in s.pending ==> Unsent(s, id) && s.pending[id] == s.callers[id].ch
  }

  /** A reader that popped the channel of `id` has that request's channel and a line for it. */
  ghost predicate HandGood(s: State, k: nat, id: Id)
    requires k in s.readers && Pops(s.readers[k], id)
  {
    && Unsent(s, id) && id !in s.pending && s.readers[k].ch == s.callers[id].ch
    && s.readers[k].reply.Line? && s.readers[k].reply.id == id
  }

  ghost predicate Hands(s: State) {
    && (forall k, id :: k in s.readers && Pops(s.readers[k], id) ==> HandGood(s, k, id))
    && (forall j, k, id :: j in s.readers && k in s.readers && Pops(s.readers[j], id) && Pops(s.readers[k], id) ==>
          j == k)
  }

  ghost predicate ToDo(s: State) {
    && (forall k, id :: k in s.waiters && Fails(s.waiters[k], id) ==>
          Unsent(s, id) && id !in s.pending && s.waiters[k].todo[id] == s.callers[id].ch)
    && (forall j, k, id :: j in s.readers && k in s.waiters && Pops(s.readers[j], id) ==> !Fails(s.waiters[k], id))
  }

  /** What was put into the channel of `id`: at most one value, meant for it, and it is what the
      slot holds or what the caller received. */
  predicate Proper(id: Id, c: Caller, puts: seq<Reply>, slot: Option<Reply>) {
    && |puts| <= 1
    && (|puts| == 1 ==> Fitting(id, c.process, puts[0]))
    && (slot.Some? ==> puts == [slot.value])
    && (|puts| == 1 && slot.None? ==> c.phase.Received?)
    && (c.phase.Received? ==> puts == [c.phase.reply])
  }

  function Slot(s: State, ch: Chan): Option<Reply> {
    if ch in s.buffer then Some(s.buffer[ch]) else None
  }

  ghost predicate Contents(s: State) {
    forall id :: id in s.callers ==> ProperNow(s, id)
  }

  ghost predicate NoneBeyond(s: State) {
    && (forall c :: c in s.buffer ==> c < s.chans)
    && (forall c :: c in s.puts ==> c < s.chans)
  }

  /** Some reader popped the channel of `id` and has not sent yet. */
  ghost predicate InHand(s: State, id: Id) {
    exists k :: k in s.readers && Pops(s.readers[k], id)
  }

  ghost predicate ToFail(s: State, id: Id) {
    exists k :: k in s.waiters && Fails(s.waiters[k], id)
  }

  predicate Left(s: State, id: Id) {
    id in s.callers && s.callers[id].phase == Withdrawn
  }

  /** Every request ever registered is accounted for. */
  ghost predicate Accounted(s: State) {
    forall id :: id in s.callers ==> id in s.pending || InHand(s, id) || ToFail(s, id) || Answered(s, id) || Left(s, id)
  }

  ghost predicate Inv(s: State) {
    Epochs(s) && Callers(s) && NoneBeyond(s) && Pending(s) && Hands(s) && ToDo(s) && Contents(s) && Accounted(s)
  }

  lemma StepKeepsProcesses(s: State, l: Label)
    requires Processes(s) && Enabled(s, l)
    ensures Processes(Apply(s, l))
  {
    hide NextBuffer, NextPuts, NextCallers, NextPending;
  }

  lemma StepKeepsEpochs(s: State, l: Label)
    requires Epochs(s) && Callers(s) && Enabled(s, l)
    ensures Epochs(Apply(s, l))
  {
    hide NextBuffer, NextPuts, NextReaders, NextWaiters, NextCallers, NextPending, Processes, Callers;
    var t := Apply(s, l);
    StepKeepsProcesses(s, l);
    ExitClears(s, l);
    forall id | id in t.pending ensures id in t.callers && t.callers[id].process == Current(t) {
      PendingOrigin(s, l, id);
      if l.Start? && s.started > 0 { StartClears(s); }
      CallerStays(s, l, id);
    }
    forall k, id | k in t.waiters && Fails(t.waiters[k], id) ensures id in t.callers && t.callers[id].process == k {
      FailOrigin(s, l, k, id);
      if l.ProcessExit? { RunningIsCurrent(s, l.process); }
      CallerStays(s, l, id);
    }
  }

  lemma ExitClears(s: State, l: Label)
    requires Epochs(s) && Enabled(s, l)
    ensures Apply(s, l).closed ==> Apply(s, l).pending == map[]
  {
    hide NextReaders, NextWaiters, NextCallers, NextBuffer, NextPuts;
  }

  lemma StartClears(s: State)
    requires Epochs(s) && Enabled(s, Start) && s.started > 0
    ensures s.pending == map[]
  {
  }

  lemma RunningIsCurrent(s: State, k: nat)
    requires Processes(s) && k in s.waiters && s.waiters[k] == Running
    ensures k == Current(s)
  {
  }

  lemma CallerStays(s: State, l: Label, id: Id)
    requires Callers(s) && Enabled(s, l)
    ensures id in s.callers ==> id in NextCallers(s, l) && NextCallers(s, l)[id].process == s.callers[id].process
    ensures l.Register? && id == s.sequence + 1 ==>
      id in NextCallers(s, l) && NextCallers(s, l)[id].process == Current(s)
  {
  }

  lemma StepKeepsCallers(s: State, l: Label)
    requires Callers(s) && Enabled(s, l)
    ensures Callers(Apply(s, l))
  {
    hide NextBuffer, NextPuts, NextReaders, NextWaiters, NextPending;
  }

  /** A sending step sends to the channel of one request, which never got a value. */
  ghost predicate SendsTo(s: State, l: Label, id: Id)
    requires Enabled(s, l)
  {
    && Sends(l) && Unsent(s, id) && id !in s.pending && Target(s, l).0 == s.callers[id].ch
    && (if l.SendReply? then Pops(s.readers[l.process], id) && Target(s, l).1.Line? && Target(s, l).1.id == id
        else Fails(s.waiters[l.process], id) && id == l.id && Target(s, l).1 == Exited(l.process))
  }

  function Addressee(s: State, l: Label): Id
    requires Enabled(s, l) && Sends(l)
  {
    if l.SendReply? then s.readers[l.process].id else l.id
  }

  lemma SendTarget(s: State, l: Label)
    requires Hands(s) && ToDo(s) && Enabled(s, l) && Sends(l)
    ensures SendsTo(s, l, Addressee(s, l))
  {
    hide Unsent, PutsOf;
    if l.SendReply? {
      assert Pops(s.readers[l.process], s.readers[l.process].id);
    } else {
      assert Fails(s.waiters[l.process], l.id);
    }
  }

  lemma UnsentKept(s: State, l: Label, id: Id)
    requires Callers(s) && Enabled(s, l) && Unsent(s, id)
    requires Sends(l) ==> SendsTo(s, l, Addressee(s, l)) && id != Addressee(s, l)
    ensures Unsent(Apply(s, l), id) && Apply(s, l).callers[id].ch == s.callers[id].ch
  {
    hide NextReaders, NextWaiters, NextPending;
  }

  lemma UnsentFresh(s: State)
    requires NoneBeyond(s) && Enabled(s, Register)
    ensures Unsent(Apply(s, Register), s.sequence + 1)
  {
  }

  lemma StepKeepsBeyond(s: State, l: Label)
    requires Callers(s) && NoneBeyond(s) && Hands(s) && ToDo(s) && Enabled(s, l)
    ensures NoneBeyond(Apply(s, l))
  {
    hide NextReaders, NextWaiters, NextPending, Hands, ToDo;
    if Sends(l) { SendTarget(s, l); }
  }

  lemma PendingOrigin(s: State, l: Label, id: Id)
    requires Enabled(s, l) && id in NextPending(s, l)
    ensures (id in s.pending && NextPending(s, l)[id] == s.pending[id] && !l.ProcessExit?
      && !(l.ReadLine? && l.id == id))
         || (l.Register? && id == s.sequence + 1 && NextPending(s, l)[id] == s.chans)
  {
  }

  lemma HandOrigin(s: State, l: Label, k: nat, id: Id)
    requires Enabled(s, l) && k in NextReaders(s, l) && Pops(NextReaders(s, l)[k], id)
    ensures (k in s.readers && NextReaders(s, l)[k] == s.readers[k] && !(l.SendReply? && l.process == k)
      && !(l.ReadLine? && l.process == k && l.id in s.pending))
         || (l.ReadLine? && l.process == k && l.id == id && id in s.pending
               && NextReaders(s, l)[k] == Holding(id, s.pending[id], Line(id, l.body)))
  {
  }

  lemma FailOrigin(s: State, l: Label, k: nat, id: Id)
    requires Enabled(s, l) && k in NextWaiters(s, l) && Fails(NextWaiters(s, l)[k], id)
    ensures (k in s.waiters && Fails(s.waiters[k], id) && NextWaiters(s, l)[k].todo[id] == s.waiters[k].todo[id]
               && !(l.FailOne? && l.process == k && l.id == id))
         || (l == ProcessExit(k) && id in s.pending && NextWaiters(s, l)[k].todo[id] == s.pending[id])
  {
  }

  lemma FreshCaller(s: State)
    requires Enabled(s, Register)
    ensures (s.sequence + 1) in Apply(s, Register).callers && Apply(s, Register).callers[s.sequence + 1].ch == s.chans
  {
  }

  lemma StepKeepsPending(s: State, l: Label)
    requires Callers(s) && NoneBeyond(s) && Pending(s) && Hands(s) && ToDo(s) && Enabled(s, l)
    ensures Pending(Apply(s, l))
  {
    hide NextReaders, NextWaiters, NextBuffer, NextPuts, NextCallers, NextPending, PutsOf, Hands, ToDo, NoneBeyond,
      Callers, Target;
    var t := Apply(s, l);
    if Sends(l) { SendTarget(s, l); }
    forall id | id in t.pending ensures Unsent(t, id) && t.pending[id] == t.callers[id].ch {
      PendingOrigin(s, l, id);
      if id in s.pending { SequenceBound(s, id); UnsentKept(s, l, id); } else { UnsentFresh(s); FreshCaller(s); }
    }
  }

  lemma HandOk(s: State, k: nat, id: Id)
    requires Hands(s) && k in s.readers && Pops(s.readers[k], id)
    ensures HandGood(s, k, id)
    ensures forall j :: j in s.readers && Pops(s.readers[j], id) ==> j == k
  {
  }

  lemma ToDoOk(s: State, k: nat, id: Id)
    requires ToDo(s) && k in s.waiters && Fails(s.waiters[k], id)
    ensures Unsent(s, id) && id !in s.pending && s.waiters[k].todo[id] == s.callers[id].ch
    ensures forall j :: j in s.readers ==> !Pops(s.readers[j], id)
  {
  }

  lemma StepKeepsHand(s: State, l: Label, k: nat, id: Id)
    requires Callers(s) && Pending(s) && Hands(s) && ToDo(s) && Enabled(s, l)
    requires k in NextReaders(s, l) && Pops(NextReaders(s, l)[k], id)
    ensures HandGood(Apply(s, l), k, id)
  {
    hide NextReaders, NextWaiters, NextBuffer, NextPuts, NextCallers, NextPending, PutsOf, Hands, ToDo, Callers, Target;
    if Sends(l) { SendTarget(s, l); }
    HandOrigin(s, l, k, id);
    if k in s.readers && Pops(s.readers[k], id) {
      HandOk(s, k, id);
      SequenceBound(s, id);
    }
    if Sends(l) && id == Addressee(s, l) {
      if l.FailOne? { ToDoOk(s, l.process, id); }
    } else {
      UnsentKept(s, l, id);
    }
    if id in NextPending(s, l) { PendingOrigin(s, l, id); SequenceBound(s, id); }
  }

  lemma SequenceBound(s: State, id: Id)
    requires Callers(s) && id in s.callers
    ensures id <= s.sequence
  {
  }

  lemma StepKeepsHands(s: State, l: Label)
    requires Callers(s) && Pending(s) && Hands(s) && ToDo(s) && Enabled(s, l)
    ensures Hands(Apply(s, l))
  {
    hide NextReaders, NextWaiters, NextBuffer, NextPuts, NextCallers, NextPending, PutsOf, ToDo, Callers, Enabled, Pops,
      HandGood;
    var t := Apply(s, l);
    forall k, id | k in t.readers && Pops(t.readers[k], id) ensures HandGood(t, k, id) {
      StepKeepsHand(s, l, k, id);
    }
    forall j, k, id | j in t.readers && k in t.readers && Pops(t.readers[j], id) && Pops(t.readers[k], id)
      ensures j == k
    {
      OneHand(s, l, j, k, id);
    }
  }

  lemma OneHand(s: State, l: Label, j: nat, k: nat, id: Id)
    requires Hands(s) && Enabled(s, l) && j in NextReaders(s, l) && k in NextReaders(s, l)
    requires Pops(NextReaders(s, l)[j], id) && Pops(NextReaders(s, l)[k], id)
    ensures j == k
  {
    hide NextReaders, PutsOf, Enabled, Unsent;
    HandOrigin(s, l, j, id);
    HandOrigin(s, l, k, id);
    if j in s.readers && Pops(s.readers[j], id) { HandOk(s, j, id); }
    if k in s.readers && Pops(s.readers[k], id) { HandOk(s, k, id); }
  }

  lemma StepKeepsFail(s: State, l: Label, k: nat, id: Id)
    requires Epochs(s) && Callers(s) && Pending(s) && Hands(s) && ToDo(s) && Enabled(s, l)
    requires k in NextWaiters(s, l) && Fails(NextWaiters(s, l)[k], id)
    ensures var t := Apply(s, l);
      Unsent(t, id) && id !in t.pending && t.waiters[k].todo[id] == t.callers[id].ch
    ensures forall j :: j in Apply(s, l).readers ==> !Pops(Apply(s, l).readers[j], id)
  {
    hide NextReaders, NextWaiters, NextBuffer, NextPuts, NextCallers, NextPending, PutsOf, Hands, ToDo, Callers, Target,
      Epochs;
    if Sends(l) { SendTarget(s, l); }
    FailOrigin(s, l, k, id);
    if k in s.waiters && Fails(s.waiters[k], id) {
      ToDoOk(s, k, id);
      SequenceBound(s, id);
      if l.FailOne? && l.id == id { OneFailing(s, k, l.process); }
    }
    UnsentKept(s, l, id);
    if id in NextPending(s, l) { PendingOrigin(s, l, id); SequenceBound(s, id); }
    forall j | j in NextReaders(s, l) ensures !Pops(NextReaders(s, l)[j], id) {
      if Pops(NextReaders(s, l)[j], id) {
        HandOrigin(s, l, j, id);
        if j in s.readers && Pops(s.readers[j], id) { HandOk(s, j, id); }
      }
    }
  }

  /** Only the newest process can still be failing its requests. */
  lemma OneFailing(s: State, j: nat, k: nat)
    requires Epochs(s) && j in s.waiters && k in s.waiters && s.waiters[j].Failing? && s.waiters[k].Failing?
    ensures j == k
  {
  }

  lemma StepKeepsToDo(s: State, l: Label)
    requires Epochs(s) && Callers(s) && Pending(s) && Hands(s) && ToDo(s) && Enabled(s, l)
    ensures ToDo(Apply(s, l))
  {
    hide NextReaders, NextWaiters, NextBuffer, NextPuts, NextCallers, NextPending, PutsOf, Hands, Callers, Enabled,
      Epochs, Pending;
    var t := Apply(s, l);
    forall k, id | k in t.waiters && Fails(t.waiters[k], id)
      ensures Unsent(t, id) && id !in t.pending && t.waiters[k].todo[id] == t.callers[id].ch
    {
      StepKeepsFail(s, l, k, id);
    }
    forall j, k, id | j in t.readers && k in t.waiters && Pops(t.readers[j], id) ensures !Fails(t.waiters[k], id) {
      if Fails(t.waiters[k], id) { StepKeepsFail(s, l, k, id); }
    }
  }

  ghost predicate ProperNow(s: State, id: Id)
    requires id in s.callers
  {
    Proper(id, s.callers[id], PutsOf(s, s.callers[id].ch), Slot(s, s.callers[id].ch))
  }

  lemma SendKeepsProper(s: State, l: Label, id: Id)
    requires Epochs(s) && Callers(s) && Hands(s) && ToDo(s) && Enabled(s, l) && Sends(l) && id in s.callers
    requires ProperNow(s, id)
    ensures ProperNow(Apply(s, l), id)
  {
    hide NextReaders, NextWaiters, NextPending, Hands, ToDo, Epochs, Target, Fitting;
    SendTarget(s, l);
    SendFits(s, l);
  }

  lemma OwnStepKeepsProper(s: State, l: Label, id: Id)
    requires Callers(s) && Enabled(s, l) && !Sends(l) && id in s.callers && ProperNow(s, id)
    ensures ProperNow(Apply(s, l), id)
  {
    hide NextReaders, NextWaiters, NextPending, Target, Fitting;
  }

  lemma FreshProper(s: State)
    requires NoneBeyond(s) && Enabled(s, Register)
    ensures ProperNow(Apply(s, Register), s.sequence + 1)
  {
    hide NextReaders, NextWaiters, NextPending, Fitting;
  }

  lemma SendFits(s: State, l: Label)
    requires Epochs(s) && Enabled(s, l) && Sends(l) && SendsTo(s, l, Addressee(s, l))
    ensures Fitting(Addressee(s, l), s.callers[Addressee(s, l)].process, Target(s, l).1)
  {
    hide PutsOf;
  }

  lemma CallerOrigin(s: State, l: Label, id: Id)
    requires Enabled(s, l) && id in NextCallers(s, l)
    ensures id in s.callers || (l == Register && id == s.sequence + 1)
  {
  }

  lemma StepKeepsContents(s: State, l: Label)
    requires Epochs(s) && Callers(s) && NoneBeyond(s) && Hands(s) && ToDo(s) && Contents(s) && Enabled(s, l)
    ensures Contents(Apply(s, l))
  {
    hide NextReaders, NextWaiters, NextBuffer, NextPuts, NextPending, PutsOf, Hands, ToDo, Callers, Enabled, Epochs,
      Proper, Slot, NoneBeyond;
    forall id | id in NextCallers(s, l) ensures ProperNow(Apply(s, l), id) {
      CallerOrigin(s, l, id);
      if id !in s.callers { FreshProper(s); }
      else if Sends(l) { SendKeepsProper(s, l, id); }
      else { OwnStepKeepsProper(s, l, id); }
    }
  }

  /** Where the right to answer `id` goes. */
  lemma StepKeepsAccount(s: State, l: Label, id: Id)
    requires Epochs(s) && Callers(s) && Pending(s) && Hands(s) && ToDo(s) && Enabled(s, l)
    requires id in s.callers && (id in s.pending || InHand(s, id) || ToFail(s, id) || Answered(s, id) || Left(s, id))
    ensures var t := Apply(s, l); id in t.pending || InHand(t, id) || ToFail(t, id) || Answered(t, id) || Left(t, id)
  {
    hide NextReaders, NextWaiters, NextBuffer, NextPuts, NextCallers, NextPending, PutsOf, Epochs, Callers, Pending,
      Hands, ToDo, Processes, Pops, Fails, Answered, Left;
    var t := Apply(s, l);
    EpochsProcesses(s);
    if id in s.pending {
      PendingGoes(s, l, id);
    } else if InHand(s, id) {
      var k :| k in s.readers && Pops(s.readers[k], id);
      HandGoes(s, l, k, id);
    } else if ToFail(s, id) {
      var k :| k in s.waiters && Fails(s.waiters[k], id);
      FailGoes(s, l, k, id);
    } else {
      AnswerStays(s, l, id);
    }
  }

  lemma EpochsProcesses(s: State)
    requires Epochs(s)
    ensures Processes(s)
  {
  }

  lemma PendingGoes(s: State, l: Label, id: Id)
    requires Enabled(s, l) && id in s.pending && id in s.callers
    ensures var t := Apply(s, l);
      || id in t.pending || Left(t, id)
      || (l.ReadLine? && l.process in t.readers && Pops(t.readers[l.process], id))
      || (l.ProcessExit? && l.process in t.waiters && Fails(t.waiters[l.process], id))
  {
    hide NextBuffer, NextPuts;
  }

  lemma HandGoes(s: State, l: Label, k: nat, id: Id)
    requires Hands(s) && ToDo(s) && Processes(s) && Callers(s) && Enabled(s, l) && k in s.readers
    requires Pops(s.readers[k], id)
    ensures var t := Apply(s, l); (k in t.readers && Pops(t.readers[k], id)) || Answered(t, id)
  {
    hide NextPending, NextWaiters, Hands, ToDo;
    if Sends(l) { SendTarget(s, l); }
  }

  lemma FailGoes(s: State, l: Label, k: nat, id: Id)
    requires Hands(s) && ToDo(s) && Processes(s) && Callers(s) && Enabled(s, l) && k in s.waiters
    requires Fails(s.waiters[k], id)
    ensures var t := Apply(s, l); (k in t.waiters && Fails(t.waiters[k], id)) || Answered(t, id)
  {
    hide NextPending, NextReaders, Hands, ToDo;
    if Sends(l) { SendTarget(s, l); }
  }

  lemma AnswerStays(s: State, l: Label, id: Id)
    requires Callers(s) && Enabled(s, l)
    ensures Answered(s, id) ==> Answered(Apply(s, l), id)
    ensures Left(s, id) ==> Left(Apply(s, l), id)
  {
    hide NextPending, NextReaders, NextWaiters;
  }

  lemma StepKeepsAccounted(s: State, l: Label)
    requires Epochs(s) && Callers(s) && Pending(s) && Hands(s) && ToDo(s) && Accounted(s) && Enabled(s, l)
    ensures Accounted(Apply(s, l))
  {
    hide NextReaders, NextWaiters, NextBuffer, NextPuts, PutsOf, Epochs, Callers, Pending, Hands, ToDo, Pops, Fails,
      Answered, Left, InHand, ToFail;
    var t := Apply(s, l);
    forall id | id in t.callers
      ensures id in t.pending || InHand(t, id) || ToFail(t, id) || Answered(t, id) || Left(t, id)
    {
      if id in s.callers { StepKeepsAccount(s, l, id); }
    }
  }

  lemma StepKeepsInv(s: State, l: Label)
    requires Inv(s) && Enabled(s, l)
    ensures Inv(Apply(s, l))
  {
    hide Apply, Epochs, Callers, NoneBeyond, Pending, Hands, ToDo, Contents, Accounted;
    StepKeepsEpochs(s, l);
    StepKeepsCallers(s, l);
    StepKeepsBeyond(s, l);
    StepKeepsPending(s, l);
    StepKeepsHands(s, l);
    StepKeepsToDo(s, l);
    StepKeepsContents(s, l);
    StepKeepsAccounted(s, l);
  }

  lemma {:induction false} RunKeepsInv(states: seq<State>, labels: seq<Label>, n: nat)
    requires IsRun(states, labels) && n < |states|
    ensures Inv(states[n])
  {
    if n > 0 {
      hide Enabled, Apply, Inv;
      RunKeepsInv(states, labels, n - 1);
      StepKeepsInv(states[n - 1], labels[n - 1]);
    }
  }

  // ---------------------------------------------------------------- the host itself

  /** What a request got: every value ever put into its channel. */
  function Gets(s: State, id: Id): seq<Reply> {
    if id in s.callers then PutsOf(s, s.callers[id].ch) else []
  }

  /** A send answers exactly one request, which had got nothing, with a value meant for it. */
  lemma SendAnswers(s: State, l: Label)
    requires Inv(s) && Enabled(s, l) && Sends(l)
    ensures var id, t := Addressee(s, l), Apply(s, l);
      && id in s.callers && Gets(s, id) == [] && Gets(t, id) == [Target(s, l).1]
      && Fitting(id, s.callers[id].process, Target(s, l).1)
    ensures forall j :: j != Addressee(s, l) ==> Gets(Apply(s, l), j) == Gets(s, j)
  {
    hide NextReaders, NextWaiters, NextPending, Hands, ToDo, Epochs, Contents, Accounted, Pending, NoneBeyond;
    SendTarget(s, l);
    SendFits(s, l);
  }

  lemma OthersGetNothing(s: State, l: Label)
    requires Inv(s) && Enabled(s, l) && !Sends(l)
    ensures forall j :: Gets(Apply(s, l), j) == Gets(s, j)
  {
    hide NextReaders, NextWaiters, NextPending, Hands, ToDo, Epochs, Contents, Accounted, Pending, Target;
    if l.Register? { UnsentFresh(s); }
  }

  lemma HoldingCanSend(s: State, k: nat)
    requires Inv(s) && k in s.readers && s.readers[k].Holding?
    ensures Enabled(s, SendReply(k))
  {
    hide Epochs, Callers, Contents, Accounted, Pending, ToDo, NoneBeyond;
    HandOk(s, k, s.readers[k].id);
  }

  lemma FailingCanSend(s: State, k: nat, id: Id)
    requires Inv(s) && k in s.waiters && Fails(s.waiters[k], id)
    ensures Enabled(s, FailOne(k, id))
  {
    hide Epochs, Callers, Contents, Accounted, Pending, Hands, NoneBeyond;
    ToDoOk(s, k, id);
  }

  /** What the invariant says of the table. */
  lemma TableFacts(s: State, id: Id)
    requires Inv(s) && id in s.pending
    ensures id in s.callers && s.callers[id].process == Current(s) && Gets(s, id) == [] && !s.closed
  {
    hide Callers, Contents, Accounted, Hands, ToDo, NoneBeyond, Processes;
  }

  lemma ReceivedFacts(s: State, id: Id)
    requires Inv(s) && id in s.callers && s.callers[id].phase.Received?
    ensures Gets(s, id) == [s.callers[id].phase.reply] && Fitting(id, s.callers[id].process, s.callers[id].phase.reply)
  {
    hide Epochs, Callers, Accounted, Hands, ToDo, NoneBeyond, Pending;
    assert ProperNow(s, id);
  }

  lemma ExitIsCurrent(s: State, k: nat)
    requires Inv(s) && k in s.waiters && s.waiters[k] == Running
    ensures k == Current(s) && !s.closed
  {
    hide Callers, Contents, Accounted, Hands, ToDo, NoneBeyond, Pending;
  }

  /** One line the sidecar writes with a request id. */
  datatype Output = Output(id: Id, body: Body)

  /** The body of the first line for a request. */
  function FirstFor(lines: seq<Output>, id: Id): Option<Body> {
    if lines == [] then None
    else
      var before := FirstFor(lines[..|lines| - 1], id);
      if before.Some? then before
      else if lines[|lines| - 1].id == id then Some(lines[|lines| - 1].body)
      else None
  }

  function AfterLine(first: Option<Body>, line: Output, id: Id): Option<Body> {
    if first.Some? then first else if line.id == id then Some(line.body) else None
  }

  lemma FirstForStep(lines: seq<Output>, n: nat, id: Id)
    requires n < |lines|
    ensures FirstFor(lines[..n + 1], id) == AfterLine(FirstFor(lines[..n], id), lines[n], id)
  {
    assert lines[..n + 1][..n] == lines[..n];
  }

  /** The host object. Its fields are those of the source, the slots of the channels, and where each
      goroutine stands: `callers`, `readers` and `waiters`. A method is one critical section or one
      channel operation of the goroutine it belongs to and takes the step of that name; ReadOutput and
      Wait are the loops of the reader and of the waiter, when nothing else runs meanwhile. */
  class Host {
    var started: nat
    var closed: bool
    var sequence: nat
    var chans: nat
    var pending: map<Id, Chan>
    var buffer: map<Chan, Reply>
    var callers: map<Id, Caller>
    var readers: map<nat, Reader>
    var waiters: map<nat, Waiter>
    ghost var puts: map<Chan, seq<Reply>>

    ghost function Now(): State
      reads this
    {
      State(started, closed, sequence, chans, pending, buffer, callers, readers, waiters, puts)
    }

    ghost predicate Valid()
      reads this
    {
      Inv(Now())
    }

    /** Every value request `id` was ever sent. */
    ghost function Got(id: Id): seq<Reply>
      reads this
    {
      Gets(Now(), id)
    }

    constructor ()
      ensures Valid() && Now() == START
    {
      started, closed, sequence, chans := 0, false, 0, 0;
      pending, buffer, callers, readers, waiters, puts := map[], map[], map[], map[], map[], map[];
    }

    /** A new process starts with no request of an earlier one in the table. */
    method StartProcess()
      requires Valid() && Enabled(Now(), Start)
      modifies `started, `closed, `readers, `waiters
      ensures Valid() && Now() == Apply(old(Now()), Start)
      ensures forall id :: id in pending ==> callers[id].process == started - 1
      ensures forall id :: Got(id) == old(Got(id))
    {
      hide Inv, Gets;
      ghost var next := Apply(Now(), Start);
      StepKeepsInv(Now(), Start);
      OthersGetNothing(Now(), Start);
      forall id | id in next.pending
        ensures id in next.callers && next.callers[id].process == Current(next)
      { TableFacts(next, id); }
      closed := false;
      readers := readers[started := Scanning];
      waiters := waiters[started := Running];
      started := started + 1;
    }

    /** The critical section of SDKCommand: refused exactly when closed, else a request nobody has
        answered waits in the table under a new id. */
    method RegisterRequest() returns (id: Option<Id>)
      requires Valid()
      modifies `sequence, `chans, `pending, `callers
      ensures Valid() && (id.None? <==> old(closed))
      ensures Now() == if id.None? then old(Now()) else Apply(old(Now()), Register)
      ensures id.Some? ==> id.value !in old(callers) && id.value in pending && Got(id.value) == []
      ensures forall j :: Got(j) == old(Got(j))
    {
      hide Inv, Gets;
      if closed { return None; }
      ghost var next := Apply(Now(), Register);
      StepKeepsInv(Now(), Register);
      OthersGetNothing(Now(), Register);
      FreshId(Now());
      TableFacts(next, sequence + 1);
      sequence := sequence + 1;
      var ch := chans;
      chans := chans + 1;
      pending := pending[sequence := ch];
      callers := callers[sequence := Caller(ch, if started == 0 then 0 else started - 1, Writing)];
      id := Some(sequence);
    }

    /** After a failed write or an ended context: no line and no exit reaches the request any more,
        unless a reader has its channel already. */
    method WithdrawRequest(id: Id)
      requires Valid() && PhaseOf(Now(), id) == Some(Withdrawing)
      modifies `pending, `callers
      ensures Valid() && Now() == Apply(old(Now()), Withdraw(id))
      ensures id !in pending && Left(Now(), id) && forall j :: Got(j) == old(Got(j))
    {
      hide Inv, Gets;
      StepKeepsInv(Now(), Withdraw(id));
      OthersGetNothing(Now(), Withdraw(id));
      pending := pending - {id};
      callers := callers[id := callers[id].(phase := Withdrawn)];
    }

    /** The caller receives the one value its request got: a reply with its id, or its process's exit. */
    method ReceiveReply(id: Id) returns (reply: Reply)
      requires Valid() && Enabled(Now(), Receive(id))
      modifies `buffer, `callers
      ensures Valid() && Now() == Apply(old(Now()), Receive(id)) && callers[id].phase == Received(reply)
      ensures Got(id) == [reply] && Fitting(id, callers[id].process, reply)
    {
      hide Inv, Gets;
      ghost var next := Apply(Now(), Receive(id));
      StepKeepsInv(Now(), Receive(id));
      ReceivedFacts(next, id);
      var ch := callers[id].ch;
      reply := buffer[ch];
      buffer := buffer - {ch};
      callers := callers[id := callers[id].(phase := Received(reply))];
    }

    /** The reader looks up and removes the channel of a line's id; without one the line is published. */
    method ReaderPops(process: nat, id: Id, body: Body) returns (published: bool)
      requires Valid() && process in readers && readers[process] == Scanning
      modifies `pending, `readers
      ensures Valid() && Now() == Apply(old(Now()), ReadLine(process, id, body))
      ensures published <==> id !in old(pending)
      ensures forall j :: Got(j) == old(Got(j))
    {
      hide Inv, Gets;
      StepKeepsInv(Now(), ReadLine(process, id, body));
      OthersGetNothing(Now(), ReadLine(process, id, body));
      published := id !in pending;
      if !published {
        var ch := pending[id];
        pending := pending - {id};
        readers := readers[process := Holding(id, ch, Line(id, body))];
      } else {
        assert pending - {id} == pending;
      }
    }

    method Send(ch: Chan, reply: Reply)
      requires ch !in buffer
      modifies `buffer, `puts
      ensures buffer == old(buffer)[ch := reply]
      ensures puts == old(puts)[ch := old(PutsOf(Now(), ch)) + [reply]]
    {
      puts := puts[ch := PutsOf(Now(), ch) + [reply]];
      buffer := buffer[ch := reply];
    }

    /** The reader sends what it holds without ever blocking: the request whose id the line had, and
        no other, gets that line, and had got nothing. */
    method ReaderSends(process: nat) returns (ghost id: Id)
      requires Valid() && process in readers && readers[process].Holding?
      modifies `buffer, `puts, `readers
      ensures Valid() && Enabled(old(Now()), SendReply(process)) && Now() == Apply(old(Now()), SendReply(process))
      ensures id == old(readers[process].id) && old(Got(id)) == []
      ensures Got(id) == [old(readers[process].reply)] && Fitting(id, callers[id].process, old(readers[process].reply))
      ensures forall j :: j != id ==> Got(j) == old(Got(j))
    {
      hide Inv, Gets, Fitting;
      id := readers[process].id;
      HoldingCanSend(Now(), process);
      StepKeepsInv(Now(), SendReply(process));
      SendAnswers(Now(), SendReply(process));
      Send(readers[process].ch, readers[process].reply);
      readers := readers[process := Scanning];
    }

    /** What the reader does with one line, when nothing else runs meanwhile. */
    method TakesLine(process: nat, id: Id, body: Body) returns (published: bool)
      requires Valid() && process in readers && readers[process] == Scanning
      modifies `pending, `buffer, `puts, `readers
      ensures Valid() && process in readers && readers[process] == Scanning
      ensures published <==> id !in old(pending)
      ensures !published ==> id !in pending && Got(id) == [Line(id, body)]
      ensures forall j :: j != id || published ==> (j in pending <==> j in old(pending)) && Got(j) == old(Got(j))
    {
      hide Inv, Gets, Fitting, NextCallers, NextWaiters, NextBuffer, NextPuts, Target;
      published := ReaderPops(process, id, body);
      if !published { ghost var answered := ReaderSends(process); }
    }

    /** The reader's loop: every request waiting in the table gets the first line with its id, and
        leaves the table; the others wait on. */
    method ReadOutput(process: nat, lines: seq<Output>)
      requires Valid() && process in readers && readers[process] == Scanning
      modifies `pending, `buffer, `puts, `readers
      ensures Valid() && process in readers && readers[process] == Finished
      ensures forall id :: id in old(pending) && FirstFor(lines, id).Some? ==>
        id !in pending && Got(id) == [Line(id, FirstFor(lines, id).value)]
      ensures forall id :: !(id in old(pending) && FirstFor(lines, id).Some?) ==>
        (id in pending <==> id in old(pending)) && Got(id) == old(Got(id))
    {
      hide Inv, Gets, FirstFor, Enabled, Apply;
      var n := 0;
      ghost var table := pending;
      NoneYet(lines);
      while n < |lines|
        invariant 0 <= n <= |lines| && Valid() && process in readers && readers[process] == Scanning
        invariant forall id :: id in table && FirstFor(lines[..n], id).Some? ==>
          id !in pending && Got(id) == [Line(id, FirstFor(lines[..n], id).value)]
        invariant forall id :: !(id in table && FirstFor(lines[..n], id).Some?) ==>
          (id in pending <==> id in table) && Got(id) == old(Got(id))
      {
        FirstForAll(lines, n);
        var published := TakesLine(process, lines[n].id, lines[n].body);
        n := n + 1;
      }
      assert lines[..n] == lines;
      Ends(process);
    }

    method Ends(process: nat)
      requires Valid() && process in readers && readers[process] == Scanning
      modifies `readers
      ensures Valid() && process in readers && readers[process] == Finished
      ensures forall id :: Got(id) == old(Got(id))
    {
      hide Inv, Gets;
      StepKeepsInv(Now(), EndOfOutput(process));
      OthersGetNothing(Now(), EndOfOutput(process));
      readers := readers[process := Finished];
    }

    /** The critical section of wait: close, and take the whole table, which has requests of this
        process only. */
    method WaiterTakes(process: nat)
      requires Valid() && process in waiters && waiters[process] == Running
      modifies `closed, `pending, `waiters
      ensures Valid() && Now() == Apply(old(Now()), ProcessExit(process))
      ensures closed && pending == map[] && waiters == old(waiters)[process := Failing(old(pending))]
      ensures forall id :: id in old(pending) ==> callers[id].process == process && Got(id) == []
      ensures forall id :: Got(id) == old(Got(id))
    {
      hide Inv, Gets;
      ghost var table := Now();
      ExitIsCurrent(table, process);
      forall id | id in table.pending
        ensures id in table.callers && table.callers[id].process == process && Gets(table, id) == []
      {
        TableFacts(table, id);
      }
      StepKeepsInv(Now(), ProcessExit(process));
      OthersGetNothing(Now(), ProcessExit(process));
      closed := true;
      waiters := waiters[process := Failing(pending)];
      pending := map[];
    }

    /** The waiter fails one request without ever blocking: it, and no other, gets the exit of this
        process, and had got nothing. */
    method WaiterFails(process: nat, id: Id)
      requires Valid() && process in waiters && Fails(waiters[process], id)
      modifies `buffer, `puts, `waiters
      ensures Valid() && Enabled(old(Now()), FailOne(process, id)) && Now() == Apply(old(Now()), FailOne(process, id))
      ensures old(Got(id)) == [] && Got(id) == [Exited(process)] && forall j :: j != id ==> Got(j) == old(Got(j))
    {
      hide Inv, Gets;
      FailingCanSend(Now(), process, id);
      StepKeepsInv(Now(), FailOne(process, id));
      SendAnswers(Now(), FailOne(process, id));
      Send(waiters[process].todo[id], Exited(process));
      waiters := waiters[process := Failing(waiters[process].todo - {id})];
    }

    /** The waiter from the exit of its process to its end: the host is closed, every request of the
        table gets that exit, and no other request gets anything. */
    method Wait(process: nat)
      requires Valid() && process in waiters && waiters[process] == Running
      modifies `closed, `pending, `buffer, `puts, `waiters
      ensures Valid() && closed && pending == map[] && process in waiters && waiters[process] == Done
      ensures forall id :: id in old(pending) ==> callers[id].process == process && Got(id) == [Exited(process)]
      ensures forall id :: id !in old(pending) ==> Got(id) == old(Got(id))
    {
      hide Inv, Gets, Enabled, Apply, Valid, Got;
      ghost var table := pending;
      WaiterTakes(process);
      while waiters[process].todo != map[]
        invariant Valid() && closed && pending == map[]
        invariant process in waiters && waiters[process].Failing? && waiters[process].todo.Keys <= table.Keys
        invariant forall id :: id in table && id !in waiters[process].todo ==> Got(id) == [Exited(process)]
        invariant forall id :: id !in table ==> Got(id) == old(Got(id))
        decreases |waiters[process].todo|
      {
        var id := FailsNext(process);
      }
      Returns(process);
    }

    method FailsNext(process: nat) returns (id: Id)
      requires Valid() && process in waiters && waiters[process].Failing? && waiters[process].todo != map[]
      modifies `buffer, `puts, `waiters
      ensures Valid() && process in waiters && id in old(waiters[process].todo)
      ensures waiters[process] == Failing(old(waiters[process].todo) - {id})
      ensures Got(id) == [Exited(process)] && forall j :: j != id ==> Got(j) == old(Got(j))
    {
      hide Inv, Gets, NextCallers, NextPending, NextReaders, NextBuffer, NextPuts, Target;
      id :| id in waiters[process].todo;
      WaiterFails(process, id);
    }

    method Returns(process: nat)
      requires Valid() && process in waiters && waiters[process] == Failing(map[])
      modifies `waiters
      ensures Valid() && waiters == old(waiters)[process := Done]
      ensures forall id :: Got(id) == old(Got(id))
    {
      hide Inv, Gets;
      StepKeepsInv(Now(), WaitReturns(process));
      OthersGetNothing(Now(), WaitReturns(process));
      waiters := waiters[process := Done];
    }
  }

  lemma FirstForAll(lines: seq<Output>, n: nat)
    requires n < |lines|
    ensures forall id :: FirstFor(lines[..n + 1], id) == AfterLine(FirstFor(lines[..n], id), lines[n], id)
  {
    forall id ensures FirstFor(lines[..n + 1], id) == AfterLine(FirstFor(lines[..n], id), lines[n], id) {
      FirstForStep(lines, n, id);
    }
  }

  lemma NoneYet(lines: seq<Output>)
    ensures forall id :: FirstFor(lines[..0], id) == None
  {
  }

  lemma FreshId(s: State)
    requires Inv(s)
    ensures s.sequence + 1 !in s.callers
  {
    hide Epochs, Contents, Accounted, Hands, ToDo, NoneBeyond, Pending;
  }

  // ---------------------------------------------------------------- results

  /** Each request's channel gets at most one value, and it is a reply that carries the request's id
      or the exit of the process it was registered under; the caller receives no other value. */
  lemma OneFittingReply(states: seq<State>, labels: seq<Label>, n: nat, id: Id)
    requires IsRun(states, labels) && n < |states| && id in states[n].callers
    ensures var s := states[n]; var c := s.callers[id]; var puts := PutsOf(s, c.ch);
      && |puts| <= 1 && (|puts| == 1 ==> Fitting(id, c.process, puts[0]))
      && (c.phase.Received? ==> puts == [c.phase.reply])
  {
    RunKeepsInv(states, labels, n);
    hide IsRun;
  }

  /** No send ever blocks: a reader or a waiter that is about to send can. */
  lemma SendsNeverBlock(states: seq<State>, labels: seq<Label>, n: nat, k: nat, id: Id)
    requires IsRun(states, labels) && n < |states|
    ensures var s := states[n];
      && (k in s.readers && s.readers[k].Holding? ==> Enabled(s, SendReply(k)))
      && (k in s.waiters && Fails(s.waiters[k], id) ==> Enabled(s, FailOne(k, id)))
  {
    hide IsRun, Inv, Enabled;
    RunKeepsInv(states, labels, n);
    var s := states[n];
    if k in s.readers && s.readers[k].Holding? { HoldingCanSend(s, k); }
    if k in s.waiters && Fails(s.waiters[k], id) { FailingCanSend(s, k, id); }
  }

  /** Once the waiter of a process has finished, a request registered under it has been answered,
      or withdrawn by its caller, or its channel is in the hands of a reader that popped it before
      the exit; for a caller still there, answered means exactly that no reader has it, and then the
      caller can receive. */
  lemma SettledAfterWait(states: seq<State>, labels: seq<Label>, n: nat, id: Id)
    requires IsRun(states, labels) && n < |states| && id in states[n].callers
    requires var s := states[n]; s.callers[id].process in s.waiters && s.waiters[s.callers[id].process] == Done
    ensures var s := states[n];
      && id !in s.pending && !ToFail(s, id)
      && (!Left(s, id) ==> (Answered(s, id) <==> !InHand(s, id)))
      && (s.callers[id].phase == Waiting && !InHand(s, id) ==> Enabled(s, Receive(id)))
  {
    RunKeepsInv(states, labels, n);
    hide IsRun;
    var s := states[n];
    assert ProperNow(s, id);
    if InHand(s, id) {
      var k :| k in s.readers && Pops(s.readers[k], id);
      HandOk(s, k, id);
    }
    assert id in s.pending ==> s.callers[id].process == Current(s) && !s.closed;
  }

  /** The condition is needed: the process exits and its waiter finishes between a reader's pop and
      its send, and the request is neither answered nor withdrawn. */
  lemma ReaderMayHoldAfterWait(body: Body) returns (states: seq<State>, labels: seq<Label>)
    ensures IsRun(states, labels)
    ensures var s := states[|states| - 1];
      s.waiters.Keys == {0} && s.waiters[0] == Done && 1 in s.callers && s.callers[1].process == 0
      && s.callers[1].phase == Waiting && !Answered(s, 1) && InHand(s, 1)
  {
    var s1 := Apply(START, Start);
    var s2 := Apply(s1, Register);
    var s3 := Apply(s2, WriteDone(1));
    var s4 := Apply(s3, ReadLine(0, 1, body));
    var c := Caller(0, 0, Waiting);
    assert s4 == State(1, false, 1, 1, map[], map[], map[1 := c], map[0 := Holding(1, 0, Line(1, body))],
      map[0 := Running], map[]);
    states, labels := [START, s1, s2, s3, s4], [Start, Register, WriteDone(1), ReadLine(0, 1, body)];
    states, labels := ExitNow(states, labels);
    assert Pops(states[6].readers[0], 1);
  }

  lemma ExitNow(states: seq<State>, labels: seq<Label>) returns (more: seq<State>, steps: seq<Label>)
    requires IsRun(states, labels) && |states| == 5 && states[4].waiters == map[0 := Running]
    requires states[4].pending == map[]
    ensures IsRun(more, steps) && |more| == 7
    ensures more[6] == states[4].(closed := true, waiters := map[0 := Done])
  {
    var s5 := Apply(states[4], ProcessExit(0));
    var s6 := Apply(s5, WaitReturns(0));
    more, steps := states + [s5, s6], labels + [ProcessExit(0), WaitReturns(0)];
  }
}
