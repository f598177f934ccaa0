/** Managed turns: processes that admit a prompt under a client reference, take the session's
    kernel lock, write an intent and run the native command. Durable state is one record per
    (session, reference), replaced atomically, and an append-only journal per session. Any
    process may crash between any two steps; the kernel then frees its lock. */
module ManagedTurns {
  import opened Prelude

  type Pid = nat
  datatype Key = Key(session: string, ref: string)

  datatype Status = Admitted | Dispatching | Rejected | Failed | Uncertain | Completed

  datatype Turn = Turn(key: Key, prompt: string, status: Status)

  /** What follows a stored turn. */
  datatype Next = AfterAdmit | AfterReject | AfterDispatch | AfterOutcome | AfterReconcile

  datatype Pc =
    | Read
    | Admit
    | Record(turn: Turn, next: Next)   // about to replace the record
    | Journal(turn: Turn, next: Next)  // record replaced, about to append to the journal
    | Lock(turn: Turn)
    | Launch(turn: Turn)               // about to build and run the native command
    | Native(turn: Turn)               // the native command is running
    | Release
    | Probe(turn: Turn)                // duplicate of an unfinished dispatch, about to try the lock
    | Unprobe(turn: Turn)              // got the lock, about to release it
    | Exit

  datatype Proc = Proc(key: Key, prompt: string, pc: Pc)

  /** `runs` lists the keys whose native command was run, in order. */
  datatype State = State(records: map<Key, Turn>, journals: map<string, seq<Turn>>, lock: map<string, Pid>,
                         procs: map<Pid, Proc>, runs: seq<Key>)

  datatype Label =
    | Spawn(pid: Pid, key: Key, prompt: string)
    | ReadStep(pid: Pid, fault: bool)                    // fault: the file is there but cannot be read
    | AdmitStep(pid: Pid, cursorOk: bool)
    | RecordStep(pid: Pid, ok: bool)
    | JournalStep(pid: Pid, ok: bool, appended: bool)
    | LockStep(pid: Pid, usable: bool)                   // usable: the lock file could be opened
    | LaunchStep(pid: Pid, ok: bool)
    | NativeStep(pid: Pid, ok: bool)
    | ReleaseStep(pid: Pid)
    | ProbeStep(pid: Pid, usable: bool)
    | UnprobeStep(pid: Pid)
    | Crash(pid: Pid)

  function At(s: State, p: Pid): Pc {
    if p in s.procs then s.procs[p].pc else Exit
  }

  function Succeeded(t: Turn, n: Next): Pc {
    match n
    case AfterAdmit => Lock(t)
    case AfterDispatch => Launch(t)
    case AfterOutcome => Release
    case _ => Exit
  }

  function GaveUp(n: Next): Pc {
    if n == AfterDispatch || n == AfterOutcome then Release else Exit
  }

  predicate PcFor(pc: Pc, l: Label) {
    match l
    case Spawn(_, _, _) => false
    case ReadStep(_, _) => pc == Read
    case AdmitStep(_, _) => pc == Admit
    case RecordStep(_, _) => pc.Record?
    case JournalStep(_, _, _) => pc.Journal?
    case LockStep(_, _) => pc.Lock?
    case LaunchStep(_, _) => pc.Launch?
    case NativeStep(_, _) => pc.Native?
    case ReleaseStep(_) => pc == Release
    case ProbeStep(_, _) => pc.Probe?
    case UnprobeStep(_) => pc.Unprobe?
    case Crash(_) => pc != Exit
  }

  predicate Enabled(s: State, l: Label) {
    if l.Spawn? then l.pid !in s.procs else l.pid in s.procs && PcFor(s.procs[l.pid].pc, l)
  }

  function JournalOf(s: State, session: string): seq<Turn> {
    if session in s.journals then s.journals[session] else []
  }

  /** Where invocation `me` stands after step `l`, given what its key's record holds and whether
      nobody holds its session's lock. */
  function NextPc(me: Proc, rec: Option<Turn>, idle: bool, l: Label): Pc
    requires l.Spawn? || PcFor(me.pc, l)
  {
    match l
    case Spawn(_, _, _) => Read
    case ReadStep(_, fault) =>
      if rec.None? || fault then Admit
      else if rec.value.prompt == me.prompt && rec.value.status == Dispatching then Probe(rec.value)
      else Exit
    case AdmitStep(_, cursorOk) => if cursorOk then Record(Turn(me.key, me.prompt, Admitted), AfterAdmit) else Exit
    case RecordStep(_, ok) => if ok then Journal(me.pc.turn, me.pc.next) else GaveUp(me.pc.next)
    case JournalStep(_, ok, _) => if ok then Succeeded(me.pc.turn, me.pc.next) else GaveUp(me.pc.next)
    case LockStep(_, usable) =>
      if usable && idle then Record(me.pc.turn.(status := Dispatching), AfterDispatch)
      else Record(me.pc.turn.(status := Rejected), AfterReject)
    case LaunchStep(_, ok) => if ok then Native(me.pc.turn) else Record(me.pc.turn.(status := Failed), AfterOutcome)
    case NativeStep(_, ok) => Record(me.pc.turn.(status := if ok then Completed else Uncertain), AfterOutcome)
    case ReleaseStep(_) => Exit
    case ProbeStep(_, usable) => if usable && idle then Unprobe(me.pc.turn) else Exit
    case UnprobeStep(_) => Record(me.pc.turn.(status := Uncertain), AfterReconcile)
    case Crash(_) => Exit
  }

  function RecordOf(s: State, k: Key): Option<Turn> {
    if k in s.records then Some(s.records[k]) else None
  }

  predicate Idle(s: State, session: string) {
    session !in s.lock
  }

  function NextProcs(s: State, l: Label): map<Pid, Proc>
    requires Enabled(s, l)
  {
    if l.Spawn? then s.procs[l.pid := Proc(l.key, l.prompt, Read)]
    else
      var me := s.procs[l.pid];
      s.procs[l.pid := me.(pc := NextPc(me, RecordOf(s, me.key), Idle(s, me.key.session), l))]
  }

  function NextRecords(s: State, l: Label): map<Key, Turn>
    requires Enabled(s, l)
  {
    if l.RecordStep? && l.ok then s.records[At(s, l.pid).turn.key := At(s, l.pid).turn] else s.records
  }

  function NextJournals(s: State, l: Label): map<string, seq<Turn>>
    requires Enabled(s, l)
  {
    if l.JournalStep? && (l.ok || l.appended) then
      var turn := At(s, l.pid).turn;
      s.journals[turn.key.session := JournalOf(s, turn.key.session) + [turn]]
    else s.journals
  }

  predicate Takes(s: State, l: Label) {
    (l.LockStep? || l.ProbeStep?) && l.usable && l.pid in s.procs && Idle(s, s.procs[l.pid].key.session)
  }

  function Free(lock: map<string, Pid>, p: Pid): map<string, Pid> {
    map x | x in lock && lock[x] != p :: lock[x]
  }

  function NextLock(s: State, l: Label): map<string, Pid> {
    if Takes(s, l) then s.lock[s.procs[l.pid].key.session := l.pid]
    else if l.ReleaseStep? || l.UnprobeStep? || l.Crash? then Free(s.lock, l.pid)
    else s.lock
  }

  function NextRuns(s: State, l: Label): seq<Key>
    requires Enabled(s, l)
  {
    if l.LaunchStep? && l.ok then s.runs + [At(s, l.pid).turn.key] else s.runs
  }

  function Apply(s: State, l: Label): State
    requires Enabled(s, l)
  {
    State(NextRecords(s, l), NextJournals(s, l), NextLock(s, l), NextProcs(s, l), NextRuns(s, l))
  }

  const START := State(map[], map[], map[], map[], [])

  ghost predicate IsRun(states: seq<State>, labels: seq<Label>) {
    && |states| == |labels| + 1 && states[0] == START
    && forall i :: 0 <= i < |labels| ==> Enabled(states[i], labels[i]) && states[i + 1] == Apply(states[i], labels[i])
  }

  // ---------------------------------------------------------------- phases

  /** Between taking the lock and giving it back. */
  predicate Holding(pc: Pc) {
    match pc
    case Record(_, n) => n == AfterDispatch || n == AfterOutcome
    case Journal(_, n) => n == AfterDispatch || n == AfterOutcome
    case Launch(_) => true
    case Native(_) => true
    case Release => true
    case Unprobe(_) => true
    case _ => false
  }

  /** Read the record before there was one, has not stored its own yet. */
  predicate Admitting(pc: Pc) {
    pc == Admit || (pc.Record? && pc.next == AfterAdmit)
  }

  /** Stored its admission, has not run the command and still may. */
  predicate Waiting(pc: Pc) {
    || (pc.Journal? && pc.next == AfterAdmit) || pc.Lock? || pc.Launch?
    || ((pc.Record? || pc.Journal?) && pc.next == AfterDispatch)
  }

  /** Stored its admission and will not run the command any more. */
  predicate Past(pc: Pc) {
    pc.Native? || pc == Release || ((pc.Record? || pc.Journal?) && (pc.next == AfterReject || pc.next == AfterOutcome))
  }

  predicate Owner(pc: Pc) {
    Admitting(pc) || Waiting(pc) || Past(pc)
  }

  /** Wrote `dispatching` and has not released the lock. */
  predicate Late(pc: Pc) {
    pc.Launch? || pc.Native? || pc == Release || (pc.Journal? && (pc.next == AfterDispatch || pc.next == AfterOutcome))
      || (pc.Record? && pc.next == AfterOutcome)
  }

  /** Never runs the command: a duplicate, or an invocation that ended. */
  predicate Bystander(pc: Pc) {
    pc == Exit || pc.Probe? || pc.Unprobe? || ((pc.Record? || pc.Journal?) && pc.next == AfterReconcile)
  }

  // ---------------------------------------------------------------- every run

  /** The turn a process carries is its own, with the status its phase writes. */
  predicate OwnTurn(me: Proc) {
    match me.pc
    case Record(t, n) => t.key == me.key && t.prompt == me.prompt && StatusFor(t.status, n)
    case Journal(t, n) => t.key == me.key && t.prompt == me.prompt && StatusFor(t.status, n)
    case Lock(t) => t.key == me.key && t.prompt == me.prompt && t.status == Admitted
    case Launch(t) => t.key == me.key && t.prompt == me.prompt && t.status == Dispatching
    case Native(t) => t.key == me.key && t.prompt == me.prompt && t.status == Dispatching
    case Probe(t) => t.key == me.key && t.prompt == me.prompt && t.status == Dispatching
    case Unprobe(t) => t.key == me.key && t.prompt == me.prompt && t.status == Dispatching
    case _ => true
  }

  predicate StatusFor(s: Status, n: Next) {
    match n
    case AfterAdmit => s == Admitted
    case AfterReject => s == Rejected
    case AfterDispatch => s == Dispatching
    case AfterOutcome => s == Failed || s == Completed || s == Uncertain
    case AfterReconcile => s == Uncertain
  }

  /** Who holds a lock is in the table of locks, and the other way round. */
  ghost predicate Holders(s: State) {
    && (forall p :: p in s.procs && Holding(s.procs[p].pc) ==>
          s.procs[p].key.session in s.lock && s.lock[s.procs[p].key.session] == p)
    && (forall x :: x in s.lock ==>
          s.lock[x] in s.procs && Holding(s.procs[s.lock[x]].pc) && s.procs[s.lock[x]].key.session == x)
  }

  /** Holds without any assumption on reads or on overlapping admissions. */
  ghost predicate LockInv(s: State) {
    && (forall p :: p in s.procs ==> OwnTurn(s.procs[p]))
    && (forall k :: k in s.records ==> s.records[k].key == k)
    && Holders(s)
  }

  lemma NextIsOwn(me: Proc, rec: Option<Turn>, idle: bool, l: Label)
    requires OwnTurn(me) && PcFor(me.pc, l)
    requires rec.Some? ==> rec.value.key == me.key
    ensures OwnTurn(me.(pc := NextPc(me, rec, idle, l)))
  {
  }

  lemma NextHolding(me: Proc, rec: Option<Turn>, idle: bool, l: Label)
    requires PcFor(me.pc, l) && OwnTurn(me)
    ensures (l.LockStep? || l.ProbeStep?) && l.usable && idle ==> Holding(NextPc(me, rec, idle, l)) && !Holding(me.pc)
    ensures l.ReleaseStep? || l.UnprobeStep? || l.Crash? ==> !Holding(NextPc(me, rec, idle, l))
    ensures ((l.LockStep? || l.ProbeStep?) && l.usable && idle) || l.ReleaseStep? || l.UnprobeStep? || l.Crash?
         || Holding(NextPc(me, rec, idle, l)) == Holding(me.pc)
  {
  }

  lemma StepKeepsLock(s: State, l: Label)
    requires LockInv(s) && Enabled(s, l)
    ensures LockInv(Apply(s, l))
  {
    StepKeepsHolders(s, l);
    hide OwnTurn, Holding, NextPc, JournalOf, NextJournals, NextRuns, NextLock, PcFor;
    if l.Spawn? {
      FreshHoldsNothing(l.key, l.prompt);
    } else {
      var me := s.procs[l.pid];
      NextIsOwn(me, RecordOf(s, me.key), Idle(s, me.key.session), l);
      if l.RecordStep? { RecordStepCarries(me, l); }
    }
  }

  lemma StepKeepsHolders(s: State, l: Label)
    requires LockInv(s) && Enabled(s, l)
    ensures Holders(Apply(s, l))
  {
    hide OwnTurn, Holding, NextPc, JournalOf, NextJournals, NextRecords, NextRuns, PcFor;
    if l.Spawn? {
      FreshHoldsNothing(l.key, l.prompt);
    } else {
      var me := s.procs[l.pid];
      NextHolding(me, RecordOf(s, me.key), Idle(s, me.key.session), l);
    }
  }

  lemma RecordStepCarries(me: Proc, l: Label)
    requires OwnTurn(me) && PcFor(me.pc, l) && l.RecordStep?
    ensures me.pc.Record? && me.pc.turn.key == me.key
  {
  }

  lemma FreshHoldsNothing(key: Key, prompt: string)
    ensures OwnTurn(Proc(key, prompt, Read)) && !Holding(Read)
  {
  }

  lemma {:induction false} RunKeepsLock(states: seq<State>, labels: seq<Label>, n: nat)
    requires IsRun(states, labels) && n < |states|
    ensures LockInv(states[n])
  {
    hide LockInv, Enabled, Apply;
    if n == 0 {
      StartLock();
    } else {
      RunKeepsLock(states, labels, n - 1);
      StepKeepsLock(states[n - 1], labels[n - 1]);
    }
  }

  lemma StartLock()
    ensures LockInv(START)
  {
  }

  /** At any moment at most one process of a session is between taking its lock and giving it back. */
  lemma OneWriterPerSession(states: seq<State>, labels: seq<Label>, n: nat, p: Pid, q: Pid)
    requires IsRun(states, labels) && n < |states|
    requires Holding(At(states[n], p)) && Holding(At(states[n], q))
    requires states[n].procs[p].key.session == states[n].procs[q].key.session
    ensures p == q
  {
    hide IsRun;
    RunKeepsLock(states, labels, n);
  }

  /** An invocation that reads its record never runs the native command, whatever happens later. */
  lemma {:induction false} DuplicateNeverRuns(states: seq<State>, labels: seq<Label>, i: nat, n: nat, p: Pid)
    requires IsRun(states, labels) && i < n < |states|
    requires labels[i] == ReadStep(p, false) && states[i].procs[p].key in states[i].records
    ensures p in states[n].procs && Bystander(states[n].procs[p].pc)
    decreases n
  {
    assert Enabled(states[i], labels[i]) && states[i + 1] == Apply(states[i], labels[i]);
    if n > i + 1 {
      DuplicateNeverRuns(states, labels, i, n - 1, p);
      assert Enabled(states[n - 1], labels[n - 1]) && states[n] == Apply(states[n - 1], labels[n - 1]);
      hide IsRun;
      BystanderStays(states[n - 1], labels[n - 1], p);
    }
  }

  lemma BystanderStays(s: State, l: Label, p: Pid)
    requires Enabled(s, l) && p in s.procs && Bystander(s.procs[p].pc)
    ensures p in Apply(s, l).procs && Bystander(Apply(s, l).procs[p].pc)
  {
  }

  // ---------------------------------------------------------------- write ahead

  /** Some state up to `n` held exactly `turn` as its key's record. */
  ghost predicate WasStored(states: seq<State>, n: nat, turn: Turn) {
    exists j :: 0 <= j <= n && j < |states| && RecordOf(states[j], turn.key) == Some(turn)
  }

  predicate Dispatched(pc: Pc) {
    pc.Launch? || pc.Native?
  }

  /** The record was replaced, and past that the journal line is there too. */
  ghost predicate WrittenAhead(states: seq<State>, n: nat, p: Pid)
    requires n < |states|
  {
    var pc := At(states[n], p);
    && (Dispatched(pc) || pc.Journal? ==> WasStored(states, n, pc.turn))
    && (Dispatched(pc) ==> pc.turn in JournalOf(states[n], pc.turn.key.session))
  }

  lemma StoredStays(states: seq<State>, n: nat, turn: Turn)
    requires WasStored(states, n, turn)
    ensures WasStored(states, n + 1, turn)
  {
    var j :| 0 <= j <= n && j < |states| && RecordOf(states[j], turn.key) == Some(turn);
    assert 0 <= j <= n + 1;
  }

  lemma JournalGrows(s: State, l: Label, session: string, turn: Turn)
    requires Enabled(s, l) && turn in JournalOf(s, session)
    ensures turn in JournalOf(Apply(s, l), session)
  {
  }

  /** How a process comes to be past a store: it stored the record, or it appended the line, or it
      was there already. */
  lemma StoreOrigin(s: State, l: Label, p: Pid)
    requires Enabled(s, l)
    ensures var pc, next := At(s, p), At(Apply(s, l), p);
      Dispatched(next) || next.Journal? ==>
        || (pc.Record? && pc.turn == next.turn && next.Journal?
              && RecordOf(Apply(s, l), next.turn.key) == Some(next.turn))
        || (pc.Journal? && pc.turn == next.turn && next.Launch?
              && next.turn in JournalOf(Apply(s, l), next.turn.key.session))
        || (Dispatched(pc) && pc.turn == next.turn && Dispatched(next))
        || (pc.Journal? && next == pc)
  {
  }

  /** Whatever the interleaving, a process about to run the native command, or running it, has had
      a turn of its own key and prompt with status `dispatching` in the record, and has it in the journal. */
  lemma WriteAhead(states: seq<State>, labels: seq<Label>, n: nat, p: Pid)
    requires IsRun(states, labels) && n < |states| && p in states[n].procs && Dispatched(states[n].procs[p].pc)
    ensures var me := states[n].procs[p];
      var turn := me.pc.turn;
      && turn.status == Dispatching && turn.key == me.key && turn.prompt == me.prompt
      && WasStored(states, n, turn) && turn in JournalOf(states[n], turn.key.session)
  {
    AlwaysWritten(states, labels, n, p);
    RunKeepsLock(states, labels, n);
    assert OwnTurn(states[n].procs[p]);
  }

  lemma {:induction false} AlwaysWritten(states: seq<State>, labels: seq<Label>, n: nat, p: Pid)
    requires IsRun(states, labels) && n < |states|
    ensures WrittenAhead(states, n, p)
  {
    hide Enabled, Apply, JournalOf, WasStored;
    if n > 0 {
      AlwaysWritten(states, labels, n - 1, p);
      var s, l, pc := states[n - 1], labels[n - 1], At(states[n], p);
      assert Enabled(s, l) && states[n] == Apply(s, l);
      StoreOrigin(s, l, p);
      if Dispatched(pc) || pc.Journal? {
        if At(s, p).Record? { StoredNow(states, n, pc.turn); } else { StoredStays(states, n - 1, pc.turn); }
        if Dispatched(At(s, p)) { JournalGrows(s, l, pc.turn.key.session, pc.turn); }
      }
    }
  }

  lemma StoredNow(states: seq<State>, n: nat, turn: Turn)
    requires n < |states| && RecordOf(states[n], turn.key) == Some(turn)
    ensures WasStored(states, n, turn)
  {
  }

  // ---------------------------------------------------------------- what a status says

  /** Step `l` of invocation `me` is what the status of a turn of its key and prompt tells of: the
      admission, the lock refused or taken, a launch that failed, a command that ended well or badly, or
      the lock of an unfinished dispatch found free and given back. */
  predicate Tells(me: Proc, idle: bool, l: Label, t: Turn) {
    && me.key == t.key && me.prompt == t.prompt
    && match t.status
       case Admitted => l == AdmitStep(l.pid, true)
       case Rejected => l.LockStep? && !(l.usable && idle)
       case Dispatching => l.LockStep? && l.usable && idle
       case Failed => l == LaunchStep(l.pid, false)
       case Completed => l == NativeStep(l.pid, true)
       case Uncertain => l == NativeStep(l.pid, false) || l.UnprobeStep?
  }

  predicate Reports(s: State, l: Label, t: Turn) {
    l.pid in s.procs && Tells(s.procs[l.pid], Idle(s, t.key.session), l, t)
  }

  ghost predicate Reported(states: seq<State>, labels: seq<Label>, n: nat, t: Turn)
    requires |states| == |labels| + 1
  {
    exists i :: 0 <= i < n && i < |labels| && Reports(states[i], labels[i], t)
  }

  predicate Carries(pc: Pc, t: Turn) {
    (pc.Record? || pc.Journal? || pc.Lock? || pc.Launch? || pc.Native? || pc.Probe? || pc.Unprobe?) && pc.turn == t
  }

  /** The turn is in a record, on a line of a journal, or with a process. */
  ghost predicate Present(s: State, t: Turn) {
    || RecordOf(s, t.key) == Some(t)
    || t in JournalOf(s, t.key.session)
    || exists p :: p in s.procs && Carries(s.procs[p].pc, t)
  }

  lemma NextCarries(me: Proc, rec: Option<Turn>, idle: bool, l: Label, t: Turn)
    requires OwnTurn(me) && PcFor(me.pc, l) && Carries(NextPc(me, rec, idle, l), t)
    ensures Carries(me.pc, t) || (rec == Some(t) && l.ReadStep?) || (me.key == t.key && Tells(me, idle, l, t))
  {
  }

  lemma CarriesOrigin(s: State, l: Label, p: Pid, t: Turn)
    requires LockInv(s) && Enabled(s, l) && p in Apply(s, l).procs && Carries(Apply(s, l).procs[p].pc, t)
    ensures Present(s, t) || Reports(s, l, t)
  {
    FreshCarriesNothing(l, t);
    hide JournalOf, NextJournals, NextRecords, NextRuns, NextLock, NextPc, Carries, Tells, OwnTurn, PcFor, Holders;
    if p != l.pid {
      assert p in s.procs && Carries(s.procs[p].pc, t);
    } else if !l.Spawn? {
      var me := s.procs[p];
      NextCarries(me, RecordOf(s, me.key), Idle(s, me.key.session), l, t);
    }
  }

  lemma FreshCarriesNothing(l: Label, t: Turn)
    ensures !Carries(Read, t)
  {
  }

  lemma PresentOrigin(s: State, l: Label, t: Turn)
    requires LockInv(s) && Enabled(s, l) && Present(Apply(s, l), t)
    ensures Present(s, t) || Reports(s, l, t)
  {
    var u := Apply(s, l);
    if RecordOf(u, t.key) == Some(t) && RecordOf(s, t.key) != Some(t) {
      assert Carries(s.procs[l.pid].pc, t);
    } else if t in JournalOf(u, t.key.session) && t !in JournalOf(s, t.key.session) {
      assert Carries(s.procs[l.pid].pc, t);
    } else if p :| p in u.procs && Carries(u.procs[p].pc, t) {
      CarriesOrigin(s, l, p, t);
    }
  }

  /** Over every run: whatever status is recorded, journaled or carried, the step it tells of has happened. */
  lemma {:induction false} StatusesReport(states: seq<State>, labels: seq<Label>, n: nat, t: Turn)
    requires IsRun(states, labels) && n < |states| && Present(states[n], t)
    ensures Reported(states, labels, n, t)
  {
    hide Enabled, Apply, Reports, Present;
    if n == 0 {
      StartHasNone(t);
    } else {
      RunKeepsLock(states, labels, n - 1);
      assert Enabled(states[n - 1], labels[n - 1]) && states[n] == Apply(states[n - 1], labels[n - 1]);
      PresentOrigin(states[n - 1], labels[n - 1], t);
      if Present(states[n - 1], t) { StatusesReport(states, labels, n - 1, t); }
    }
  }

  lemma StartHasNone(t: Turn)
    ensures !Present(START, t)
  {
  }

  /** A step that settles what becomes of the turn. */
  predicate Decides(s: State, l: Label) {
    && l.pid in s.procs
    && (l.NativeStep? || l.UnprobeStep? || (l.LaunchStep? && !l.ok)
        || (l.LockStep? && !(l.usable && Idle(s, s.procs[l.pid].key.session))))
  }

  /** The process stores that status, or it has, or it has given up; it stores nothing else. */
  predicate Settling(pc: Pc, t: Turn) {
    || ((pc.Record? || pc.Journal?) && pc.turn == t && pc.next in {AfterReject, AfterOutcome, AfterReconcile})
    || pc == Release || pc == Exit
  }

  /** The turn a process carries right after step `i`. */
  function TurnAfter(states: seq<State>, labels: seq<Label>, i: nat): Option<Turn>
    requires i < |labels| && i + 1 < |states|
  {
    var pc := At(states[i + 1], labels[i].pid);
    if pc.Record? then Some(pc.turn) else None
  }

  lemma Decided(s: State, l: Label)
    requires LockInv(s) && Enabled(s, l) && Decides(s, l)
    ensures var pc := At(Apply(s, l), l.pid);
      && l.pid in Apply(s, l).procs && Apply(s, l).procs[l.pid].key == s.procs[l.pid].key
      && pc.Record? && Settling(pc, pc.turn) && Reports(s, l, pc.turn)
  {
    hide JournalOf, NextJournals, NextRecords, NextRuns, NextLock, Holders;
    assert OwnTurn(s.procs[l.pid]);
  }

  lemma SettlingStays(s: State, l: Label, p: Pid, t: Turn)
    requires Enabled(s, l) && p in s.procs && Settling(s.procs[p].pc, t)
    ensures p in Apply(s, l).procs && Apply(s, l).procs[p].key == s.procs[p].key
    ensures Settling(Apply(s, l).procs[p].pc, t)
    ensures l == RecordStep(p, true) ==> RecordOf(Apply(s, l), t.key) == Some(t)
  {
    hide JournalOf, NextJournals, NextRuns, NextLock;
  }

  lemma {:induction false} DecidedStays(states: seq<State>, labels: seq<Label>, i: nat, n: nat)
    requires IsRun(states, labels) && i < n < |states| && Decides(states[i], labels[i])
    ensures TurnAfter(states, labels, i).Some? && Reports(states[i], labels[i], TurnAfter(states, labels, i).value)
    ensures var p, t := labels[i].pid, TurnAfter(states, labels, i).value;
      p in states[n].procs && states[n].procs[p].key == t.key && Settling(states[n].procs[p].pc, t)
  {
    hide Enabled, Apply, LockInv, Settling;
    assert Enabled(states[n - 1], labels[n - 1]) && states[n] == Apply(states[n - 1], labels[n - 1]);
    if n == i + 1 {
      RunKeepsLock(states, labels, i);
      Decided(states[i], labels[i]);
    } else {
      DecidedStays(states, labels, i, n - 1);
      SettlingStays(states[n - 1], labels[n - 1], labels[i].pid, TurnAfter(states, labels, i).value);
    }
  }

  /** And the other way round: once a step has settled what becomes of a turn, whatever its process
      stores afterwards is the status that tells of that step; a command that ended well is completed,
      one that ended badly uncertain. */
  lemma OutcomeIsStored(states: seq<State>, labels: seq<Label>, i: nat, j: nat)
    requires IsRun(states, labels) && i < j < |labels| && Decides(states[i], labels[i])
    requires labels[j] == RecordStep(labels[i].pid, true)
    ensures var k := states[i].procs[labels[i].pid].key;
      && k in states[j + 1].records && Reports(states[i], labels[i], states[j + 1].records[k])
      && (labels[i].NativeStep? ==>
            states[j + 1].records[k].status == if labels[i].ok then Completed else Uncertain)
  {
    hide Enabled, Apply, LockInv, Settling;
    DecidedStays(states, labels, i, j);
    SettlingStays(states[j], labels[j], labels[i].pid, TurnAfter(states, labels, i).value);
  }

  /** A turn that was journaled, whatever its status, stays in the journal for the rest of the run. */
  lemma {:induction false} JournaledStays(states: seq<State>, labels: seq<Label>, i: nat, n: nat)
    requires IsRun(states, labels) && i < n < |states|
    requires labels[i].JournalStep? && (labels[i].ok || labels[i].appended)
    ensures var pc := At(states[i], labels[i].pid);
      pc.Journal? && pc.turn in JournalOf(states[n], pc.turn.key.session)
  {
    hide NextJournals, JournalOf;
    assert Enabled(states[n - 1], labels[n - 1]) && states[n] == Apply(states[n - 1], labels[n - 1]);
    hide Apply;
    var pc := At(states[i], labels[i].pid);
    if n == i + 1 {
      JournalsNow(states[i], labels[i]);
    } else {
      JournaledStays(states, labels, i, n - 1);
      JournalGrows(states[n - 1], labels[n - 1], pc.turn.key.session, pc.turn);
    }
  }

  lemma JournalsNow(s: State, l: Label)
    requires Enabled(s, l) && l.JournalStep? && (l.ok || l.appended)
    ensures At(s, l.pid).Journal?
    ensures At(s, l.pid).turn in JournalOf(Apply(s, l), At(s, l.pid).turn.key.session)
  {
  }

  // ---------------------------------------------------------------- at most once

  /** What the environment grants: a record that exists is read, and no invocation reads between
      another's read and its first record of the same key. */
  predicate Serial(s: State, l: Label) {
    Readable(s, l) && Alone(s, l)
  }

  predicate Readable(s: State, l: Label) {
    l.ReadStep? && l.pid in s.procs && s.procs[l.pid].key in s.records ==> !l.fault
  }

  predicate Alone(s: State, l: Label) {
    l.ReadStep? && l.pid in s.procs ==>
      forall q :: q in s.procs && q != l.pid && s.procs[q].key == s.procs[l.pid].key ==> !Admitting(s.procs[q].pc)
  }

  ghost predicate SerialRun(states: seq<State>, labels: seq<Label>) {
    IsRun(states, labels) && forall i :: 0 <= i < |labels| ==> Serial(states[i], labels[i])
  }

  /** What the durable state says of one key: its record, and whether its command was ever run. */
  datatype View = View(rec: Option<Turn>, ran: bool)

  function ViewOf(s: State, k: Key): View {
    View(RecordOf(s, k), k in s.runs)
  }

  /** A process in phase `pc` fits what its key's record and history say. */
  predicate Fits(pc: Pc, v: View) {
    && (Admitting(pc) ==> v.rec.None?)
    && (Admitting(pc) || Waiting(pc) ==> !v.ran)
    && (Waiting(pc) || Past(pc) || (Bystander(pc) && pc != Exit) ==> v.rec.Some?)
    && (pc.Record? && (pc.turn.status == Failed || pc.turn.status == Rejected) ==> !v.ran)
    && (pc.Lock? || pc.Launch? || pc.Native? || (pc.Journal? && pc.next != AfterReconcile) ==> v.rec == Some(pc.turn))
    && (pc.Record? && (pc.next == AfterReject || pc.next == AfterDispatch) ==> v.rec.value.status == Admitted)
    && (pc.Record? && pc.next == AfterOutcome ==> v.rec.value.status == Dispatching)
  }

  /** What a stored status says of the command. */
  predicate Settled(v: View) {
    && (v.ran ==> v.rec.Some?)
    && (v.rec.Some? && v.rec.value.status in {Admitted, Rejected, Failed} ==> !v.ran)
  }

  /** Between two processes with the same key: one owner, and reconciliation only once the owner
      that wrote `dispatching` has given the lock back or died. */
  predicate PairInv(a: Pc, b: Pc) {
    && !(Owner(a) && Owner(b))
    && (a.Probe? && Owner(b) ==> Late(b))
    && (a.Unprobe? || ((a.Record? || a.Journal?) && a.next == AfterReconcile) ==> !Owner(b))
  }

  ghost predicate OnceInv(s: State) {
    && (forall p :: p in s.procs ==> Fits(s.procs[p].pc, ViewOf(s, s.procs[p].key)))
    && (forall p, q :: p in s.procs && q in s.procs && p != q && s.procs[p].key == s.procs[q].key ==>
          PairInv(s.procs[p].pc, s.procs[q].pc))
    && (forall k: Key :: Settled(ViewOf(s, k)))
    && (forall i, j :: 0 <= i < j < |s.runs| ==> s.runs[i] != s.runs[j])
  }

  /** The key's view after a step of an invocation of that key. */
  function NextView(me: Proc, v: View, l: Label): View
    requires PcFor(me.pc, l)
  {
    View(if l.RecordStep? && l.ok then Some(me.pc.turn) else v.rec, v.ran || (l.LaunchStep? && l.ok))
  }

  lemma MeFits(me: Proc, v: View, idle: bool, l: Label)
    requires OwnTurn(me) && PcFor(me.pc, l) && Fits(me.pc, v) && Settled(v)
    requires l.ReadStep? && v.rec.Some? ==> !l.fault
    ensures Fits(NextPc(me, v.rec, idle, l), NextView(me, v, l)) && Settled(NextView(me, v, l))
  {
  }

  lemma OtherFits(me: Proc, q: Proc, v: View, l: Label)
    requires OwnTurn(me) && OwnTurn(q) && PcFor(me.pc, l) && Fits(me.pc, v) && Fits(q.pc, v) && PairInv(me.pc, q.pc)
    ensures Fits(q.pc, NextView(me, v, l))
  {
  }

  lemma PairKept(me: Proc, q: Proc, v: View, idle: bool, l: Label)
    requires OwnTurn(me) && OwnTurn(q) && PcFor(me.pc, l) && Fits(me.pc, v) && Fits(q.pc, v)
    requires PairInv(me.pc, q.pc) && PairInv(q.pc, me.pc)
    requires l.ReadStep? ==> (v.rec.Some? ==> !l.fault) && !Admitting(q.pc)
    requires Holding(q.pc) ==> !idle
    ensures PairInv(NextPc(me, v.rec, idle, l), q.pc) && PairInv(q.pc, NextPc(me, v.rec, idle, l))
  {
  }

  lemma LaunchIsFirst(me: Proc, v: View, l: Label)
    requires PcFor(me.pc, l) && l.LaunchStep? && OwnTurn(me) && Fits(me.pc, v)
    ensures !v.ran && me.pc.Launch? && me.pc.turn.key == me.key
  {
  }

  lemma StepKeepsFits(s: State, l: Label, p: Pid)
    requires LockInv(s) && OnceInv(s) && Enabled(s, l) && Serial(s, l) && p in Apply(s, l).procs
    ensures Fits(Apply(s, l).procs[p].pc, ViewOf(Apply(s, l), Apply(s, l).procs[p].key))
  {
    hide OwnTurn, Holding, NextPc, Fits, PairInv, Settled, NextLock, NextJournals, PcFor;
    if l.Spawn? {
      if l.pid == p { FreshFits(l.prompt, ViewOf(s, l.key)); }
    } else {
      var me := s.procs[l.pid];
      var v := ViewOf(s, me.key);
      ViewMoves(s, l);
      if l.pid == p {
        MeFits(me, v, Idle(s, me.key.session), l);
      } else if s.procs[p].key == me.key {
        OtherFits(me, s.procs[p], v, l);
      } else {
        OtherView(s, l, s.procs[p].key);
      }
    }
  }

  lemma FreshFits(prompt: string, v: View)
    ensures Fits(Read, v)
  {
  }

  lemma ViewMoves(s: State, l: Label)
    requires LockInv(s) && Enabled(s, l) && !l.Spawn?
    ensures ViewOf(Apply(s, l), s.procs[l.pid].key) == NextView(s.procs[l.pid], ViewOf(s, s.procs[l.pid].key), l)
  {
    hide Holding, NextPc, NextLock, NextJournals, NextProcs;
    assert OwnTurn(s.procs[l.pid]);
  }

  lemma OtherView(s: State, l: Label, k: Key)
    requires LockInv(s) && Enabled(s, l) && (l.Spawn? || s.procs[l.pid].key != k)
    ensures ViewOf(Apply(s, l), k) == ViewOf(s, k)
  {
    hide Holding, NextPc, NextLock, NextJournals, NextProcs;
    assert !l.Spawn? ==> OwnTurn(s.procs[l.pid]);
  }

  lemma StepKeepsPairs(s: State, l: Label, p: Pid, q: Pid)
    requires LockInv(s) && OnceInv(s) && Enabled(s, l) && Serial(s, l)
    requires p in Apply(s, l).procs && q in Apply(s, l).procs && p != q
    requires Apply(s, l).procs[p].key == Apply(s, l).procs[q].key
    ensures PairInv(Apply(s, l).procs[p].pc, Apply(s, l).procs[q].pc)
  {
    hide OwnTurn, Holding, NextPc, Fits, PairInv, Settled, NextLock, NextJournals, NextRecords, NextRuns, PcFor,
      Admitting;
    if l.Spawn? && (l.pid == p || l.pid == q) {
      ReadPairs(s.procs[if l.pid == p then q else p].pc);
    } else if !l.Spawn? && l.pid == p {
      PairKept(s.procs[p], s.procs[q], ViewOf(s, s.procs[p].key), Idle(s, s.procs[p].key.session), l);
    } else if !l.Spawn? && l.pid == q {
      PairKept(s.procs[q], s.procs[p], ViewOf(s, s.procs[q].key), Idle(s, s.procs[q].key.session), l);
    }
  }

  lemma ReadPairs(a: Pc)
    ensures PairInv(a, Read) && PairInv(Read, a)
  {
  }

  lemma StepKeepsSettled(s: State, l: Label, k: Key)
    requires LockInv(s) && OnceInv(s) && Enabled(s, l) && Serial(s, l)
    ensures Settled(ViewOf(Apply(s, l), k))
  {
    hide OwnTurn, Holding, NextPc, Fits, PairInv, Settled, NextLock, NextJournals, NextRecords, NextRuns, PcFor;
    if !l.Spawn? && s.procs[l.pid].key == k {
      ViewMoves(s, l);
      MeFits(s.procs[l.pid], ViewOf(s, k), Idle(s, k.session), l);
    } else {
      OtherView(s, l, k);
    }
  }

  lemma StepKeepsOnce(s: State, l: Label)
    requires LockInv(s) && OnceInv(s) && Enabled(s, l) && Serial(s, l)
    ensures OnceInv(Apply(s, l))
  {
    hide OwnTurn, Holding, NextPc, Fits, PairInv, Settled, NextLock, NextJournals, NextRecords, NextProcs, PcFor,
      LockInv, Serial;
    var t := Apply(s, l);
    forall p | p in t.procs ensures Fits(t.procs[p].pc, ViewOf(t, t.procs[p].key)) { StepKeepsFits(s, l, p); }
    forall p, q | p in t.procs && q in t.procs && p != q && t.procs[p].key == t.procs[q].key
      ensures PairInv(t.procs[p].pc, t.procs[q].pc) { StepKeepsPairs(s, l, p, q); }
    forall k: Key ensures Settled(ViewOf(t, k)) { StepKeepsSettled(s, l, k); }
    if l.LaunchStep? && l.ok { StepRunsFirst(s, l); }
  }

  lemma StepRunsFirst(s: State, l: Label)
    requires LockInv(s) && OnceInv(s) && Enabled(s, l) && l.LaunchStep?
    ensures At(s, l.pid).turn.key !in s.runs
  {
    LaunchIsFirst(s.procs[l.pid], ViewOf(s, s.procs[l.pid].key), l);
  }

  lemma {:induction false} RunKeepsOnce(states: seq<State>, labels: seq<Label>, n: nat)
    requires SerialRun(states, labels) && n < |states|
    ensures OnceInv(states[n])
  {
    if n > 0 {
      hide Enabled, Apply, OnceInv, Serial;
      RunKeepsOnce(states, labels, n - 1);
      RunKeepsLock(states, labels, n - 1);
      assert Enabled(states[n - 1], labels[n - 1]) && Serial(states[n - 1], labels[n - 1]);
      StepKeepsOnce(states[n - 1], labels[n - 1]);
    }
  }

  /** With admissions of one reference serialised, its native command runs at most once, and a
      stored `admitted`, `rejected` or `failed` means that it never ran. */
  lemma RunsAtMostOnce(states: seq<State>, labels: seq<Label>, n: nat, k: Key)
    requires SerialRun(states, labels) && n < |states|
    ensures forall i, j :: 0 <= i < j < |states[n].runs| ==> states[n].runs[i] != states[n].runs[j]
    ensures k in states[n].records && states[n].records[k].status in {Admitted, Rejected, Failed} ==>
      k !in states[n].runs
    ensures k in states[n].runs ==> k in states[n].records
  {
    RunKeepsOnce(states, labels, n);
    hide SerialRun;
    assert Settled(ViewOf(states[n], k));
  }

  /** With admissions serialised the record still reads `dispatching` when the command is run. */
  lemma LaunchSeesIntent(states: seq<State>, labels: seq<Label>, n: nat, p: Pid)
    requires SerialRun(states, labels) && n < |states| && Dispatched(At(states[n], p))
    ensures var turn := At(states[n], p).turn;
      && turn.key == states[n].procs[p].key && turn.status == Dispatching
      && RecordOf(states[n], turn.key) == Some(turn) && turn in JournalOf(states[n], turn.key.session)
  {
    RunKeepsOnce(states, labels, n);
    RunKeepsLock(states, labels, n);
    AlwaysWritten(states, labels, n, p);
    hide SerialRun;
    assert Fits(states[n].procs[p].pc, ViewOf(states[n], states[n].procs[p].key));
    assert OwnTurn(states[n].procs[p]);
  }

  // ---------------------------------------------------------------- both conditions are needed

  function Final(states: seq<State>): State
    requires |states| > 0
  {
    states[|states| - 1]
  }

  /** A run goes on with any enabled step. */
  lemma Extend(states: seq<State>, labels: seq<Label>, l: Label)
    requires IsRun(states, labels) && Enabled(Final(states), l)
    ensures IsRun(states + [Apply(Final(states), l)], labels + [l])
  {
    hide Enabled, Apply;
  }

  /** `me` runs as `p` in phase `me.pc` and no other process holds a lock. */
  predicate Stands(s: State, p: Pid, me: Proc, runs: seq<Key>) {
    && p in s.procs && s.procs[p] == me && OwnTurn(me) && s.runs == runs
    && s.lock == if Holding(me.pc) then map[me.key.session := p] else map[]
  }

  /** The run `states` with some steps of `p` only, none of them a read. */
  ghost predicate Continues(states: seq<State>, labels: seq<Label>, more: seq<State>, steps: seq<Label>, p: Pid) {
    && IsRun(more, steps) && labels <= steps && 0 < |states| && states <= more
    && (forall i :: |labels| <= i < |steps| ==> !steps[i].ReadStep?)
    && Final(more).procs - {p} == Final(states).procs - {p}
    && Final(more).records.Keys >= Final(states).records.Keys
  }

  lemma Advance(s: State, p: Pid, me: Proc, l: Label, pc: Pc, runs: seq<Key>)
    requires Stands(s, p, me, runs) && l.pid == p && !l.ReadStep? && !l.Spawn? && PcFor(me.pc, l)
    requires pc == NextPc(me, None, true, l)
    requires (l.LockStep? || l.ProbeStep?) ==> l.usable
    ensures Enabled(s, l)
    ensures Stands(Apply(s, l), p, me.(pc := pc), if l.LaunchStep? && l.ok then runs + [me.key] else runs)
    ensures Apply(s, l).procs - {p} == s.procs - {p} && Apply(s, l).records.Keys >= s.records.Keys
    ensures RecordOf(Apply(s, l), me.key) == if l.RecordStep? && l.ok then Some(me.pc.turn) else RecordOf(s, me.key)
  {
    hide NextJournals, Holding, OwnTurn;
    NextHolding(me, None, true, l);
    NextIsOwn(me, None, true, l);
    if l.RecordStep? { RecordStepCarries(me, l); }
    if l.LaunchStep? { LaunchStepCarries(me, l); }
  }

  lemma LaunchStepCarries(me: Proc, l: Label)
    requires OwnTurn(me) && PcFor(me.pc, l) && l.LaunchStep?
    ensures me.pc.Launch? && me.pc.turn.key == me.key
  {
  }

  lemma Do(states: seq<State>, labels: seq<Label>, more: seq<State>, steps: seq<Label>, p: Pid, me: Proc, l: Label,
      pc: Pc, runs: seq<Key>)
    returns (next: seq<State>, done: seq<Label>)
    requires Continues(states, labels, more, steps, p) && Stands(Final(more), p, me, runs)
    requires l.pid == p && !l.ReadStep? && !l.Spawn? && PcFor(me.pc, l) && pc == NextPc(me, None, true, l)
    requires (l.LockStep? || l.ProbeStep?) ==> l.usable
    ensures Continues(states, labels, next, done, p)
    ensures Stands(Final(next), p, me.(pc := pc), if l.LaunchStep? && l.ok then runs + [me.key] else runs)
    ensures Final(next).records.Keys >= Final(more).records.Keys
    ensures RecordOf(Final(next), me.key) ==
      if l.RecordStep? && l.ok then Some(me.pc.turn) else RecordOf(Final(more), me.key)
  {
    hide Apply, Stands, Enabled, NextPc, PcFor, IsRun, OwnTurn;
    Advance(Final(more), p, me, l, pc, runs);
    ContinuesRuns(states, labels, more, steps, p);
    Extend(more, steps, l);
    next, done := more + [Apply(Final(more), l)], steps + [l];
  }

  /** From a reader that found no record to the intent on disk. */
  lemma PrepareSend(states: seq<State>, labels: seq<Label>, p: Pid, me: Proc, runs: seq<Key>)
    returns (more: seq<State>, steps: seq<Label>)
    requires IsRun(states, labels) && Stands(Final(states), p, me, runs) && me.pc == Admit
    ensures Continues(states, labels, more, steps, p)
    ensures Stands(Final(more), p, me.(pc := Launch(Turn(me.key, me.prompt, Dispatching))), runs)
    ensures RecordOf(Final(more), me.key) == Some(Turn(me.key, me.prompt, Dispatching))
  {
    hide Stands, IsRun, OwnTurn, Continues;
    var turn := Turn(me.key, me.prompt, Admitted);
    var sent := turn.(status := Dispatching);
    ContinuesItself(states, labels, p);
    more, steps := Do(states, labels, states, labels, p, me, AdmitStep(p, true), Record(turn, AfterAdmit), runs);
    more, steps := Do(states, labels, more, steps, p, me.(pc := Record(turn, AfterAdmit)), RecordStep(p, true),
      Journal(turn, AfterAdmit), runs);
    more, steps := Do(states, labels, more, steps, p, me.(pc := Journal(turn, AfterAdmit)), JournalStep(p, true, true),
      Lock(turn), runs);
    more, steps := Do(states, labels, more, steps, p, me.(pc := Lock(turn)), LockStep(p, true),
      Record(sent, AfterDispatch), runs);
    more, steps := Do(states, labels, more, steps, p, me.(pc := Record(sent, AfterDispatch)), RecordStep(p, true),
      Journal(sent, AfterDispatch), runs);
    more, steps := Do(states, labels, more, steps, p, me.(pc := Journal(sent, AfterDispatch)),
      JournalStep(p, true, true), Launch(sent), runs);
  }

  /** And on to the end of a successful send. */
  lemma FinishSend(states: seq<State>, labels: seq<Label>, p: Pid, me: Proc, runs: seq<Key>)
    returns (more: seq<State>, steps: seq<Label>)
    requires IsRun(states, labels) && Stands(Final(states), p, me, runs) && me.pc == Admit
    ensures Continues(states, labels, more, steps, p)
    ensures Stands(Final(more), p, me.(pc := Exit), runs + [me.key])
    ensures RecordOf(Final(more), me.key) == Some(Turn(me.key, me.prompt, Completed))
  {
    hide Stands, IsRun, OwnTurn, Continues;
    var sent := Turn(me.key, me.prompt, Dispatching);
    var over := sent.(status := Completed);
    more, steps := PrepareSend(states, labels, p, me, runs);
    more, steps := Do(states, labels, more, steps, p, me.(pc := Launch(sent)), LaunchStep(p, true), Native(sent), runs);
    more, steps := Do(states, labels, more, steps, p, me.(pc := Native(sent)), NativeStep(p, true),
      Record(over, AfterOutcome), runs + [me.key]);
    more, steps := Do(states, labels, more, steps, p, me.(pc := Record(over, AfterOutcome)), RecordStep(p, true),
      Journal(over, AfterOutcome), runs + [me.key]);
    more, steps := Do(states, labels, more, steps, p, me.(pc := Journal(over, AfterOutcome)),
      JournalStep(p, true, true), Release, runs + [me.key]);
    more, steps := Do(states, labels, more, steps, p, me.(pc := Release), ReleaseStep(p), Exit, runs + [me.key]);
  }

  lemma ContinuesRuns(states: seq<State>, labels: seq<Label>, more: seq<State>, steps: seq<Label>, p: Pid)
    requires Continues(states, labels, more, steps, p)
    ensures IsRun(more, steps)
  {
  }

  lemma ContinuesItself(states: seq<State>, labels: seq<Label>, p: Pid)
    requires IsRun(states, labels)
    ensures Continues(states, labels, states, labels, p)
  {
  }

  /** A fault on reading a record that exists is taken for its absence: after any run that has come
      to rest, a new invocation of a command that already ran, whose read faults, runs it again,
      although no two invocations overlap. */
  lemma FaultRunsAgain(states: seq<State>, labels: seq<Label>, p: Pid, k: Key, prompt: string)
    returns (more: seq<State>, steps: seq<Label>)
    requires IsRun(states, labels) && p !in Final(states).procs
    requires forall q :: q in Final(states).procs ==> At(Final(states), q) == Exit
    ensures IsRun(more, steps) && labels <= steps && Final(more).runs == Final(states).runs + [k]
    ensures forall i :: |labels| <= i < |steps| ==> Alone(more[i], steps[i])
  {
    hide Continues, Apply, Stands;
    RunKeepsLock(states, labels, |states| - 1);
    hide IsRun;
    var s := Final(states);
    var l, l1 := Spawn(p, k, prompt), ReadStep(p, true);
    SpawnAndRead(s, p, k, prompt);
    var s1 := Apply(s, l);
    var s2 := Apply(s1, l1);
    Extend(states, labels, l);
    Extend(states + [s1], labels + [l], l1);
    assert states + [s1] + [s2] == states + [s1, s2] && labels + [l] + [l1] == labels + [l, l1];
    more, steps := FinishSend(states + [s1, s2], labels + [l, l1], p, Proc(k, prompt, Admit), s.runs);
    ContinuesPrefix(states + [s1, s2], labels + [l, l1], more, steps, p);
    LengthsAgree(states, labels);
    LengthsAgree(more, steps);
    StandsRuns(Final(more), p, Proc(k, prompt, Exit), s.runs + [k]);
    assert more[|states|] == (states + [s1, s2])[|states|] == s1;
  }

  lemma StandsRuns(s: State, p: Pid, me: Proc, runs: seq<Key>)
    requires Stands(s, p, me, runs)
    ensures s.runs == runs
  {
  }

  /** A new invocation starts where every other has ended, and its read faults. */
  lemma SpawnAndRead(s: State, p: Pid, k: Key, prompt: string)
    requires LockInv(s) && p !in s.procs && forall q :: q in s.procs ==> At(s, q) == Exit
    ensures Enabled(s, Spawn(p, k, prompt)) && Enabled(Apply(s, Spawn(p, k, prompt)), ReadStep(p, true))
    ensures Stands(Apply(Apply(s, Spawn(p, k, prompt)), ReadStep(p, true)), p, Proc(k, prompt, Admit), s.runs)
    ensures Alone(Apply(s, Spawn(p, k, prompt)), ReadStep(p, true))
  {
    hide NextJournals;
    assert s.lock == map[];
    assert Apply(s, Spawn(p, k, prompt)).procs[p] == Proc(k, prompt, Read);
  }

  lemma LengthsAgree(states: seq<State>, labels: seq<Label>)
    requires IsRun(states, labels)
    ensures |states| == |labels| + 1
  {
  }

  lemma ContinuesPrefix(states: seq<State>, labels: seq<Label>, more: seq<State>, steps: seq<Label>, p: Pid)
    requires Continues(states, labels, more, steps, p)
    ensures IsRun(more, steps) && labels <= steps && states <= more
    ensures forall i :: |labels| <= i < |steps| ==> !steps[i].ReadStep?
    ensures Final(more).procs - {p} == Final(states).procs - {p}
  {
  }

  /** Two invocations of one reference that both read before either stores: after any run that has
      come to rest without a record of `k`, every new read finds the truth, and the command runs twice. */
  lemma OverlapRunsTwice(states: seq<State>, labels: seq<Label>, p: Pid, q: Pid, k: Key, prompt: string)
    returns (more: seq<State>, steps: seq<Label>)
    requires IsRun(states, labels) && p != q && {p, q} !! Final(states).procs.Keys && k !in Final(states).records
    requires forall x :: x in Final(states).procs ==> At(Final(states), x) == Exit
    ensures IsRun(more, steps) && labels <= steps && Final(more).runs == Final(states).runs + [k, k]
    ensures forall i :: |labels| <= i < |steps| && steps[i].ReadStep? ==> !steps[i].fault
  {
    hide Continues, Apply, Stands, IsRun;
    LengthsAgree(states, labels);
    var runs, me := Final(states).runs, Proc(k, prompt, Admit);
    var both, before := BothRead(states, labels, p, q, k, prompt);
    var one, done := FinishSend(both, before, p, me, runs);
    ContinuesPrefix(both, before, one, done, p);
    LengthsAgree(both, before);
    LengthsAgree(one, done);
    OtherStands(Final(both), Final(one), p, q, me, runs, runs + [k]);
    more, steps := FinishSend(one, done, q, me, runs + [k]);
    ContinuesPrefix(one, done, more, steps, q);
    LengthsAgree(more, steps);
    StandsRuns(Final(more), q, me.(pc := Exit), runs + [k] + [k]);
    assert runs + [k] + [k] == runs + [k, k];
  }

  /** While `p` goes on to its end, `q` stays where it was. */
  lemma OtherStands(s: State, t: State, p: Pid, q: Pid, me: Proc, runs: seq<Key>, more: seq<Key>)
    requires Stands(s, q, me, runs) && Stands(t, p, me.(pc := Exit), more) && me.pc == Admit
    requires p != q && t.procs - {p} == s.procs - {p}
    ensures Stands(t, q, me, more)
  {
    assert q in s.procs - {p} && (s.procs - {p})[q] == me;
    assert q in t.procs - {p} && (t.procs - {p})[q] == me;
  }

  lemma BothRead(states: seq<State>, labels: seq<Label>, p: Pid, q: Pid, k: Key, prompt: string)
    returns (more: seq<State>, steps: seq<Label>)
    requires IsRun(states, labels) && p != q && {p, q} !! Final(states).procs.Keys && k !in Final(states).records
    requires forall x :: x in Final(states).procs ==> At(Final(states), x) == Exit
    ensures IsRun(more, steps) && labels <= steps
    ensures forall i :: |labels| <= i < |steps| && steps[i].ReadStep? ==> !steps[i].fault
    ensures Stands(Final(more), p, Proc(k, prompt, Admit), Final(states).runs)
    ensures Stands(Final(more), q, Proc(k, prompt, Admit), Final(states).runs)
  {
    hide Apply, Stands, Enabled;
    RunKeepsLock(states, labels, |states| - 1);
    hide IsRun;
    var s := Final(states);
    BothMayRead(s, p, q, k, prompt);
    var a, b, c, d := Spawn(p, k, prompt), Spawn(q, k, prompt), ReadStep(p, false), ReadStep(q, false);
    Extend(states, labels, a);
    var s1 := Apply(s, a);
    Extend(states + [s1], labels + [a], b);
    var s2 := Apply(s1, b);
    Extend(states + [s1] + [s2], labels + [a] + [b], c);
    var s3 := Apply(s2, c);
    Extend(states + [s1] + [s2] + [s3], labels + [a] + [b] + [c], d);
    more, steps := states + [s1] + [s2] + [s3] + [Apply(s3, d)], labels + [a] + [b] + [c] + [d];
  }

  /** Both start where every other has ended, and both read before either has stored anything. */
  lemma BothMayRead(s: State, p: Pid, q: Pid, k: Key, prompt: string)
    requires LockInv(s) && p != q && {p, q} !! s.procs.Keys && k !in s.records
    requires forall x :: x in s.procs ==> At(s, x) == Exit
    ensures Enabled(s, Spawn(p, k, prompt))
    ensures var s1 := Apply(s, Spawn(p, k, prompt));
      && Enabled(s1, Spawn(q, k, prompt))
      && var s2 := Apply(s1, Spawn(q, k, prompt));
      && Enabled(s2, ReadStep(p, false))
      && var s3 := Apply(s2, ReadStep(p, false));
      && Enabled(s3, ReadStep(q, false))
      && var s4 := Apply(s3, ReadStep(q, false));
      && Stands(s4, p, Proc(k, prompt, Admit), s.runs) && Stands(s4, q, Proc(k, prompt, Admit), s.runs)
  {
    hide Apply, Enabled;
    assert s.lock == map[];
    SpawnsOnly(s, p, k, prompt);
    var s1 := Apply(s, Spawn(p, k, prompt));
    SpawnsOnly(s1, q, k, prompt);
    var s2 := Apply(s1, Spawn(q, k, prompt));
    ReadsNothing(s2, p, k, prompt);
    ReadsNothing(Apply(s2, ReadStep(p, false)), q, k, prompt);
  }

  lemma SpawnsOnly(s: State, p: Pid, k: Key, prompt: string)
    requires p !in s.procs
    ensures Enabled(s, Spawn(p, k, prompt))
    ensures Apply(s, Spawn(p, k, prompt)) == s.(procs := s.procs[p := Proc(k, prompt, Read)])
  {
  }

  /** A read where there is no record goes on to the admission. */
  lemma ReadsNothing(s: State, p: Pid, k: Key, prompt: string)
    requires p in s.procs && s.procs[p] == Proc(k, prompt, Read) && k !in s.records
    ensures Enabled(s, ReadStep(p, false))
    ensures Apply(s, ReadStep(p, false)) == s.(procs := s.procs[p := Proc(k, prompt, Admit)])
  {
  }
}
