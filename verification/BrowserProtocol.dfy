/** The registry and the extension's worker together, over a network that may lose requests and
    replies and a browser that may shut the worker down at any moment. */
module BrowserProtocol {
  import opened Prelude
  import R = BrowserRegistry
  import Runs = BrowserRuns
  import A = Automation
  import W = AutomationRuns

  /** `sent` names every API request by the number of its issue; `net` are those not yet handled,
      `replies` those answered but not yet delivered. `history` and `events` record the server. */
  datatype State = State(server: Runs.Sys, worker: W.Worker, leftover: Option<A.Stored>,
                         sent: map<nat, R.Op>, net: set<nat>, replies: map<nat, R.Response>,
                         history: seq<Runs.Sys>, events: seq<Runs.Event>)

  predicate Api(c: A.Call) {
    c in {A.PollApi, A.StartApi, A.ResultApi, A.ControlOnApi, A.ControlOffApi}
  }

  /** The request a task sends. Start and result are posted for the task's own job. */
  predicate SendsFor(k: W.Task, c: A.Call, op: R.Op) {
    match c
    case StartApi => k.job.Some? && op.StartCommand? && op.req == k.job.value.id
    case ResultApi => k.job.Some? && op.PostResult? && op.req == k.job.value.id
    case PollApi => op.Poll?
    case _ => op.SetControl? && op.active == (c == A.ControlOnApi)
  }

  function ActionOf(c: R.Command): A.Action {
    match c.action
    case Inspect => A.Inspect
    case Screenshot => A.Screenshot
    case Navigate => A.Navigate
    case Click => A.Click(c.selector != "")
    case Type => A.Type(c.selector != "")
    case Key => A.Key
    case Scroll => A.Scroll
    case Tabs => A.Tabs
    case NewTab => A.NewTab
    case SelectTab => A.SelectTab
    case Unsupported => A.Other
  }

  function JobOf(q: R.Request): A.Job
    requires q.command.Some?
  {
    A.Job(q.id, q.controlId, ActionOf(q.command.value))
  }

  /** The job says what the command asks for. */
  lemma JobSays(q: R.Request)
    requires q.command.Some?
    ensures var job, c := JobOf(q), q.command.value;
      && job.id == q.id && job.controlId == q.controlId
      && (job.action == A.Click(true) <==> c.action == R.Click && c.selector != "")
      && (job.action == A.Click(false) <==> c.action == R.Click && c.selector == "")
      && (job.action == A.Type(true) <==> c.action == R.Type && c.selector != "")
      && (job.action == A.Type(false) <==> c.action == R.Type && c.selector == "")
      && (job.action == A.Inspect <==> c.action == R.Inspect) && (job.action == A.Key <==> c.action == R.Key)
      && (job.action == A.Screenshot <==> c.action == R.Screenshot)
      && (job.action == A.Navigate <==> c.action == R.Navigate)
      && (job.action == A.Scroll <==> c.action == R.Scroll) && (job.action == A.Tabs <==> c.action == R.Tabs)
      && (job.action == A.NewTab <==> c.action == R.NewTab)
      && (job.action == A.SelectTab <==> c.action == R.SelectTab)
      && (job.action == A.Other <==> c.action == R.Unsupported)
  {
  }

  predicate Offers(k: W.Task, q: R.Request) {
    q.command.Some? && k.control.Some? && q.controlId == k.control.value.id
  }

  /** What the reply means to the waiting task; any error reply rejects the call. */
  ghost predicate Delivers(k: W.Task, resp: R.Response, outcome: W.Outcome) {
    match resp
    case Polled(pending, control) =>
      && outcome.Fulfilled? && outcome.polled == (if control.Some? then Some(control.value.id) else None)
      && (outcome.job.Some? ==>
            exists r :: r in pending && Offers(k, pending[r]) && outcome.job.value == JobOf(pending[r]))
      && (outcome.job.None? ==> forall r :: r in pending ==> !Offers(k, pending[r]))
    case Started(_) => outcome.Fulfilled?
    case ResultAccepted => outcome.Fulfilled?
    case ControlSet(control) => outcome.Fulfilled? && (control.Some? ==> outcome.newId == control.value.id)
    case _ => outcome.Rejected?
  }

  /** The worker moves: a request it issues goes out, a reply it consumes is gone. */
  ghost predicate WorkerStep(s: State, l: W.Label, op: R.Op, t: State) {
    && W.Step(s.worker, l, t.worker)
    && t == s.(worker := t.worker, sent := t.sent, net := t.net, replies := t.replies)
    && match l
       case Run(_, _) =>
         t.replies == s.replies &&
         if |t.worker.log| > |s.worker.log| && Api(t.worker.log[|s.worker.log|].call) then
           && SendsFor(s.worker.tasks[s.worker.current.value], t.worker.log[|s.worker.log|].call, op)
           && t.sent == s.sent[|s.worker.log| := op] && t.net == s.net + {|s.worker.log|}
         else t.sent == s.sent && t.net == s.net
       case Resume(task, outcome) =>
         var wait := s.worker.tasks[task].waiting.value;
         t.sent == s.sent && t.net == s.net && t.replies == s.replies - {wait.id} &&
         (Api(wait.call) && outcome.Fulfilled? ==>
           wait.id in s.replies && Delivers(s.worker.tasks[task], s.replies[wait.id], outcome))
       case _ => t.sent == s.sent && t.net == s.net && t.replies == s.replies
  }

  /** The server handles a request off the network, or one from any other client. */
  ghost predicate ServerStep(s: State, id: nat, e: Runs.Event, t: State) {
    && Runs.Step(s.server, e, t.server)
    && t == s.(server := t.server, net := t.net, replies := t.replies, history := s.history + [t.server],
          events := s.events + [e])
    && if id in s.net then id in s.sent && e.op == s.sent[id] && t.net == s.net - {id}
          && t.replies == s.replies[id := e.resp]
       else t.net == s.net && t.replies == s.replies
  }

  /** A request or a reply is lost. */
  predicate Loses(s: State, id: nat, t: State) {
    t == s.(net := s.net - {id}, replies := s.replies - {id})
  }

  /** The browser shuts the worker down and starts a new one; session storage stays. */
  ghost predicate Restarts(s: State, t: State) {
    && t == s.(worker := t.worker, leftover := s.worker.session)
    && W.Boots(t.worker, s.worker.session) && t.worker.log == s.worker.log && t.worker.executed == s.worker.executed
  }

  ghost predicate Step(s: State, t: State) {
    || (exists l, op :: WorkerStep(s, l, op, t))
    || (exists id, e :: ServerStep(s, id, e, t))
    || (exists id :: Loses(s, id, t))
    || Restarts(s, t)
  }

  ghost predicate Init(s: State) {
    && Runs.Init(s.server) && s.history == [s.server] && s.events == []
    && W.Boots(s.worker, s.leftover) && s.worker.log == [] && s.worker.executed == []
    && s.sent == map[] && s.net == {} && s.replies == map[]
  }

  // ---------------------------------------------------------------- invariant

  /** The server granted `r`, and nobody else holds that grant. */
  ghost predicate WasStarted(events: seq<Runs.Event>, r: R.Id) {
    exists i :: 0 <= i < |events| && events[i].resp.Started? && events[i].resp.request.id == r
  }

  ghost predicate Granted(s: State, r: R.Id) {
    Runs.Spent(s.server, r) && WasStarted(s.events, r) && r !in s.worker.executed
  }

  predicate Refuses(resp: R.Response) {
    resp == R.Unauthorized || resp == R.Conflict
  }

  predicate StartReply(s: State, id: nat) {
    id in s.replies && s.replies[id].Started?
  }

  ghost predicate RepliesInv(s: State) {
    && (forall id :: id in s.sent ==> id < |s.worker.log|)
    && s.net <= s.sent.Keys && s.replies.Keys <= s.sent.Keys && s.net !! s.replies.Keys
    && (forall id :: id in s.replies && s.sent[id].StartCommand? ==> s.replies[id].Started? || Refuses(s.replies[id]))
    && (forall id :: StartReply(s, id) ==>
          && s.sent[id].StartCommand? && s.sent[id].req == s.replies[id].request.id
          && Granted(s, s.replies[id].request.id))
    && (forall i, j :: StartReply(s, i) && StartReply(s, j) && s.replies[i].request.id == s.replies[j].request.id ==>
          i == j)
  }

  /** What is known of a suspended task: its issue is on record, for its own job if it is a start. */
  ghost predicate WaitInv(s: State, k: W.Task) {
    k.waiting.Some? ==>
      var wait := k.waiting.value;
      && wait.id < |s.worker.log|
      && (k.flags.granted ==> wait.call == A.StartApi && !wait.quiet)
      && (wait.call == A.StartApi ==>
            k.job.Some? && wait.id in s.sent && s.sent[wait.id].StartCommand? && s.sent[wait.id].req == k.job.value.id)
  }

  ghost predicate TasksInv(s: State) {
    forall t :: t in s.worker.tasks ==> WaitInv(s, s.worker.tasks[t])
  }

  /** The running task, if it has just been granted its job, holds the only grant for it. */
  ghost predicate HolderInv(s: State) {
    var w := s.worker;
    w.current.Some? && w.current.value in w.tasks && w.tasks[w.current.value].flags.granted ==>
      var k := w.tasks[w.current.value];
      k.job.Some? && Granted(s, k.job.value.id) && forall id :: StartReply(s, id) ==>
        s.replies[id].request.id != k.job.value.id
  }

  predicate NoRepeats(x: seq<R.Id>) {
    forall i, j :: 0 <= i < j < |x| ==> x[i] != x[j]
  }

  ghost predicate ExecutedInv(s: State) {
    NoRepeats(s.worker.executed) && forall r :: r in s.worker.executed ==>
      Runs.Spent(s.server, r) && WasStarted(s.events, r)
  }

  ghost predicate Inv(s: State) {
    && Runs.SysInv(s.server) && Runs.IsRun(s.history, s.events) && s.server == s.history[|s.history| - 1]
    && W.Inv(s.worker, s.leftover)
    && RepliesInv(s) && TasksInv(s) && HolderInv(s) && ExecutedInv(s)
  }

  lemma InitInv(s: State)
    requires Init(s)
    ensures Inv(s)
  {
    hide Runs.SysInv, Runs.Init, W.Inv, W.Boots;
    ServerInit(s.server);
    W.BootInv(s.worker, s.leftover);
    BootTasks(s);
  }

  lemma ServerInit(a: Runs.Sys)
    requires Runs.Init(a)
    ensures Runs.IsRun([a], []) && Runs.SysInv(a)
  {
    hide Runs.SysInv;
    assert Runs.IsRun([a], []);
    Runs.RunKeepsInv([a], [], 0);
  }

  lemma BootTasks(s: State)
    requires W.Boots(s.worker, s.leftover)
    ensures TasksInv(s) && HolderInv(s)
  {
  }

  // ---------------------------------------------------------------- server and network steps

  lemma ServerKeeps(s: State, id: nat, e: Runs.Event, t: State)
    requires Inv(s) && ServerStep(s, id, e, t)
    ensures Inv(t)
  {
    hide Runs.SysInv, Runs.Step, W.Inv, Runs.Spent;
    Runs.StepKeepsSysInv(s.server, e, t.server);
    assert Runs.IsRun(t.history, t.events);
    forall r
      ensures Runs.Spent(s.server, r) ==> Runs.Spent(t.server, r)
      ensures WasStarted(s.events, r) ==> WasStarted(t.events, r)
    {
      Runs.StepKeepsSpent(s.server, e, t.server, r);
      if WasStarted(s.events, r) {
        var i :| 0 <= i < |s.events| && s.events[i].resp.Started? && s.events[i].resp.request.id == r;
        assert t.events[i] == s.events[i];
      }
    }
    ServerReplies(s, id, e, t);
  }

  /** A grant the server hands out now was handed out to nobody before. */
  lemma ServerReplies(s: State, id: nat, e: Runs.Event, t: State)
    requires Inv(s) && ServerStep(s, id, e, t)
    requires forall r :: Runs.Spent(s.server, r) ==> Runs.Spent(t.server, r)
    requires forall r :: WasStarted(s.events, r) ==> WasStarted(t.events, r)
    ensures RepliesInv(t) && TasksInv(t) && HolderInv(t)
  {
    hide W.Inv, Runs.Spent, Runs.IsRun, R.Next, Runs.SysInv;
    if e.resp.Started? {
      Runs.StartSpends(s.server, e, t.server);
      NewGrant(s, e, t);
    }
    StartAnswers(s.server.reg, e, t.server.reg);
    hide Runs.Step, WasStarted;
    OldReplies(s, id, e, t);
  }

  lemma OldReplies(s: State, id: nat, e: Runs.Event, t: State)
    requires RepliesInv(s) && HolderInv(s) && TasksInv(s)
    requires t.worker == s.worker && t.sent == s.sent
    requires if id in s.net
             then id in s.sent && e.op == s.sent[id] && t.net == s.net - {id} && t.replies == s.replies[id := e.resp]
             else t.net == s.net && t.replies == s.replies
    requires forall r :: Runs.Spent(s.server, r) ==> Runs.Spent(t.server, r)
    requires forall r :: WasStarted(s.events, r) ==> WasStarted(t.events, r)
    requires e.op.StartCommand? ==> e.resp.Started? || Refuses(e.resp)
    requires e.resp.Started? ==>
      && e.op.StartCommand? && e.op.req == e.resp.request.id && Granted(t, e.resp.request.id)
      && (forall j :: StartReply(s, j) ==> s.replies[j].request.id != e.resp.request.id)
      && (var w := s.worker; w.current.Some? && w.current.value in w.tasks && w.tasks[w.current.value].flags.granted ==>
            w.tasks[w.current.value].job.Some? && w.tasks[w.current.value].job.value.id != e.resp.request.id)
    ensures RepliesInv(t) && TasksInv(t) && HolderInv(t)
  {
    hide Runs.Spent, WasStarted, TasksInv;
    forall j | StartReply(t, j) && (j != id || id !in s.net)
      ensures StartReply(s, j) && t.replies[j] == s.replies[j] && Granted(t, t.replies[j].request.id)
    {
      assert StartReply(s, j);
    }
    TasksStay(s, t);
  }

  lemma TasksStay(s: State, t: State)
    requires TasksInv(s) && t.worker == s.worker && t.sent == s.sent
    ensures TasksInv(t)
  {
    forall j | j in t.worker.tasks ensures WaitInv(t, t.worker.tasks[j]) { assert WaitInv(s, s.worker.tasks[j]); }
  }

  lemma StartAnswers(a: R.Reg, e: Runs.Event, b: R.Reg)
    requires R.Next(a, e.now, e.later, e.op, b, e.resp)
    ensures e.op.StartCommand? ==> e.resp.Started? || Refuses(e.resp)
  {
    hide R.Prune;
  }

  lemma NewGrant(s: State, e: Runs.Event, t: State)
    requires Inv(s) && Runs.Step(s.server, e, t.server) && e.resp.Started? && t.events == s.events + [e]
    requires t.worker == s.worker
    requires Runs.Spent(t.server, e.resp.request.id) && !Runs.Spent(s.server, e.resp.request.id)
    ensures e.op.StartCommand? && e.op.req == e.resp.request.id
    ensures Granted(t, e.resp.request.id)
    ensures forall j :: StartReply(s, j) ==> s.replies[j].request.id != e.resp.request.id
    ensures var w := s.worker;
            w.current.Some? && w.current.value in w.tasks && w.tasks[w.current.value].flags.granted ==>
              w.tasks[w.current.value].job.Some? && w.tasks[w.current.value].job.value.id != e.resp.request.id
  {
    hide W.Inv, Runs.Spent, Runs.IsRun, R.Prune;
    Runs.OnlyStartStarts(s.server.reg, e, t.server.reg);
    Runs.StartFacts(s.server.reg, e.now, e.op, t.server.reg, e.resp);
    assert t.events[|s.events|] == e;
  }

  lemma LoseKeeps(s: State, id: nat, t: State)
    requires Inv(s) && Loses(s, id, t)
    ensures Inv(t)
  {
    hide W.Inv, Runs.SysInv, Runs.IsRun, Runs.Spent;
    assert forall j :: StartReply(t, j) ==> StartReply(s, j) && t.replies[j] == s.replies[j];
    assert forall r :: Granted(t, r) == Granted(s, r);
  }

  lemma RestartKeeps(s: State, t: State)
    requires Inv(s) && Restarts(s, t)
    ensures Inv(t)
  {
    W.BootInv(t.worker, t.leftover);
    hide W.Inv, Runs.SysInv, Runs.IsRun, Runs.Spent, WasStarted, A.Stop, A.Guarded, RepliesInv, ExecutedInv;
    assert forall j :: j in t.worker.tasks ==> t.worker.tasks[j].waiting.None? && !t.worker.tasks[j].flags.granted;
    SameNetwork(s, t);
  }

  // ---------------------------------------------------------------- worker steps

  lemma RunKeeps(s: State, choice: bool, tab: int, op: R.Op, t: State)
    requires Inv(s) && WorkerStep(s, W.Run(choice, tab), op, t)
    ensures Inv(t)
  {
    hide Runs.SysInv, Runs.IsRun, Runs.Spent, W.Inv, W.Step, WorkerStep, W.GrantKept, Sends, WasStarted;
    RunFacts(s, choice, tab, op, t);
    RunExecuted(s, t, op);
    RunWaits(s, t, op);
  }

  /** What an instruction of the worker changes. */
  lemma RunFacts(s: State, choice: bool, tab: int, op: R.Op, t: State)
    requires W.Inv(s.worker, s.leftover) && WorkerStep(s, W.Run(choice, tab), op, t)
    ensures s.worker.current.Some? && s.worker.current.value in s.worker.tasks
    ensures W.Inv(t.worker, s.leftover)
    ensures W.GrantKept(s.worker, t.worker, s.worker.current.value) && Sends(s, t, op)
    ensures t == s.(worker := t.worker, sent := t.sent, net := t.net)
  {
    hide W.Inv, W.Exec, W.GrantKept;
    W.StepKeeps(s.worker, W.Run(choice, tab), t.worker, s.leftover);
    W.ExecKeepsGrant(s.worker, choice, tab, s.leftover);
  }

  /** The network after a step of the worker: unchanged, or with the request just issued. */
  ghost predicate Sends(s: State, t: State, op: R.Op)
    requires s.worker.current.Some? && s.worker.current.value in s.worker.tasks
  {
    var id := |s.worker.log|;
    || (t.sent == s.sent && t.net == s.net && (|t.worker.log| > id ==> !Api(t.worker.log[id].call)))
    || (|t.worker.log| > id && t.sent == s.sent[id := op] && t.net == s.net + {id}
          && SendsFor(s.worker.tasks[s.worker.current.value], t.worker.log[id].call, op))
  }

  lemma RunWaits(s: State, t: State, op: R.Op)
    requires TasksInv(s) && s.worker.current.Some? && s.worker.current.value in s.worker.tasks
    requires W.GrantKept(s.worker, t.worker, s.worker.current.value) && Sends(s, t, op)
    ensures TasksInv(t)
  {
    var w := s.worker;
    forall j | j in t.worker.tasks ensures WaitInv(t, t.worker.tasks[j]) {
      if j != w.current.value {
        assert WaitInv(s, w.tasks[j]);
        StillWaits(s, t, op, w.tasks[j]);
      } else {
        NowWaits(s, t, op);
      }
    }
  }

  lemma StillWaits(s: State, t: State, op: R.Op, k: W.Task)
    requires s.worker.current.Some? && s.worker.current.value in s.worker.tasks && Sends(s, t, op)
    requires |s.worker.log| <= |t.worker.log| && WaitInv(s, k)
    ensures WaitInv(t, k)
  {
  }

  lemma NowWaits(s: State, t: State, op: R.Op)
    requires s.worker.current.Some? && s.worker.current.value in s.worker.tasks
    requires W.GrantKept(s.worker, t.worker, s.worker.current.value) && Sends(s, t, op)
    requires s.worker.current.value in t.worker.tasks
    ensures WaitInv(t, t.worker.tasks[s.worker.current.value])
  {
  }

  lemma RunExecuted(s: State, t: State, op: R.Op)
    requires HolderInv(s) && RepliesInv(s) && ExecutedInv(s) && s.worker.current.Some?
    requires s.worker.current.value in s.worker.tasks
    requires W.GrantKept(s.worker, t.worker, s.worker.current.value) && Sends(s, t, op)
    requires t.server == s.server && t.events == s.events && t.replies == s.replies
    ensures HolderInv(t) && RepliesInv(t) && ExecutedInv(t)
  {
    hide Runs.Spent, WasStarted;
    forall j | StartReply(t, j) ensures StartReply(s, j) && Granted(t, t.replies[j].request.id) {
      assert StartReply(s, j);
    }
  }

  lemma ResumeKeeps(s: State, task: nat, outcome: W.Outcome, op: R.Op, t: State)
    requires Inv(s) && WorkerStep(s, W.Resume(task, outcome), op, t)
    ensures Inv(t)
  {
    W.StepKeeps(s.worker, W.Resume(task, outcome), t.worker, s.leftover);
    W.SettleKeepsGrant(s.worker, task, outcome);
    hide W.Inv, Runs.SysInv, Runs.IsRun, Runs.Spent, W.Settle, WasStarted, Delivers;
    ResumeHolder(s, task, outcome, t);
    ResumeWaits(s, task, t);
  }

  lemma ResumeWaits(s: State, task: nat, t: State)
    requires TasksInv(s) && W.Waits(s.worker, task) && t == s.(worker := t.worker, replies := t.replies)
    requires t.worker.log == s.worker.log && W.OnlyTask(s.worker, t.worker, task)
    requires task in t.worker.tasks ==> t.worker.tasks[task].waiting.None?
    ensures TasksInv(t)
  {
    forall j | j in t.worker.tasks ensures WaitInv(t, t.worker.tasks[j]) {
      if j != task { assert WaitInv(s, s.worker.tasks[j]); }
    }
  }

  /** A reply that was consumed leaves the others as they were, and its grant with the task. */
  lemma ResumeHolder(s: State, task: nat, outcome: W.Outcome, t: State)
    requires RepliesInv(s) && TasksInv(s) && ExecutedInv(s) && W.Waits(s.worker, task)
    requires var wait := s.worker.tasks[task].waiting.value;
      && t == s.(worker := t.worker, replies := s.replies - {wait.id}) && t.worker.executed == s.worker.executed
      && t.worker.log == s.worker.log
      && (Api(wait.call) && outcome.Fulfilled? ==>
            wait.id in s.replies && Delivers(s.worker.tasks[task], s.replies[wait.id], outcome))
    requires var v, k := t.worker, s.worker.tasks[task];
      && (v.current.Some? ==> v.current == Some(task) && task in v.tasks)
      && (task in v.tasks && v.tasks[task].flags.granted ==>
            k.flags.granted && (outcome.Fulfilled? || k.waiting.value.quiet)
              && (k.waiting.value.call == A.StartApi ==> v.tasks[task].job == k.job))
    ensures RepliesInv(t) && HolderInv(t) && ExecutedInv(t)
  {
    hide Runs.Spent, WasStarted, Delivers;
    var id := s.worker.tasks[task].waiting.value.id;
    assert WaitInv(s, s.worker.tasks[task]);
    forall j | StartReply(t, j)
      ensures StartReply(s, j) && j != id && t.replies[j] == s.replies[j] && Granted(t, t.replies[j].request.id)
    {
      assert StartReply(s, j);
    }
    if t.worker.current.Some? && t.worker.tasks[task].flags.granted {
      GrantDelivered(s, task, outcome);
      assert Granted(s, s.replies[id].request.id);
    }
  }

  /** A start call that is fulfilled was answered by the server starting exactly that job. */
  lemma GrantDelivered(s: State, task: nat, outcome: W.Outcome)
    requires RepliesInv(s) && W.Waits(s.worker, task) && WaitInv(s, s.worker.tasks[task])
    requires s.worker.tasks[task].waiting.value.call == A.StartApi && outcome.Fulfilled?
    requires var id := s.worker.tasks[task].waiting.value.id;
      id in s.replies && Delivers(s.worker.tasks[task], s.replies[id], outcome)
    ensures StartReply(s, s.worker.tasks[task].waiting.value.id)
  {
  }

  /** The task is as far as this module goes what it was. */
  predicate SameForUs(k: W.Task, k': W.Task) {
    && k'.flags == k.flags && k'.job == k.job && k'.waiting.Some? == k.waiting.Some?
    && (k.waiting.Some? ==>
          var a, b := k.waiting.value, k'.waiting.value;
          b.id == a.id && b.call == a.call && b.quiet == a.quiet)
  }

  /** Every task is what it was, or waits for nothing and has been granted nothing. */
  ghost predicate NothingNew(w: W.Worker, v: W.Worker) {
    && v.log == w.log && v.executed == w.executed
    && (forall j :: j in v.tasks ==>
          || (j in w.tasks && SameForUs(w.tasks[j], v.tasks[j]))
          || (v.tasks[j].waiting.None? && !v.tasks[j].flags.granted))
    && (v.current == w.current ||
          (v.current.Some? && v.current.value in v.tasks && !v.tasks[v.current.value].flags.granted))
  }

  lemma SpawnTasks(w: W.Worker, c: A.Code)
    ensures NothingNew(w, W.PutTask(w, w.nextTask, W.NewTask(c)).(current := Some(w.nextTask),
      nextTask := w.nextTask + 1))
  {
  }

  lemma PerformTasks(w: W.Worker, task: nat)
    requires W.Waits(w, task)
    ensures NothingNew(w, W.Store(w, task))
  {
    hide W.Store;
    var k := Performed(w, task);
    assert W.Store(w, task).tasks == w.tasks[task := k];
  }

  lemma Performed(w: W.Worker, task: nat) returns (k: W.Task)
    requires W.Waits(w, task)
    ensures W.Store(w, task) == w.(tasks := w.tasks[task := k], session := W.Store(w, task).session)
    ensures SameForUs(w.tasks[task], k)
  {
    k := W.Store(w, task).tasks[task];
  }

  /** The other steps start a task, perform a storage operation or clear the session. */
  lemma OtherTasks(w: W.Worker, l: W.Label, v: W.Worker)
    requires W.Step(w, l, v) && !l.Run? && !l.Resume?
    ensures NothingNew(w, v)
  {
    hide W.Entry, W.Store, W.PutTask, W.NewTask, W.Waits, NothingNew;
    match l {
      case Spawn(c) => SpawnTasks(w, c);
      case Perform(task) => PerformTasks(w, task);
      case _ => ClearTasks(w);
    }
  }

  lemma ClearTasks(w: W.Worker)
    ensures NothingNew(w, w.(session := None))
  {
  }

  lemma OtherKeeps(s: State, l: W.Label, op: R.Op, t: State)
    requires Inv(s) && WorkerStep(s, l, op, t) && !l.Run? && !l.Resume?
    ensures Inv(t)
  {
    hide W.Step, W.Inv, Runs.SysInv, Runs.IsRun, Runs.Spent, WasStarted;
    W.StepKeeps(s.worker, l, t.worker, s.leftover);
    OtherTasks(s.worker, l, t.worker);
    forall j | j in t.worker.tasks ensures WaitInv(t, t.worker.tasks[j]) {
      if j in s.worker.tasks { assert WaitInv(s, s.worker.tasks[j]); }
    }
    SameNetwork(s, t);
  }

  /** Nothing about grants changes while server, network and executions stay. */
  lemma SameNetwork(s: State, t: State)
    requires RepliesInv(s) && HolderInv(s) && ExecutedInv(s)
    requires t == s.(worker := t.worker, leftover := t.leftover) && t.worker.log == s.worker.log
    requires t.worker.executed == s.worker.executed
    requires var w, v := s.worker, t.worker;
      v.current.Some? && v.current.value in v.tasks && v.tasks[v.current.value].flags.granted ==>
        v.current == w.current && v.current.value in w.tasks && w.tasks[v.current.value].flags.granted
          && v.tasks[v.current.value].job == w.tasks[v.current.value].job
    ensures RepliesInv(t) && HolderInv(t) && ExecutedInv(t)
  {
    hide Runs.Spent, WasStarted;
    forall j | StartReply(t, j)
      ensures StartReply(s, j) && Granted(t, t.replies[j].request.id)
    { assert StartReply(s, j); }
  }

  lemma WorkerKeeps(s: State, l: W.Label, op: R.Op, t: State)
    requires Inv(s) && WorkerStep(s, l, op, t)
    ensures Inv(t)
  {
    hide Inv, WorkerStep;
    match l {
      case Run(choice, tab) => RunKeeps(s, choice, tab, op, t);
      case Resume(task, outcome) => ResumeKeeps(s, task, outcome, op, t);
      case _ => OtherKeeps(s, l, op, t);
    }
  }

  // ---------------------------------------------------------------- runs

  ghost predicate IsRun(states: seq<State>) {
    |states| > 0 && Init(states[0]) && forall i :: 0 <= i < |states| - 1 ==> Step(states[i], states[i + 1])
  }

  lemma StepKeeps(s: State, t: State)
    requires Inv(s) && Step(s, t)
    ensures Inv(t)
  {
    hide Inv, WorkerStep, ServerStep, Loses, Restarts;
    if l, op :| WorkerStep(s, l, op, t) { WorkerKeeps(s, l, op, t); }
    else if id, e :| ServerStep(s, id, e, t) { ServerKeeps(s, id, e, t); }
    else if id :| Loses(s, id, t) { LoseKeeps(s, id, t); }
    else { RestartKeeps(s, t); }
  }

  lemma {:induction false} RunKeepsInv(states: seq<State>, n: nat)
    requires IsRun(states) && n < |states|
    ensures Inv(states[n])
  {
    hide Inv, Step, Init;
    if n == 0 {
      InitInv(states[0]);
    } else {
      RunKeepsInv(states, n - 1);
      StepKeeps(states[n - 1], states[n]);
    }
  }

  predicate Accepts(e: Runs.Event) {
    e.op.PostResult? && e.resp.ResultAccepted?
  }

  /** Over every interleaving of ticks, worker restarts, lost messages, pauses and
      re-authorisations: no request is executed twice, every request executed was started by the
      server, which starts each at most once and accepts at most one result for it. */
  lemma ExecutedAtMostOnce(states: seq<State>, n: nat)
    requires IsRun(states) && n < |states|
    ensures NoRepeats(states[n].worker.executed)
    ensures forall r :: r in states[n].worker.executed ==> WasStarted(states[n].events, r)
    ensures var es := states[n].events;
            && (forall i, j :: 0 <= i < j < |es| && es[i].resp.Started? && es[j].resp.Started? ==>
                  es[i].resp.request.id != es[j].resp.request.id)
            && (forall i, j :: 0 <= i < j < |es| && Accepts(es[i]) && Accepts(es[j]) ==> es[i].op.req != es[j].op.req)
  {
    RunKeepsInv(states, n);
    hide W.Inv, Runs.SysInv, Runs.IsRun, Runs.Spent, RepliesInv, TasksInv, HolderInv, IsRun;
    var h, es := states[n].history, states[n].events;
    forall i, j | 0 <= i < j < |es| && es[i].resp.Started? && es[j].resp.Started?
      ensures es[i].resp.request.id != es[j].resp.request.id
    {
      Runs.StartedAtMostOnce(h, es, i, j);
    }
    forall i, j | 0 <= i < j < |es| && Accepts(es[i]) && Accepts(es[j])
      ensures es[i].op.req != es[j].op.req
    {
      Runs.AnsweredAtMostOnce(h, es, i, j);
    }
  }
}
