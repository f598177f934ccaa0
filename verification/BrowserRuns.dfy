/** Whole runs of the registry: how a request may move through its life, that a command is
    started at most once and answered at most once, and that a stopped control never starts
    another command. */
module BrowserRuns {
  import opened Prelude
  import opened BrowserRegistry
  import opened BrowserInvariants

  // ---------------------------------------------------------------- one step

  /** Same request, same status or expired. */
  predicate Quiet(q: Request, q': Request) {
    && q'.id == q.id && q'.controlId == q.controlId && q'.command.Some? == q.command.Some?
    && (q'.status == q.status || q'.status == Expired)
  }

  predicate StartedBy(k: Id, r: Id, op: Op, resp: Response) {
    op.StartCommand? && op.conn == k && op.req == r && resp.Started?
  }

  predicate AnsweredBy(k: Id, r: Id, op: Op, resp: Response) {
    op.PostResult? && op.conn == k && op.req == r && resp.ResultAccepted?
  }

  predicate StopsControl(k: Id, op: Op) {
    (op.SetControl? || op.StopByOwner?) && op.conn == k
  }

  /** The only ways a handler may move request r of connection k. */
  predicate Allowed(k: Id, r: Id, q: Request, q': Request, op: Op, resp: Response) {
    || Quiet(q, q')
    || (&& q'.id == q.id && q'.controlId == q.controlId && q'.command.Some? == q.command.Some?
        && if q.command.Some? then
             || (q.status == Pending && q'.status == Running && StartedBy(k, r, op, resp))
             || (q.status == Running && (q'.status == Completed || q'.status == Failed) && AnsweredBy(k, r, op, resp))
             || (Active(q) && q'.status == Cancelled && StopsControl(k, op))
           else
             q.status == Pending && (q'.status == Approved || q'.status == Denied) && op.AnswerSnapshot?
               && op.conn == k && op.req == r)
  }

  /** Every request that survives the step moved as allowed; every new one is named by the step. */
  ghost predicate Moves(s: Reg, t: Reg, op: Op, resp: Response) {
    forall k :: k in t.connections ==>
      && (k !in s.connections ==>
            k in Nonce(op) && t.connections[k].requests == map[] && t.connections[k].control.None?)
      && (k in s.connections ==> ConnectionMoves(k, s.connections[k], t.connections[k], op, resp))
  }

  ghost predicate ConnectionMoves(k: Id, c: Connection, d: Connection, op: Op, resp: Response) {
    && (forall r :: r in d.requests && r in c.requests ==> Allowed(k, r, c.requests[r], d.requests[r], op, resp))
    && (forall r :: r in d.requests && r !in c.requests ==>
          (op.CreateCommand? || op.AskSnapshot?) && op.conn == k &&
          r in Nonce(op) && d.requests[r].status == Pending
            && (d.requests[r].controlId == "" || (c.control.Some? && d.requests[r].controlId == c.control.value.id)))
    && (d.control == c.control || d.control.None?
          || (op.SetControl? && op.conn == k && d.control.value.id in Nonce(op)))
  }

  /** Pruning is quiet. */
  ghost predicate QuietConnection(c: Connection, p: Connection) {
    && p.requests.Keys <= c.requests.Keys && p.control == c.control
    && forall r :: r in p.requests ==> Quiet(c.requests[r], p.requests[r])
  }

  lemma PruneIsQuiet(c: Connection, now: Time)
    ensures QuietConnection(c, PruneConnection(c, now))
  {
  }

  /** A quiet change followed by an allowed one is allowed. */
  lemma QuietThenMoves(k: Id, c: Connection, p: Connection, d: Connection, op: Op, resp: Response)
    requires QuietConnection(c, p) && ConnectionMoves(k, p, d, op, resp)
    requires forall n :: n in Nonce(op) ==> n !in c.requests
    ensures ConnectionMoves(k, c, d, op, resp)
  {
    forall r | r in d.requests && r in c.requests
      ensures Allowed(k, r, c.requests[r], d.requests[r], op, resp)
    {
      assert r in p.requests && Quiet(c.requests[r], p.requests[r])
        && Allowed(k, r, p.requests[r], d.requests[r], op, resp);
    }
  }

  lemma UnchangedMoves(k: Id, c: Connection, op: Op, resp: Response)
    ensures ConnectionMoves(k, c, c, op, resp)
  {
  }

  lemma StopMoves(k: Id, c: Connection, op: Op, resp: Response)
    requires StopsControl(k, op)
    ensures ConnectionMoves(k, c, StopControl(c), op, resp)
    ensures op.SetControl? ==> forall control: Option<Control> :: control.None? || control.value.id in Nonce(op) ==>
              ConnectionMoves(k, c, StopControl(c).(control := control), op, resp)
  {
  }

  /** `t` differs from `r` at most in the record of connection `k`. */
  predicate PutBack(r: Reg, t: Reg, k: Id) {
    && t.connections.Keys == r.connections.Keys
    && forall j :: j in r.connections && j != k ==> t.connections[j] == r.connections[j]
  }

  predicate UpdatesOne(op: Op) {
    op.SetControl? || op.CreateCommand? || op.StartCommand? || op.PostResult? || op.Poll? || op.AskSnapshot?
      || op.AnswerSnapshot?
    || op.StopByOwner?
  }

  /** These handlers touch no connection but the one they were asked about. */
  lemma UpdatedKeys(s: Reg, now: Time, later: Time, op: Op, t: Reg, resp: Response)
    requires Inv(s) && Inv(Prune(s, now)) && Next(s, now, later, op, t, resp) && UpdatesOne(op)
    ensures t == s || PutBack(Prune(s, now), t, op.conn) || (op.StopByOwner? && PutBack(s, t, op.conn))
  {
    var p := Prune(s, now);
    if op.conn in p.connections { ConnectionIds(p, op.conn); }
    if op.conn in s.connections { ConnectionIds(s, op.conn); }
    if op.CreateCommand? { CreatedKeys(s, now, later, op, t, resp); }
    else if op.PostResult? { AnsweredKeys(s, now, op, t, resp); }
    else if op.StopByOwner? || op.AskSnapshot? { OwnerKeys(s, now, later, op, t, resp); }
    else { BridgeKeys(s, now, later, op, t, resp); }
  }

  lemma OwnerKeys(s: Reg, now: Time, later: Time, op: Op, t: Reg, resp: Response)
    requires (op.StopByOwner? && (t, resp) == StopByOwnerStep(s, op))
      || (op.AskSnapshot? && (t, resp) == AskSnapshotStep(s, now, later, op))
    requires op.conn in Prune(s, now).connections ==> Prune(s, now).connections[op.conn].id == op.conn
    requires op.conn in s.connections ==> s.connections[op.conn].id == op.conn
    ensures t == s || PutBack(Prune(s, now), t, op.conn) || (op.StopByOwner? && PutBack(s, t, op.conn))
  {
    hide Prune, StopControl, Put;
    if op.conn in Prune(s, now).connections { PutsBack(Prune(s, now), op.conn); }
    if op.conn in s.connections { PutsBack(s, op.conn); }
    if op.conn in s.connections { StopKeepsId(s.connections[op.conn]); }
  }

  lemma BridgeKeys(s: Reg, now: Time, later: Time, op: Op, t: Reg, resp: Response)
    requires Next(s, now, later, op, t, resp) && (op.SetControl? || op.StartCommand? || op.Poll? || op.AnswerSnapshot?)
    requires op.conn in Prune(s, now).connections ==> Prune(s, now).connections[op.conn].id == op.conn
    ensures t == s || PutBack(Prune(s, now), t, op.conn)
  {
    hide Prune, StopControl, HttpOrigin, Put;
    var p := Prune(s, now);
    if Bridge(p, op.conn, op.bearer) {
      StopKeepsId(p.connections[op.conn]);
      PutsBack(p, op.conn);
    }
  }

  lemma PutsBack(r: Reg, k: Id)
    requires k in r.connections
    ensures forall c: Connection :: c.id == k ==> PutBack(r, Put(r, c), k)
    ensures PutBack(r, r, k)
  {
  }

  lemma CreatedKeys(s: Reg, now: Time, later: Time, op: Op, t: Reg, resp: Response)
    requires op.CreateCommand? && CreateCommandNext(s, now, later, op, t, resp)
    requires op.conn in Prune(s, now).connections ==> Prune(s, now).connections[op.conn].id == op.conn
    ensures t == s || PutBack(Prune(s, now), t, op.conn)
  {
    hide Prune, Trimmed, NewCommand, Put, AnyActive;
    var p := Prune(s, now);
    if resp == ServerError || resp.Accepted? {
      var c := p.connections[op.conn];
      var reqs :| Trimmed(c.requests, reqs) &&
        if op.nonce.None? then t == Put(p, c.(requests := reqs))
        else t == PutRequest(p, c.(requests := reqs), NewCommand(op, c, later));
      PutsBack(p, op.conn);
    }
  }

  lemma AnsweredKeys(s: Reg, now: Time, op: Op, t: Reg, resp: Response)
    requires op.PostResult? && PostResultNext(s, now, op, t, resp)
    requires op.conn in Prune(s, now).connections ==> Prune(s, now).connections[op.conn].id == op.conn
    ensures t == s || PutBack(Prune(s, now), t, op.conn)
  {
    hide Prune, MadeRoom, Retained, Bytes, Finished, ClearInput, Put;
    var p := Prune(s, now);
    if resp == ResultAccepted {
      var c := p.connections[op.conn];
      var others := Retained(p.connections - {op.conn});
      var before := c.requests[op.req := ClearInput(c.requests[op.req].(status := Completed))];
      var after :| MadeRoom(before, after, others, |op.result|) && op.req in after &&
        var fits := others + Bytes(after) + |op.result| <= RETAINED_LIMIT;
        t == Put(p, c.(requests := after[op.req := Finished(after[op.req], fits, op.result, op.error)]));
      PutsBack(p, op.conn);
    }
  }

  /** The connection handled, as it is after pruning and after the step. */
  lemma HandledConnectionMoves(p: Reg, now: Time, later: Time, op: Op, t: Reg, resp: Response, k: Id, s: Reg)
    requires Inv(s) && p == Prune(s, now) && Inv(p) && Next(s, now, later, op, t, resp)
    requires !op.StopByOwner? && !op.RevokeByOwner? && t != s
    requires k in p.connections && k in t.connections
    requires forall n :: n in Nonce(op) ==> FreshFor(s, n) && FreshFor(p, n)
    ensures ConnectionMoves(k, p.connections[k], t.connections[k], op, resp)
  {
    hide Prune, Inv, FreshFor, ConnectionMoves, Wellformed, SetControlStep, CreateCommandNext, StartStep,
      PostResultNext, PollStep, AskSnapshotStep, AnswerSnapshotStep, ClaimStep, Nonce;
    UnchangedMoves(k, p.connections[k], op, resp);
    if UpdatesOne(op) {
      UpdatedKeys(s, now, later, op, t, resp);
      if k == op.conn {
        ConnectionIds(p, k);
        AskedConnectionMoves(p, now, later, op, t, resp, s);
      }
    } else {
      UnaskedConnection(p, now, later, op, t, resp, k, s);
    }
  }

  lemma UnaskedConnection(p: Reg, now: Time, later: Time, op: Op, t: Reg, resp: Response, k: Id, s: Reg)
    requires p == Prune(s, now) && Next(s, now, later, op, t, resp)
    requires !UpdatesOne(op) && !op.RevokeByOwner? && t != s
    requires k in p.connections && k in t.connections
    requires forall n :: n in Nonce(op) ==> FreshFor(p, n)
    ensures t.connections[k] == p.connections[k]
  {
    hide Prune;
    if op.Claim? && resp.Claimed? {
      FreshNotConnected(p, op.nonce.value);
    }
  }

  lemma AskedConnectionMoves(p: Reg, now: Time, later: Time, op: Op, t: Reg, resp: Response, s: Reg)
    requires p == Prune(s, now) && Next(s, now, later, op, t, resp) && t != s
    requires UpdatesOne(op) && !op.StopByOwner?
    requires op.conn in p.connections && Wellformed(op.conn, p.connections[op.conn]) && op.conn in t.connections
    requires forall n :: n in Nonce(op) ==> FreshFor(p, n)
    ensures ConnectionMoves(op.conn, p.connections[op.conn], t.connections[op.conn], op, resp)
  {
    hide Prune, ConnectionMoves, SetControlStep, CreateCommandNext, StartStep, PostResultNext, PollStep,
      AskSnapshotStep, AnswerSnapshotStep;
    match op {
      case SetControl(_, _, _, _, _, _) => SetControlMoves(p, op, op.conn, s, now);
      case CreateCommand(_, _, _, _, _) => CreatedMoves(s, p, now, later, op, t, resp);
      case StartCommand(_, _, _) => StartMoves(s, p, now, op, t, resp);
      case PostResult(_, _, _, _, _) =>
        UnchangedMoves(op.conn, p.connections[op.conn], op, resp);
        ResultMoves(s, p, now, op, t, resp);
      case Poll(_, _) => PollMoves(s, p, now, later, op, t, resp);
      case AskSnapshot(_, _, _, _) => AskMoves(s, p, now, later, op, t, resp);
      case AnswerSnapshot(_, _, _, _, _) => AnswerMoves(s, p, now, op, t, resp);
    }
  }

  lemma FreshNotConnected(p: Reg, n: Id)
    requires FreshFor(p, n)
    ensures n !in p.connections
  {
  }

  lemma FreshNotInRequests(p: Reg, n: Id, k: Id)
    requires FreshFor(p, n) && k in p.connections
    ensures n !in p.connections[k].requests
  {
  }

  lemma SetControlMoves(p: Reg, op: Op, k: Id, s: Reg, now: Time)
    requires op.SetControl? && op.conn == k && p == Prune(s, now) && k in p.connections && p.connections[k].id == k
    ensures var (t, resp) := SetControlStep(s, now, op);
            ConnectionMoves(k, p.connections[k], t.connections[k], op, resp)
  {
    hide Prune, ConnectionMoves, StopControl, HttpOrigin;
    var (t, resp) := SetControlStep(s, now, op);
    UnchangedMoves(k, p.connections[k], op, resp);
    StopMoves(k, p.connections[k], op, resp);
    assert StopControl(p.connections[k]).id == k by { StopKeepsId(p.connections[k]); }
    var c := StopControl(p.connections[k]);
    assert c.(control := None) == c by { StopKeepsId(p.connections[k]); }
  }

  lemma StopKeepsId(c: Connection)
    ensures StopControl(c).id == c.id && StopControl(c).control == None
  {
  }

  lemma CreateMoves(k: Id, c: Connection, op: Op, later: Time, reqs: map<Id, Request>, resp: Response)
    requires op.CreateCommand? && op.conn == k && c.control.Some? && Trimmed(c.requests, reqs)
    ensures ConnectionMoves(k, c, c.(requests := reqs), op, resp)
    ensures op.nonce.Some? && op.nonce.value !in c.requests ==>
              ConnectionMoves(k, c, c.(requests := reqs[op.nonce.value := NewCommand(op, c, later)]), op, resp)
  {
    hide Allowed, Trimmed;
    TrimmedSubset(c.requests, reqs);
    forall r | r in reqs ensures Allowed(k, r, c.requests[r], reqs[r], op, resp) {
      QuietAllowed(k, r, c.requests[r], reqs[r], op, resp);
    }
  }

  lemma TrimmedSubset(before: map<Id, Request>, after: map<Id, Request>)
    requires Trimmed(before, after)
    ensures forall r :: r in after ==> r in before && after[r] == before[r]
  {
  }

  lemma CreatedMoves(s: Reg, p: Reg, now: Time, later: Time, op: Op, t: Reg, resp: Response)
    requires op.CreateCommand? && p == Prune(s, now) && CreateCommandNext(s, now, later, op, t, resp) && t != s
    requires op.conn in p.connections && Wellformed(op.conn, p.connections[op.conn])
    requires forall n :: n in Nonce(op) ==> FreshFor(p, n)
    ensures op.conn in t.connections
    ensures ConnectionMoves(op.conn, p.connections[op.conn], t.connections[op.conn], op, resp)
  {
    hide Prune, Lifecycle, ConnectionMoves, Trimmed, AnyActive, FreshFor;
    var c := p.connections[op.conn];
    UnchangedMoves(op.conn, c, op, resp);
    if resp == ServerError || resp.Accepted? {
      var reqs :| Trimmed(c.requests, reqs) &&
        if op.nonce.None? then t == Put(p, c.(requests := reqs))
        else t == PutRequest(p, c.(requests := reqs), NewCommand(op, c, later));
      if op.nonce.Some? { FreshNotInRequests(p, op.nonce.value, op.conn); }
      CreateMoves(op.conn, c, op, later, reqs, resp);
    }
  }

  lemma StartMoves(s: Reg, p: Reg, now: Time, op: Op, t: Reg, resp: Response)
    requires op.StartCommand? && p == Prune(s, now) && (t, resp) == StartStep(s, now, op)
    requires op.conn in p.connections && Wellformed(op.conn, p.connections[op.conn])
    ensures op.conn in t.connections
    ensures ConnectionMoves(op.conn, p.connections[op.conn], t.connections[op.conn], op, resp)
  {
    hide Prune, Lifecycle;
  }

  lemma AskMoves(s: Reg, p: Reg, now: Time, later: Time, op: Op, t: Reg, resp: Response)
    requires op.AskSnapshot? && p == Prune(s, now) && (t, resp) == AskSnapshotStep(s, now, later, op) && t != s
    requires op.conn in p.connections && Wellformed(op.conn, p.connections[op.conn])
    requires forall n :: n in Nonce(op) ==> FreshFor(p, n)
    ensures op.conn in t.connections
    ensures ConnectionMoves(op.conn, p.connections[op.conn], t.connections[op.conn], op, resp)
  {
    hide Prune, Lifecycle;
    if resp.Accepted? { assert FreshFor(p, op.nonce.value); }
  }

  lemma AnswerMoves(s: Reg, p: Reg, now: Time, op: Op, t: Reg, resp: Response)
    requires op.AnswerSnapshot? && p == Prune(s, now) && (t, resp) == AnswerSnapshotStep(s, now, op) && t != s
    requires op.conn in p.connections && Wellformed(op.conn, p.connections[op.conn])
    ensures op.conn in t.connections
    ensures ConnectionMoves(op.conn, p.connections[op.conn], t.connections[op.conn], op, resp)
  {
    hide Prune, Lifecycle;
  }

  lemma PollMoves(s: Reg, p: Reg, now: Time, later: Time, op: Op, t: Reg, resp: Response)
    requires op.Poll? && p == Prune(s, now) && (t, resp) == PollStep(s, now, later, op)
    requires op.conn in p.connections && Wellformed(op.conn, p.connections[op.conn])
    ensures op.conn in t.connections
    ensures ConnectionMoves(op.conn, p.connections[op.conn], t.connections[op.conn], op, resp)
  {
    hide Prune, Lifecycle;
  }

  lemma ResultMoves(s: Reg, p: Reg, now: Time, op: Op, t: Reg, resp: Response)
    requires op.PostResult? && p == Prune(s, now) && PostResultNext(s, now, op, t, resp) && t != s
    requires op.conn in p.connections && Wellformed(op.conn, p.connections[op.conn])
    ensures op.conn in t.connections
    ensures ConnectionMoves(op.conn, p.connections[op.conn], t.connections[op.conn], op, resp)
  {
    hide Prune, Lifecycle, Bytes, Retained, ConnectionMoves, MadeRoom;
    var c := p.connections[op.conn];
    UnchangedMoves(op.conn, c, op, resp);
    if resp != ResultAccepted { return; }
    var others := Retained(p.connections - {op.conn});
    var before := c.requests[op.req := ClearInput(c.requests[op.req].(status := Completed))];
    var after :| MadeRoom(before, after, others, |op.result|) && op.req in after &&
      var fits := others + Bytes(after) + |op.result| <= RETAINED_LIMIT;
      t == Put(p, c.(requests := after[op.req := Finished(after[op.req], fits, op.result, op.error)]));
    assert OnlyEvicts(before, after) by { EvictsOnly(before, after, others, |op.result|); }
    FinishedMoves(c, op, before, after, others + Bytes(after) + |op.result| <= RETAINED_LIMIT, resp);
  }

  lemma EvictsOnly(before: map<Id, Request>, after: map<Id, Request>, others: nat, size: nat)
    requires MadeRoom(before, after, others, size)
    ensures OnlyEvicts(before, after)
  {
  }

  lemma FinishedMoves(c: Connection, op: Op, before: map<Id, Request>, after: map<Id, Request>, fits: bool,
      resp: Response)
    requires op.PostResult? && resp == ResultAccepted && Authorized(c, op.req, Running)
    requires before == c.requests[op.req := ClearInput(c.requests[op.req].(status := Completed))]
    requires OnlyEvicts(before, after)
    ensures ConnectionMoves(op.conn, c,
      c.(requests := after[op.req := Finished(after[op.req], fits, op.result, op.error)]), op, resp)
  {
    hide Allowed;
    var q := Finished(after[op.req], fits, op.result, op.error);
    assert Allowed(op.conn, op.req, c.requests[op.req], q, op, resp)
      by { FinishedAllowed(c.requests[op.req], op, fits, resp); }
    forall r | r in c.requests && r != op.req ensures Allowed(op.conn, r, c.requests[r], after[r], op, resp) {
      QuietAllowed(op.conn, r, c.requests[r], after[r], op, resp);
    }
  }

  lemma FinishedAllowed(q: Request, op: Op, fits: bool, resp: Response)
    requires op.PostResult? && resp == ResultAccepted && q.command.Some? && q.status == Running
    ensures Allowed(op.conn, op.req, q, Finished(ClearInput(q.(status := Completed)), fits, op.result, op.error), op,
      resp)
  {
  }

  lemma QuietAllowed(k: Id, r: Id, q: Request, q': Request, op: Op, resp: Response)
    requires Quiet(q, q')
    ensures Allowed(k, r, q, q', op, resp)
  {
  }

  /** Connections only ever appear by a claim, empty, and survive a step only if they survive its prune. */
  lemma StepKeys(s: Reg, now: Time, later: Time, op: Op, t: Reg, resp: Response, k: Id)
    requires Inv(s) && Inv(Prune(s, now)) && Next(s, now, later, op, t, resp) && k in t.connections
    ensures k in s.connections || k in Nonce(op)
    ensures k in s.connections ==>
              op.StopByOwner? || op.RevokeByOwner? || t == s || k in Prune(s, now).connections || k in Nonce(op)
    ensures k !in s.connections ==> t.connections[k].requests == map[] && t.connections[k].control.None?
  {
    var p := Prune(s, now);
    PruneShrinks(s, now);
    hide Prune, Inv, SetControlStep, StopByOwnerStep, CreateCommandNext, StartStep, PostResultNext, PollStep,
      AskSnapshotStep, AnswerSnapshotStep;
    if UpdatesOne(op) { UpdatedKeys(s, now, later, op, t, resp); }
  }

  lemma PruneShrinks(s: Reg, now: Time)
    ensures Prune(s, now).connections.Keys <= s.connections.Keys
  {
  }

  /** Every step moves every request only along its lifecycle. */
  lemma NextMoves(s: Reg, now: Time, later: Time, op: Op, t: Reg, resp: Response)
    requires Inv(s) && Next(s, now, later, op, t, resp)
    requires forall n :: n in Nonce(op) ==> FreshFor(s, n)
    ensures Moves(s, t, op, resp)
  {
    PruneInv(s, now);
    var p := Prune(s, now);
    forall n | n in Nonce(op) ensures FreshFor(p, n) { FreshAfterPrune(s, now, n); }
    forall k | k in t.connections
      ensures k !in s.connections ==>
        k in Nonce(op) && t.connections[k].requests == map[] && t.connections[k].control.None?
      ensures k in s.connections ==> ConnectionMoves(k, s.connections[k], t.connections[k], op, resp)
    {
      StepKeys(s, now, later, op, t, resp, k);
      if k in s.connections {
        ConnectionStep(s, p, now, later, op, t, resp, k);
      }
    }
  }

  lemma ConnectionStep(s: Reg, p: Reg, now: Time, later: Time, op: Op, t: Reg, resp: Response, k: Id)
    requires Inv(s) && p == Prune(s, now) && Inv(p) && Next(s, now, later, op, t, resp)
    requires k in t.connections && k in s.connections
    requires op.StopByOwner? || op.RevokeByOwner? || t == s || k in p.connections || k in Nonce(op)
    requires forall n :: n in Nonce(op) ==> FreshFor(s, n) && FreshFor(p, n)
    ensures ConnectionMoves(k, s.connections[k], t.connections[k], op, resp)
  {
    hide ConnectionMoves, Prune, FreshFor, ConnectionInv, Budget, Census;
    var c := s.connections[k];
    UnchangedMoves(k, c, op, resp);
    if op.StopByOwner? {
      if op.conn in s.connections { ConnectionIds(s, op.conn); }
      StopOwnerMoves(s, op, t, resp, k);
    } else if op.RevokeByOwner? {
      RevokeMoves(s, op, t, resp, k);
    } else if t != s {
      hide Inv, Next, Nonce;
      assert k !in Nonce(op) by { if k in Nonce(op) { FreshNotConnected(s, k); } }
      PrunedConnection(s, now, k);
      HandledConnectionMoves(p, now, later, op, t, resp, k, s);
      forall n | n in Nonce(op) ensures n !in c.requests { FreshNotInRequests(s, n, k); }
      QuietThenMoves(k, c, p.connections[k], t.connections[k], op, resp);
    }
  }

  lemma ConnectionIds(s: Reg, k: Id)
    requires Inv(s) && k in s.connections
    ensures s.connections[k].id == k && Wellformed(k, s.connections[k])
  {
    assert ConnectionInv(k, s.connections[k]);
  }

  lemma PrunedConnection(s: Reg, now: Time, k: Id)
    requires k in Prune(s, now).connections
    ensures k in s.connections && QuietConnection(s.connections[k], Prune(s, now).connections[k])
  {
    PruneIsQuiet(s.connections[k], now);
  }

  lemma StopOwnerMoves(s: Reg, op: Op, t: Reg, resp: Response, k: Id)
    requires op.StopByOwner? && (t, resp) == StopByOwnerStep(s, op) && k in s.connections && k in t.connections
    requires op.conn in s.connections ==> s.connections[op.conn].id == op.conn
    ensures ConnectionMoves(k, s.connections[k], t.connections[k], op, resp)
  {
    hide ConnectionMoves, StopControl;
    UnchangedMoves(k, s.connections[k], op, resp);
    if k == op.conn {
      StopMoves(k, s.connections[k], op, resp);
      StopKeepsId(s.connections[k]);
    }
    if op.conn in s.connections { StopKeepsId(s.connections[op.conn]); }
  }

  lemma RevokeMoves(s: Reg, op: Op, t: Reg, resp: Response, k: Id)
    requires op.RevokeByOwner? && (t, resp) == RevokeByOwnerStep(s, op) && k in s.connections && k in t.connections
    ensures ConnectionMoves(k, s.connections[k], t.connections[k], op, resp)
  {
    hide ConnectionMoves;
    UnchangedMoves(k, s.connections[k], op, resp);
  }

  // ---------------------------------------------------------------- runs

  /** A registry with the names handed out so far and the last clock reading. */
  datatype Sys = Sys(reg: Reg, used: set<Id>, clock: Time)

  datatype Event = Event(now: Time, later: Time, op: Op, resp: Response)

  ghost predicate Init(a: Sys) {
    a.reg == Reg(map[], map[]) && a.used == {""}
  }

  /** The clock does not go back, and random names are new. */
  ghost predicate Step(a: Sys, e: Event, b: Sys) {
    && a.clock <= e.now <= e.later == b.clock
    && Nonce(e.op) !! a.used && b.used == a.used + Nonce(e.op)
    && Next(a.reg, e.now, e.later, e.op, b.reg, e.resp)
  }

  ghost predicate IsRun(states: seq<Sys>, events: seq<Event>) {
    && |states| == |events| + 1
    && Init(states[0])
    && forall i :: 0 <= i < |events| ==> Step(states[i], events[i], states[i + 1])
  }

  ghost predicate Named(a: Sys, k: Id) {
    k in a.reg.connections && k in a.used &&
    var c := a.reg.connections[k];
    (c.control.Some? ==> c.control.value.id in a.used) && forall r :: r in c.requests ==>
      r in a.used && c.requests[r].controlId in a.used
  }

  /** Two connections share neither a request id nor a control id. */
  ghost predicate Apart(c: Connection, d: Connection) {
    c.requests.Keys !! d.requests.Keys
      && (c.control.Some? && d.control.Some? ==> c.control.value.id != d.control.value.id)
  }

  ghost predicate SysInv(a: Sys) {
    && Inv(a.reg) && "" in a.used
    && (forall k :: k in a.reg.connections ==> Named(a, k))
    && (forall j, k :: j in a.reg.connections && k in a.reg.connections && j != k ==>
          Apart(a.reg.connections[j], a.reg.connections[k]))
  }

  lemma NoncesAreFresh(a: Sys, e: Event, b: Sys)
    requires SysInv(a) && Step(a, e, b)
    ensures forall n :: n in Nonce(e.op) ==> FreshFor(a.reg, n)
  {
    hide Inv, Next;
    forall n | n in Nonce(e.op) ensures FreshFor(a.reg, n) {
      forall k | k in a.reg.connections ensures n != k && n !in a.reg.connections[k].requests {
        assert Named(a, k);
      }
    }
  }

  lemma StepMoves(a: Sys, e: Event, b: Sys)
    requires SysInv(a) && Step(a, e, b)
    ensures Moves(a.reg, b.reg, e.op, e.resp) && Inv(b.reg)
  {
    NoncesAreFresh(a, e, b);
    hide Inv, Next, Named, FreshFor, Moves;
    NextMoves(a.reg, e.now, e.later, e.op, b.reg, e.resp);
    NextKeepsInv(a.reg, e.now, e.later, e.op, b.reg, e.resp);
  }

  lemma StepAt(a: Sys, e: Event, b: Sys, k: Id)
    requires SysInv(a) && Step(a, e, b) && k in b.reg.connections
    ensures k in a.reg.connections ==> ConnectionMoves(k, a.reg.connections[k], b.reg.connections[k], e.op, e.resp)
    ensures k !in a.reg.connections ==> b.reg.connections[k].requests == map[] && b.reg.connections[k].control.None?
  {
    StepMoves(a, e, b);
    hide Inv, Next, ConnectionMoves, SysInv;
  }

  /** A request already known that is still there moved as allowed. */
  lemma RequestAt(a: Sys, e: Event, b: Sys, k: Id, r: Id)
    requires SysInv(a) && Step(a, e, b) && k in b.reg.connections && r in b.reg.connections[k].requests && r in a.used
    ensures k in a.reg.connections && r in a.reg.connections[k].requests
    ensures Allowed(k, r, a.reg.connections[k].requests[r], b.reg.connections[k].requests[r], e.op, e.resp)
  {
    StepAt(a, e, b, k);
    hide Inv, Next, SysInv, Allowed;
  }

  lemma StepKeepsNamed(a: Sys, e: Event, b: Sys, k: Id)
    requires SysInv(a) && Step(a, e, b) && Moves(a.reg, b.reg, e.op, e.resp) && k in b.reg.connections
    ensures Named(b, k)
  {
    hide Inv, Next;
    if k in a.reg.connections { assert Named(a, k); }
  }

  lemma StepKeepsApart(a: Sys, e: Event, b: Sys, j: Id, k: Id)
    requires SysInv(a) && Step(a, e, b) && Moves(a.reg, b.reg, e.op, e.resp)
    requires j in b.reg.connections && k in b.reg.connections && j != k
    ensures Apart(b.reg.connections[j], b.reg.connections[k])
  {
    hide Inv, Next, Allowed;
    if j in a.reg.connections && k in a.reg.connections {
      assert Apart(a.reg.connections[j], a.reg.connections[k]);
      assert Named(a, j) && Named(a, k);
      assert ConnectionMoves(j, a.reg.connections[j], b.reg.connections[j], e.op, e.resp);
      assert ConnectionMoves(k, a.reg.connections[k], b.reg.connections[k], e.op, e.resp);
    }
  }

  lemma StepKeepsSysInv(a: Sys, e: Event, b: Sys)
    requires SysInv(a) && Step(a, e, b)
    ensures SysInv(b)
  {
    StepMoves(a, e, b);
    hide Inv, Next, Moves, Named, Apart;
    forall k | k in b.reg.connections ensures Named(b, k) { StepKeepsNamed(a, e, b, k); }
    forall j, k | j in b.reg.connections && k in b.reg.connections && j != k
      ensures Apart(b.reg.connections[j], b.reg.connections[k])
    {
      StepKeepsApart(a, e, b, j, k);
    }
  }

  lemma EmptyInv()
    ensures Inv(Reg(map[], map[]))
  {
    var m: map<Id, nat> := map[];
    SumZero(m);
    assert Totals(map[]) == m;
    forall owner ensures |OwnedBy(map[], owner)| <= 8 {
      assert OwnedBy(map[], owner) == {};
    }
  }

  /** Every registry reached by any run keeps the invariant: the lifecycle of each request, the
      single active command under the present control, the quotas and the byte budget. */
  lemma {:induction false} RunKeepsInv(states: seq<Sys>, events: seq<Event>, n: nat)
    requires IsRun(states, events) && n < |states|
    ensures SysInv(states[n]) && Retained(states[n].reg.connections) <= RETAINED_LIMIT
  {
    hide Next, Named, Apart;
    if n == 0 {
      EmptyInv();
    } else {
      hide Retained, AllConnections, Census;
      RunKeepsInv(states, events, n - 1);
      StepKeepsSysInv(states[n - 1], events[n - 1], states[n]);
    }
  }

  lemma RunNeverFull(states: seq<Sys>, events: seq<Event>, n: nat)
    requires IsRun(states, events) && n < |events|
    ensures events[n].resp != HistoryFull
  {
    hide Next, Inv;
    RunKeepsInv(states, events, n);
    var a, e := states[n], events[n];
    HistoryNeverFull(a.reg, e.now, e.later, e.op, states[n + 1].reg, e.resp);
  }

  // ---------------------------------------------------------------- at most once

  /** No request named `r` can be started: its time as pending is over. */
  ghost predicate Spent(a: Sys, r: Id) {
    r in a.used && forall k :: k in a.reg.connections && r in a.reg.connections[k].requests ==>
      a.reg.connections[k].requests[r].status != Pending
  }

  /** No request named `r` is pending or running. */
  ghost predicate Settled(a: Sys, r: Id) {
    r in a.used && forall k :: k in a.reg.connections && r in a.reg.connections[k].requests ==>
      Terminal(a.reg.connections[k].requests[r].status)
  }

  lemma StepKeepsSpent(a: Sys, e: Event, b: Sys, r: Id)
    requires SysInv(a) && Step(a, e, b)
    ensures Spent(a, r) ==> Spent(b, r)
    ensures Settled(a, r) ==> Settled(b, r)
  {
    hide SysInv, Step, Allowed;
    if r in a.used {
      assert r in b.used by { UsedGrows(a, e, b); }
      forall k | k in b.reg.connections && r in b.reg.connections[k].requests
        ensures k in a.reg.connections && r in a.reg.connections[k].requests
        ensures var q, q' := a.reg.connections[k].requests[r], b.reg.connections[k].requests[r];
                (q.status != Pending ==> q'.status != Pending) && (Terminal(q.status) ==> Terminal(q'.status))
      {
        RequestAt(a, e, b, k, r);
        AllowedForward(k, r, a.reg.connections[k].requests[r], b.reg.connections[k].requests[r], e.op, e.resp);
      }
    }
  }

  lemma UsedGrows(a: Sys, e: Event, b: Sys)
    requires Step(a, e, b)
    ensures a.used <= b.used
  {
    hide Next;
  }

  lemma AllowedForward(k: Id, r: Id, q: Request, q': Request, op: Op, resp: Response)
    requires Allowed(k, r, q, q', op, resp)
    ensures q.status != Pending ==> q'.status != Pending
    ensures Terminal(q.status) ==> Terminal(q'.status)
  {
  }

  /** A start reply: the request was pending under the present control before, and runs after. */
  lemma StartFacts(s: Reg, now: Time, op: Op, t: Reg, resp: Response)
    requires Inv(s) && op.StartCommand? && (t, resp) == StartStep(s, now, op) && resp.Started?
    ensures op.conn in s.connections && op.req in s.connections[op.conn].requests
    ensures s.connections[op.conn].requests[op.req].status == Pending
    ensures s.connections[op.conn].control.Some? && resp.request.controlId == s.connections[op.conn].control.value.id
    ensures resp.request.id == op.req && op.conn in t.connections && op.req in t.connections[op.conn].requests
    ensures t.connections[op.conn].requests[op.req].status == Running
  {
    hide Budget, Census, OneActive, Quotas, Lifecycle;
    ConnectionIds(s, op.conn);
    PruneIsQuiet(s.connections[op.conn], now);
  }

  lemma StartSpends(a: Sys, e: Event, b: Sys)
    requires SysInv(a) && Step(a, e, b) && e.resp.Started?
    ensures Spent(b, e.resp.request.id) && !Spent(a, e.resp.request.id)
  {
    hide Inv, Named, Apart, SetControlStep, StopByOwnerStep, CreateCommandNext, StartStep, PostResultNext, PollStep,
      ClaimStep, AskSnapshotStep, AnswerSnapshotStep;
    assert e.op.StartCommand? by { OnlyStartStarts(a.reg, e, b.reg); }
    StartFacts(a.reg, e.now, e.op, b.reg, e.resp);
    hide Inv, Next;
    OnlyThere(a, e, b);
  }

  /** The request a step is about lives in the step's connection only. */
  lemma OnlyThere(a: Sys, e: Event, b: Sys)
    requires SysInv(a) && Step(a, e, b) && (e.op.StartCommand? || e.op.PostResult?)
    requires e.op.conn in a.reg.connections && e.op.req in a.reg.connections[e.op.conn].requests
    requires e.op.conn in b.reg.connections && e.op.req in b.reg.connections[e.op.conn].requests
    ensures e.op.req in a.used && e.op.req in b.used
    ensures forall j :: j in b.reg.connections && e.op.req in b.reg.connections[j].requests ==> j == e.op.conn
  {
    hide Next, Inv, Allowed;
    assert Named(a, e.op.conn);
    StepKeepsSysInv(a, e, b);
    forall j | j in b.reg.connections && j != e.op.conn ensures e.op.req !in b.reg.connections[j].requests {
      assert Apart(b.reg.connections[j], b.reg.connections[e.op.conn]);
    }
  }

  lemma OnlyStartStarts(s: Reg, e: Event, t: Reg)
    requires Next(s, e.now, e.later, e.op, t, e.resp)
    ensures e.resp.Started? ==> e.op.StartCommand?
    ensures e.resp.ResultAccepted? ==> e.op.PostResult?
  {
    hide Prune, Put, Trimmed, MadeRoom, StopControl, NewCommand, OwnedBy, Bridge, Owns, Authorized, HttpOrigin,
      ValidCommand, AnyActive, Retained, Bytes, Finished, ClearInput, Terminal;
  }

  lemma AnswerFacts(s: Reg, now: Time, op: Op, t: Reg, resp: Response)
    requires Inv(s) && op.PostResult? && PostResultNext(s, now, op, t, resp) && resp.ResultAccepted?
    ensures op.conn in s.connections && op.req in s.connections[op.conn].requests
    ensures s.connections[op.conn].requests[op.req].status == Running
    ensures op.conn in t.connections && op.req in t.connections[op.conn].requests
    ensures Terminal(t.connections[op.conn].requests[op.req].status)
  {
    hide Inv, MadeRoom, Retained, Bytes;
    var p := Prune(s, now);
    ConnectionIds(s, op.conn);
    PruneIsQuiet(s.connections[op.conn], now);
    var c := p.connections[op.conn];
    var others := Retained(p.connections - {op.conn});
    var before := c.requests[op.req := ClearInput(c.requests[op.req].(status := Completed))];
    var after :| MadeRoom(before, after, others, |op.result|) && op.req in after &&
      var fits := others + Bytes(after) + |op.result| <= RETAINED_LIMIT;
      t == Put(p, c.(requests := after[op.req := Finished(after[op.req], fits, op.result, op.error)]));
  }

  lemma AnswerSettles(a: Sys, e: Event, b: Sys)
    requires SysInv(a) && Step(a, e, b) && e.op.PostResult? && e.resp.ResultAccepted?
    ensures Settled(b, e.op.req) && !Settled(a, e.op.req)
  {
    hide Inv, Named, Apart, SetControlStep, StopByOwnerStep, CreateCommandNext, StartStep, PostResultNext, PollStep,
      ClaimStep, AskSnapshotStep, AnswerSnapshotStep;
    AnswerFacts(a.reg, e.now, e.op, b.reg, e.resp);
    hide Inv, Next;
    OnlyThere(a, e, b);
  }

  lemma {:induction false} SpentForGood(states: seq<Sys>, events: seq<Event>, i: nat, j: nat, r: Id)
    requires IsRun(states, events) && i <= j < |states|
    ensures Spent(states[i], r) ==> Spent(states[j], r)
    ensures Settled(states[i], r) ==> Settled(states[j], r)
    decreases j
  {
    hide Next, Spent, Settled, SysInv;
    if i < j {
      SpentForGood(states, events, i, j - 1, r);
      RunKeepsInv(states, events, j - 1);
      StepKeepsSpent(states[j - 1], events[j - 1], states[j], r);
    }
  }

  /** Over any run, a request is started at most once. */
  lemma StartedAtMostOnce(states: seq<Sys>, events: seq<Event>, i: nat, j: nat)
    requires IsRun(states, events) && i < j < |events| && events[i].resp.Started? && events[j].resp.Started?
    ensures events[i].resp.request.id != events[j].resp.request.id
  {
    hide Next, Spent, SysInv;
    RunKeepsInv(states, events, i);
    RunKeepsInv(states, events, j);
    StartSpends(states[i], events[i], states[i + 1]);
    StartSpends(states[j], events[j], states[j + 1]);
    SpentForGood(states, events, i + 1, j, events[i].resp.request.id);
  }

  /** Over any run, at most one result is accepted for a request. */
  lemma AnsweredAtMostOnce(states: seq<Sys>, events: seq<Event>, i: nat, j: nat)
    requires IsRun(states, events) && i < j < |events| && events[i].resp.ResultAccepted?
    requires events[j].resp.ResultAccepted?
    requires events[i].op.PostResult? && events[j].op.PostResult?
    ensures events[i].op.req != events[j].op.req
  {
    hide Next, Settled, SysInv;
    RunKeepsInv(states, events, i);
    RunKeepsInv(states, events, j);
    AnswerSettles(states[i], events[i], states[i + 1]);
    AnswerSettles(states[j], events[j], states[j + 1]);
    SpentForGood(states, events, i + 1, j, events[i].op.req);
  }

  // ---------------------------------------------------------------- stopped controls

  /** Control `ctl` was handed out and is no connection's present control. */
  ghost predicate Retired(a: Sys, ctl: Id) {
    ctl in a.used && forall k :: k in a.reg.connections && a.reg.connections[k].control.Some? ==>
      a.reg.connections[k].control.value.id != ctl
  }

  lemma StepKeepsRetired(a: Sys, e: Event, b: Sys, ctl: Id)
    requires SysInv(a) && Step(a, e, b) && Retired(a, ctl)
    ensures Retired(b, ctl)
    ensures e.resp.Started? ==> e.resp.request.controlId != ctl
  {
    if e.resp.Started? {
      OnlyStartStarts(a.reg, e, b.reg);
      StartFacts(a.reg, e.now, e.op, b.reg, e.resp);
    }
    hide Next, Inv, Allowed;
    forall k | k in b.reg.connections && b.reg.connections[k].control.Some?
      ensures b.reg.connections[k].control.value.id != ctl
    {
      StepAt(a, e, b, k);
    }
  }

  lemma {:induction false} RetiredForGood(states: seq<Sys>, events: seq<Event>, i: nat, j: nat, ctl: Id)
    requires IsRun(states, events) && i <= j < |states| && Retired(states[i], ctl)
    ensures Retired(states[j], ctl)
    decreases j
  {
    hide Next, Retired, SysInv;
    if i < j {
      RetiredForGood(states, events, i, j - 1, ctl);
      RunKeepsInv(states, events, j - 1);
      StepKeepsRetired(states[j - 1], events[j - 1], states[j], ctl);
    }
  }

  /** Stopping a connection, by its owner or by the extension, retires its control. */
  lemma StopRetires(a: Sys, e: Event, b: Sys, k: Id)
    requires SysInv(a) && Step(a, e, b)
    requires (e.op.StopByOwner? && e.resp == Done) || (e.op.SetControl? && e.resp != Unauthorized)
    requires k == e.op.conn && k in a.reg.connections && a.reg.connections[k].control.Some?
    ensures Retired(b, a.reg.connections[k].control.value.id)
  {
    hide Inv, Next, Allowed, SysInv, ConnectionMoves;
    var ctl := a.reg.connections[k].control.value.id;
    RegOk(a);
    StoppedControl(a.reg, e, b.reg);
    NamedAt(a, k);
    forall j | j in b.reg.connections && b.reg.connections[j].control.Some?
      ensures b.reg.connections[j].control.value.id != ctl
    {
      if j != k { OtherControl(a, e, b, j, k); }
    }
  }

  lemma RegOk(a: Sys)
    requires SysInv(a)
    ensures Inv(a.reg)
  {
  }

  lemma NamedAt(a: Sys, k: Id)
    requires SysInv(a) && k in a.reg.connections && a.reg.connections[k].control.Some?
    ensures a.reg.connections[k].control.value.id in a.used
  {
    hide Inv;
    assert Named(a, k);
  }

  /** The control of another connection is its old one, or new. */
  lemma OtherControl(a: Sys, e: Event, b: Sys, j: Id, k: Id)
    requires SysInv(a) && Step(a, e, b) && j != k && j in b.reg.connections && b.reg.connections[j].control.Some?
    requires k in a.reg.connections && a.reg.connections[k].control.Some?
    ensures b.reg.connections[j].control.value.id != a.reg.connections[k].control.value.id
  {
    hide Inv, Next, Allowed;
    NamedAt(a, k);
    StepAt(a, e, b, j);
    if j in a.reg.connections { assert Apart(a.reg.connections[j], a.reg.connections[k]); }
  }

  lemma StoppedControl(s: Reg, e: Event, t: Reg)
    requires Inv(s) && Next(s, e.now, e.later, e.op, t, e.resp)
    requires (e.op.StopByOwner? && e.resp == Done) || (e.op.SetControl? && e.resp != Unauthorized)
    ensures e.op.conn in t.connections
    ensures t.connections[e.op.conn].control.None? || t.connections[e.op.conn].control.value.id in Nonce(e.op)
  {
    hide CreateCommandNext, StartStep, PostResultNext, PollStep, ClaimStep, AskSnapshotStep, AnswerSnapshotStep,
      LookupNext, ConnectionInv, Budget, Census;
    if e.op.StopByOwner? {
      ConnectionIds(s, e.op.conn);
      hide Inv, StopControl;
      StopKeepsId(s.connections[e.op.conn]);
    } else {
      PruneInv(s, e.now);
      hide Inv, HttpOrigin, StopControl, Prune;
      ConnectionIds(Prune(s, e.now), e.op.conn);
      StopKeepsId(Prune(s, e.now).connections[e.op.conn]);
    }
  }

  /** A command whose control was stopped is never started afterwards. */
  lemma StoppedNeverStarted(states: seq<Sys>, events: seq<Event>, i: nat, j: nat)
    requires IsRun(states, events) && i < j < |events| && events[j].resp.Started?
    requires (events[i].op.StopByOwner? && events[i].resp == Done)
      || (events[i].op.SetControl? && events[i].resp != Unauthorized)
    requires events[i].op.conn in states[i].reg.connections
    requires states[i].reg.connections[events[i].op.conn].control.Some?
    ensures events[j].resp.request.controlId != states[i].reg.connections[events[i].op.conn].control.value.id
  {
    hide Next, Retired, SysInv;
    RunKeepsInv(states, events, i);
    RunKeepsInv(states, events, j);
    var ctl := states[i].reg.connections[events[i].op.conn].control.value.id;
    StopRetires(states[i], events[i], states[i + 1], events[i].op.conn);
    RetiredForGood(states, events, i + 1, j, ctl);
    StepKeepsRetired(states[j], events[j], states[j + 1], ctl);
  }
}
