/** What each reply of the registry means to its caller: when it is given, what the registry then
    holds for the request or connection named, and that everything else stayed as pruning left it. */
module BrowserReplies {
  import opened Prelude
  import opened BrowserRegistry
  import opened BrowserInvariants

  /** Nothing but connection `k` is touched. */
  predicate OnlyAt(p: Reg, t: Reg, k: Id) {
    t.pairings == p.pairings && t.connections - {k} == p.connections - {k} && k in t.connections
  }

  /** Nothing of a connection but its requests and its control differs. */
  predicate SameButWork(c: Connection, d: Connection) {
    && d.id == c.id && d.name == c.name && d.owner == c.owner && d.token == c.token
    && d.lastSeen == c.lastSeen && d.expires == c.expires
  }

  /** Every active command is cancelled and its input gone; every other request is as it was. */
  predicate AllStopped(c: Connection, d: Connection) {
    && SameButWork(c, d) && d.requests.Keys == c.requests.Keys
    && forall r :: r in c.requests ==>
         if Active(c.requests[r]) then Stopped(c.requests[r], d.requests[r]) else d.requests[r] == c.requests[r]
  }

  ghost predicate SetControlMeans(p: Reg, op: Op, t: Reg, resp: Response)
    requires op.SetControl?
  {
    var granted := op.active && HttpOrigin(op.origin) && op.nonce.Some?;
    && (resp == Unauthorized <==> !Bridge(p, op.conn, op.bearer))
    && (resp == Unauthorized ==> t == p)
    && (Bridge(p, op.conn, op.bearer) ==>
          && OnlyAt(p, t, op.conn) && AllStopped(p.connections[op.conn], t.connections[op.conn])
          && (resp.ControlSet? <==> !op.active || granted)
          && (resp.ControlSet? ==> resp.control == t.connections[op.conn].control)
          && (resp == BadRequest <==> op.active && !HttpOrigin(op.origin))
          && (resp == ServerError <==> op.active && HttpOrigin(op.origin) && op.nonce.None?)
          && t.connections[op.conn].control ==
             if granted then Some(Control(op.nonce.value, op.origin, op.managed)) else None)
  }

  ghost predicate StopByOwnerMeans(s: Reg, op: Op, t: Reg, resp: Response)
    requires op.StopByOwner?
  {
    && (resp == Unauthorized <==> op.owner == "")
    && (resp == NotFound <==> op.owner != "" && !Owns(s, op.conn, op.owner))
    && (resp == Done <==> op.owner != "" && Owns(s, op.conn, op.owner))
    && (resp != Done ==> t == s)
    && (resp == Done ==>
          && OnlyAt(s, t, op.conn) && AllStopped(s.connections[op.conn], t.connections[op.conn])
          && t.connections[op.conn].control.None?)
  }

  /** A connection of that owner with a control and no active command. */
  predicate MayCommand(p: Reg, conn: Id, owner: string) {
    && Owns(p, conn, owner) && p.connections[conn].control.Some?
    && forall r :: r in p.connections[conn].requests ==> !Active(p.connections[conn].requests[r])
  }

  /** A new command, in the words of the request that asked for it. */
  predicate IsNewCommand(q: Request, op: Op, later: Time, control: Control)
    requires op.CreateCommand?
  {
    && Some(q.id) == op.nonce && q.connectionId == op.conn && q.reason == op.reason
    && q.status == Pending && q.expires == later + 60
    && q.command == Some(op.command) && q.controlId == control.id
    && q.snapshot.None? && q.result == "" && q.error == NoError
  }

  ghost predicate CreateCommandMeans(s: Reg, p: Reg, later: Time, op: Op, t: Reg, resp: Response)
    requires op.CreateCommand?
  {
    var valid := op.owner != "" && ValidCommand(op.reason, op.command);
    var may := valid && MayCommand(p, op.conn, op.owner);
    && (resp == Unauthorized <==> op.owner == "")
    && (resp == BadRequest <==> op.owner != "" && !ValidCommand(op.reason, op.command))
    && (resp == NotFound <==> valid && !Owns(p, op.conn, op.owner))
    && (resp == Conflict <==> valid && Owns(p, op.conn, op.owner) && !may)
    && (resp == ServerError <==> may && op.nonce.None?)
    && (resp.Accepted? <==> may && op.nonce.Some?)
    && (!valid ==> t == s)
    && (valid && !may ==> t == p)
    && (may ==>
          && OnlyAt(p, t, op.conn)
          && SameButWork(p.connections[op.conn], t.connections[op.conn])
          && t.connections[op.conn].control == p.connections[op.conn].control
          && Makes(p.connections[op.conn].requests, t.connections[op.conn].requests, op.nonce))
    && (resp.Accepted? ==>
          && IsNewCommand(resp.request, op, later, p.connections[op.conn].control.value)
          && t.connections[op.conn].requests[resp.request.id] == resp.request)
  }

  /** The table has the new entry, and of the old ones it loses none, or when it is full one that has
      settled and expires first. */
  predicate Makes(before: map<Id, Request>, after: map<Id, Request>, entry: Option<Id>) {
    && (entry.Some? ==> entry.value in after)
    && (forall r :: r in after ==> Some(r) == entry || (r in before && after[r] == before[r]))
    && (forall r :: r in before ==> r in after || (|before| >= 64 && Oldest(before, r)))
    && (forall r, q :: r in before && q in before && r !in after && q !in after ==> r == q)
  }

  /** A command of the connection's present control in that state. */
  predicate MayMove(p: Reg, conn: Id, req: Id, status: Status)
    requires conn in p.connections
  {
    var c := p.connections[conn];
    && req in c.requests && c.requests[req].command.Some? && c.requests[req].status == status
    && c.control.Some? && c.control.value.id == c.requests[req].controlId
  }

  ghost predicate StartMeans(p: Reg, op: Op, t: Reg, resp: Response)
    requires op.StartCommand?
  {
    && (resp == Unauthorized <==> !Bridge(p, op.conn, op.bearer))
    && (resp == Conflict <==> Bridge(p, op.conn, op.bearer) && !MayMove(p, op.conn, op.req, Pending))
    && (resp.Started? <==> Bridge(p, op.conn, op.bearer) && MayMove(p, op.conn, op.req, Pending))
    && (!resp.Started? ==> t == p)
    && (resp.Started? ==> OnlyAt(p, t, op.conn))
    && (resp.Started? ==>
          var c, d := p.connections[op.conn], t.connections[op.conn];
          && SameButWork(c, d) && d.control == c.control
          && d.requests == c.requests[op.req := resp.request]
          && resp.request.status == Running && resp.request.(status := Pending) == c.requests[op.req])
  }

  /** Bytes of results that all requests but `req` of `conn` keep. */
  ghost function Elsewhere(t: Reg, conn: Id, req: Id): nat
    requires conn in t.connections
  {
    Retained(t.connections - {conn}) + Bytes(t.connections[conn].requests - {req})
  }

  /** The record of a command that was answered. A result is kept when it fits beside what the others
      still hold; a command is completed exactly when there is no error to show. */
  ghost predicate IsAnswered(t: Reg, op: Op, q: Request)
    requires op.PostResult? && op.conn in t.connections
  {
    var fits := Elsewhere(t, op.conn, op.req) + |op.result| <= 16 * 1024 * 1024;
    && (q.status == Completed || q.status == Failed)
    && (q.status == Completed <==> q.error == NoError)
    && q.result == (if fits then op.result else "")
    && (op.error != "" ==> q.error == Reported(op.error))
    && (op.error == "" && fits ==> q.error == NoError)
    && (op.error == "" && !fits ==> q.error == ResultDropped)
  }

  /** What stays of the command itself. */
  predicate SameCommand(q: Request, d: Request) {
    && d.id == q.id && d.connectionId == q.connectionId && d.reason == q.reason && d.expires == q.expires
    && d.controlId == q.controlId && d.snapshot == q.snapshot
    && q.command.Some? && d.command.Some?
    && d.command.value == Command(q.command.value.action, "", "", "", q.command.value.key)
  }

  ghost predicate PostResultMeans(s: Reg, p: Reg, op: Op, t: Reg, resp: Response)
    requires op.PostResult?
  {
    var short := |op.error| <= 1000;
    && (resp == BadRequest <==> !short)
    && (resp == Unauthorized <==> short && !Bridge(p, op.conn, op.bearer))
    && (resp == Conflict <==> short && Bridge(p, op.conn, op.bearer) && !MayMove(p, op.conn, op.req, Running))
    && (resp == ResultAccepted <==> short && Bridge(p, op.conn, op.bearer) && MayMove(p, op.conn, op.req, Running))
    && (!short ==> t == s)
    && (short && resp != ResultAccepted ==> t == p)
    && (resp == ResultAccepted ==> OnlyAt(p, t, op.conn))
    && (resp == ResultAccepted ==>
          var c, d := p.connections[op.conn], t.connections[op.conn];
          && SameButWork(c, d) && d.control == c.control
          && d.requests.Keys == c.requests.Keys
          && SameCommand(c.requests[op.req], d.requests[op.req]) && IsAnswered(t, op, d.requests[op.req])
          && forall r :: r in c.requests && r != op.req ==>
               || d.requests[r] == c.requests[r]
               || (c.requests[r].result != "" && d.requests[r] == c.requests[r].(result := "", error := ResultEvicted)))
  }

  ghost predicate PollMeans(p: Reg, later: Time, op: Op, t: Reg, resp: Response)
    requires op.Poll?
  {
    && (resp == Unauthorized <==> !Bridge(p, op.conn, op.bearer))
    && (resp == Unauthorized ==> t == p)
    && (resp != Unauthorized ==> OnlyAt(p, t, op.conn))
    && (resp != Unauthorized ==>
          var c, d := p.connections[op.conn], t.connections[op.conn];
          && d.lastSeen == later && d.(lastSeen := c.lastSeen) == c
          && resp.Polled? && resp.control == c.control
          && (forall r :: r in resp.pending <==> r in c.requests && c.requests[r].status == Pending)
          && (forall r :: r in resp.pending ==> resp.pending[r] == c.requests[r]))
  }

  /** Besides the new code the codes of the other owners are left, as they were. */
  predicate OthersAnd(before: map<Id, Pairing>, after: map<Id, Pairing>, owner: string, code: Option<Id>) {
    && (forall c :: c in before && before[c].owner != owner ==> c in after)
    && (forall c :: c in after ==>
          Some(c) == code || (c in before && before[c].owner != owner && after[c] == before[c]))
  }

  ghost predicate CreatePairingMeans(s: Reg, p: Reg, later: Time, op: Op, t: Reg, resp: Response)
    requires op.CreatePairing?
  {
    && (resp == Unauthorized <==> op.owner == "")
    && (resp == ServerError <==> op.owner != "" && op.nonce.None?)
    && (resp == Unauthorized || resp == ServerError ==> t == s)
    && (op.owner != "" && op.nonce.Some? ==> t.connections == p.connections && (resp == TooMany || resp.PairingCode?))
    && (resp == TooMany ==> OthersAnd(p.pairings, t.pairings, op.owner, None) && |t.pairings| >= 128)
    && (resp.PairingCode? ==>
          && Some(resp.code) == op.nonce && resp.code in t.pairings
          && OthersAnd(p.pairings, t.pairings, op.owner, op.nonce)
          && t.pairings[resp.code] == Pairing(op.owner, later + 300)
          && |t.pairings - {resp.code}| < 128)
  }

  ghost predicate ClaimMeans(s: Reg, p: Reg, later: Time, op: Op, t: Reg, resp: Response)
    requires op.Claim?
  {
    var named := 0 < |op.name| <= 80;
    && (resp == BadRequest <==> !named)
    && (resp == ServerError <==> named && op.nonce.None?)
    && (resp == Unauthorized <==> named && op.nonce.Some? && op.code !in p.pairings)
    && (resp == BadRequest || resp == ServerError ==> t == s)
    && (resp == Unauthorized || resp == TooMany ==> t == p)
    && (named && op.nonce.Some? && op.code in p.pairings ==>
          var owner := p.pairings[op.code].owner;
          && (resp == TooMany <==> |p.connections| >= 128 || |OwnedBy(p.connections, owner)| >= 8)
          && (resp.Claimed? <==> |p.connections| < 128 && |OwnedBy(p.connections, owner)| < 8)
          && (resp.Claimed? ==>
                && Some(resp.id) == op.nonce && resp.token == op.token
                && t.pairings == p.pairings - {op.code}
                && OnlyAt(p.(pairings := t.pairings), t, resp.id)
                && IsClaimed(t.connections[resp.id], resp.id, op, owner, later)))
  }

  /** A new connection: for the owner of the code, with that name and token, and nothing in it. */
  predicate IsClaimed(c: Connection, id: Id, op: Op, owner: string, later: Time)
    requires op.Claim?
  {
    && c.id == id && c.name == op.name && c.owner == owner && c.token == op.token
    && c.lastSeen == later && c.expires.None? && c.requests == map[] && c.control.None?
  }

  ghost predicate RevokeMeans(before: Reg, known: bool, conn: Id, t: Reg, resp: Response) {
    && (resp == Done <==> known)
    && (resp == Done ==> conn in before.connections && conn !in t.connections)
    && (forall k :: k in before.connections && (k != conn || resp != Done) ==>
          k in t.connections && t.connections[k] == before.connections[k])
    && t.connections.Keys <= before.connections.Keys && t.pairings == before.pairings
  }

  /** A new snapshot request, in the words of who asked for it. */
  predicate IsNewSnapshot(q: Request, op: Op, later: Time)
    requires op.AskSnapshot?
  {
    && Some(q.id) == op.nonce && q.connectionId == op.conn && q.reason == op.reason
    && q.status == Pending && q.expires == later + 120
    && q.command.None? && q.controlId == "" && q.snapshot.None? && q.result == "" && q.error == NoError
  }

  ghost predicate AskSnapshotMeans(s: Reg, p: Reg, later: Time, op: Op, t: Reg, resp: Response)
    requires op.AskSnapshot?
  {
    var valid := op.owner != "" && 0 < |op.reason| <= 300;
    var known := valid && op.nonce.Some? && Owns(p, op.conn, op.owner);
    && (resp == Unauthorized <==> op.owner == "")
    && (resp == BadRequest <==> op.owner != "" && !valid)
    && (resp == ServerError <==> valid && op.nonce.None?)
    && (resp == NotFound <==> valid && op.nonce.Some? && !known)
    && (resp == TooMany <==> known && |p.connections[op.conn].requests| >= 8)
    && (resp.Accepted? <==> known && |p.connections[op.conn].requests| < 8)
    && (!valid || op.nonce.None? ==> t == s)
    && (resp == NotFound || resp == TooMany ==> t == p)
    && (resp.Accepted? ==> OnlyAt(p, t, op.conn))
    && (resp.Accepted? ==>
          var c, d := p.connections[op.conn], t.connections[op.conn];
          && SameButWork(c, d) && d.control == c.control
          && d.requests == c.requests[resp.request.id := resp.request] && IsNewSnapshot(resp.request, op, later))
  }

  ghost predicate AnswerSnapshotMeans(s: Reg, p: Reg, op: Op, t: Reg, resp: Response)
    requires op.AnswerSnapshot?
  {
    var lacking := op.approved && op.snapshot.None?;
    var known := !lacking && Bridge(p, op.conn, op.bearer);
    var asked := known && op.req in p.connections[op.conn].requests
      && p.connections[op.conn].requests[op.req].command.None?
      && p.connections[op.conn].requests[op.req].status == Pending;
    && (resp == BadRequest <==> lacking)
    && (resp == Unauthorized <==> !lacking && !known)
    && (resp == Conflict <==> known && !asked)
    && (resp == Done <==> asked)
    && (lacking ==> t == s)
    && (resp == Unauthorized || resp == Conflict ==> t == p)
    && (resp == Done ==> OnlyAt(p, t, op.conn) && op.req in t.connections[op.conn].requests)
    && (resp == Done ==>
          var c, d := p.connections[op.conn], t.connections[op.conn];
          var q := d.requests[op.req];
          && SameButWork(c, d) && d.control == c.control
          && d.requests - {op.req} == c.requests - {op.req}
          && (q.status == Approved <==> op.approved) && (q.status == Denied <==> !op.approved)
          && q.snapshot == (if op.approved then op.snapshot else c.requests[op.req].snapshot)
          && q.(status := Pending, snapshot := c.requests[op.req].snapshot) == c.requests[op.req])
  }

  ghost predicate LookupMeans(p: Reg, op: Op, t: Reg, resp: Response)
    requires op.Lookup?
  {
    && t == p
    && (resp == NotFound <==>
          forall k :: k in p.connections && op.req in p.connections[k].requests ==> p.connections[k].owner != op.owner)
    && (resp != NotFound ==>
          && resp.Found? && resp.request.id == op.req
          && exists k :: k in p.connections && p.connections[k].owner == op.owner
               && op.req in p.connections[k].requests && p.connections[k].requests[op.req] == resp.request)
  }

  /** What a reply means, with `p` the registry as pruning left it. */
  ghost predicate Means(s: Reg, now: Time, later: Time, op: Op, t: Reg, resp: Response) {
    var p := Prune(s, now);
    match op
    case SetControl(_, _, _, _, _, _) => SetControlMeans(p, op, t, resp)
    case StopByOwner(_, _) => StopByOwnerMeans(s, op, t, resp)
    case CreateCommand(_, _, _, _, _) => CreateCommandMeans(s, p, later, op, t, resp)
    case StartCommand(_, _, _) => StartMeans(p, op, t, resp)
    case PostResult(_, _, _, _, _) => PostResultMeans(s, p, op, t, resp)
    case Poll(_, _) => PollMeans(p, later, op, t, resp)
    case CreatePairing(_, _) => CreatePairingMeans(s, p, later, op, t, resp)
    case Claim(_, _, _, _) => ClaimMeans(s, p, later, op, t, resp)
    case RevokeByOwner(conn, owner) => RevokeMeans(s, owner != "" && Owns(s, conn, owner), conn, t, resp)
    case RevokeByBridge(conn, bearer) => RevokeMeans(p, Bridge(p, conn, bearer), conn, t, resp)
    case AskSnapshot(_, _, _, _) => AskSnapshotMeans(s, p, later, op, t, resp)
    case AnswerSnapshot(_, _, _, _, _) => AnswerSnapshotMeans(s, p, op, t, resp)
    case ListConnections(owner) =>
      if owner == "" then t == s && resp == Unauthorized
      else
        && t == p && resp.Listed?
        && forall k :: k in resp.ids <==> k in p.connections && p.connections[k].owner == owner
    case Lookup(_, _) => LookupMeans(p, op, t, resp)
  }

  // ---------------------------------------------------------------- proofs

  lemma PutOnly(p: Reg, c: Connection)
    ensures OnlyAt(p, Put(p, c), c.id) && Put(p, c).connections[c.id] == c && Put(p, c).pairings == p.pairings
  {
  }

  /** What the invariant says of names. */
  lemma Named(p: Reg, k: Id)
    requires Inv(p) && k in p.connections
    ensures p.connections[k].id == k && ConnectionInv(k, p.connections[k])
    ensures forall r :: r in p.connections[k].requests ==> p.connections[k].requests[r].id == r
  {
    hide Retained, Census;
    assert ConnectionInv(k, p.connections[k]);
    hide ConnectionInv;
    ConnectionNames(k, p.connections[k]);
  }

  lemma ConnectionNames(k: Id, c: Connection)
    requires ConnectionInv(k, c)
    ensures c.id == k && forall r :: r in c.requests ==> c.requests[r].id == r && Lifecycle(c.requests[r])
  {
    hide OneActive, Quotas, Lifecycle;
  }

  lemma StopsAll(k: Id, c: Connection)
    requires ConnectionInv(k, c)
    ensures AllStopped(c, StopControl(c)) && StopControl(c).control.None?
  {
    hide ConnectionInv, StopControl, Active, Stopped, AnyActive;
    StopSettles(k, c);
  }

  lemma SetControlSays(p: Reg, now: Time, s: Reg, op: Op)
    requires p == Prune(s, now) && Inv(p) && op.SetControl?
    ensures SetControlMeans(p, op, SetControlStep(s, now, op).0, SetControlStep(s, now, op).1)
  {
    hide Prune, Inv, StopControl, HttpOrigin, Active, Stopped, ConnectionInv;
    if Bridge(p, op.conn, op.bearer) {
      Named(p, op.conn);
      StopsAll(op.conn, p.connections[op.conn]);
    }
  }

  lemma StopByOwnerSays(s: Reg, op: Op)
    requires Inv(s) && op.StopByOwner?
    ensures StopByOwnerMeans(s, op, StopByOwnerStep(s, op).0, StopByOwnerStep(s, op).1)
  {
    hide Inv, StopControl, Active, Stopped, ConnectionInv;
    if Owns(s, op.conn, op.owner) {
      Named(s, op.conn);
      StopsAll(op.conn, s.connections[op.conn]);
    }
  }

  lemma CreateCommandSays(s: Reg, now: Time, p: Reg, later: Time, op: Op, t: Reg, resp: Response)
    requires p == Prune(s, now) && Inv(p) && op.CreateCommand? && CreateCommandNext(s, now, later, op, t, resp)
    requires resp != HistoryFull && forall n :: n in Nonce(op) ==> FreshFor(p, n)
    ensures CreateCommandMeans(s, p, later, op, t, resp)
  {
    hide Prune, Inv, ValidCommand, Active, ConnectionInv, Oldest, Terminal, Trimmed, Makes, FreshFor, NewCommand;
    hide OnlyAt, Put, IsNewCommand;
    if Owns(p, op.conn, op.owner) {
      Named(p, op.conn);
      var c := p.connections[op.conn];
      if resp == ServerError || resp.Accepted? {
        var reqs :| Trimmed(c.requests, reqs) &&
          if op.nonce.None? then t == Put(p, c.(requests := reqs))
          else t == PutRequest(p, c.(requests := reqs), NewCommand(op, c, later));
        TrimmedMakes(c.requests, reqs);
        PutOnly(p, c.(requests := reqs));
        if op.nonce.Some? {
          var q := NewCommand(op, c, later);
          PutOnly(p, c.(requests := reqs[q.id := q]));
          assert t == Put(p, c.(requests := reqs[q.id := q]));
          FreshHere(p, op.conn, op.nonce.value);
          NewCommandIs(op, c, later);
          NewIdIs(op, c, later);
          EnteredMakes(c.requests, reqs, q);
        }
      }
    }
  }

  lemma FreshHere(p: Reg, conn: Id, n: Id)
    requires FreshFor(p, n) && conn in p.connections
    ensures n !in p.connections[conn].requests
  {
  }

  lemma NewCommandIs(op: Op, c: Connection, later: Time)
    requires op.CreateCommand? && op.nonce.Some? && c.control.Some? && c.id == op.conn
    ensures IsNewCommand(NewCommand(op, c, later), op, later, c.control.value)
  {
  }

  lemma NewIdIs(op: Op, c: Connection, later: Time)
    requires op.CreateCommand? && op.nonce.Some? && c.control.Some?
    ensures NewCommand(op, c, later).id == op.nonce.value
  {
  }

  lemma TrimmedMakes(before: map<Id, Request>, after: map<Id, Request>)
    requires Trimmed(before, after)
    ensures Makes(before, after, None)
  {
    hide Oldest;
    if |before| >= HISTORY_LIMIT {
      var victim :| Oldest(before, victim) && after == before - {victim};
    }
  }

  lemma EnteredMakes(before: map<Id, Request>, after: map<Id, Request>, q: Request)
    requires Makes(before, after, None) && q.id !in before
    ensures Makes(before, after[q.id := q], Some(q.id))
  {
    hide Oldest;
  }

  lemma StartSays(s: Reg, now: Time, p: Reg, op: Op)
    requires p == Prune(s, now) && Inv(p) && op.StartCommand?
    ensures StartMeans(p, op, StartStep(s, now, op).0, StartStep(s, now, op).1)
  {
    hide Prune, Inv, ConnectionInv;
    if Bridge(p, op.conn, op.bearer) { Named(p, op.conn); }
  }

  lemma PollSays(s: Reg, now: Time, p: Reg, later: Time, op: Op)
    requires p == Prune(s, now) && Inv(p) && op.Poll?
    ensures PollMeans(p, later, op, PollStep(s, now, later, op).0, PollStep(s, now, later, op).1)
  {
    hide Prune, Inv, ConnectionInv;
    if Bridge(p, op.conn, op.bearer) { Named(p, op.conn); }
  }

  lemma CreatePairingSays(s: Reg, now: Time, p: Reg, later: Time, op: Op)
    requires p == Prune(s, now) && op.CreatePairing?
    ensures var (t, resp) := CreatePairingStep(s, now, later, op); CreatePairingMeans(s, p, later, op, t, resp)
  {
    hide Prune, OthersAnd;
    var others := map c | c in p.pairings && p.pairings[c].owner != op.owner :: p.pairings[c];
    OthersOnly(p.pairings, others, op.owner);
    if op.nonce.Some? {
      FewerThan(others, op.nonce.value, Pairing(op.owner, later + 5 * MINUTE));
      OneMoreCode(p.pairings, others, op.owner, op.nonce.value, Pairing(op.owner, later + 5 * MINUTE));
    }
  }

  lemma OthersOnly(before: map<Id, Pairing>, others: map<Id, Pairing>, owner: string)
    requires others == map c | c in before && before[c].owner != owner :: before[c]
    ensures OthersAnd(before, others, owner, None)
  {
  }

  lemma OneMoreCode(before: map<Id, Pairing>, others: map<Id, Pairing>, owner: string, code: Id, entry: Pairing)
    requires OthersAnd(before, others, owner, None)
    ensures OthersAnd(before, others[code := entry], owner, Some(code))
  {
  }

  lemma FewerThan(others: map<Id, Pairing>, code: Id, entry: Pairing)
    ensures |others[code := entry] - {code}| <= |others|
  {
    var rest := others[code := entry] - {code};
    assert rest.Keys == others.Keys - {code};
    assert |rest| == |rest.Keys| && |others| == |others.Keys|;
    KeysLe(rest.Keys, others.Keys);
  }

  lemma KeysLe(a: set<Id>, b: set<Id>)
    requires a <= b
    ensures |a| <= |b|
  {
    assert b == a + (b - a) && a !! (b - a);
  }

  lemma ClaimSays(s: Reg, now: Time, p: Reg, later: Time, op: Op)
    requires p == Prune(s, now) && op.Claim?
    ensures ClaimMeans(s, p, later, op, ClaimStep(s, now, later, op).0, ClaimStep(s, now, later, op).1)
  {
    hide Prune, OwnedBy, OnlyAt, Put, IsClaimed;
    if op.nonce.Some? && op.code in p.pairings {
      var c := Connection(op.nonce.value, op.name, p.pairings[op.code].owner, op.token, later, None, map[], None);
      PutOnly(p.(pairings := p.pairings - {op.code}), c);
      ClaimedIs(op, c, p.pairings[op.code].owner, later);
    }
  }

  lemma ClaimedIs(op: Op, c: Connection, owner: string, later: Time)
    requires op.Claim? && c == Connection(c.id, op.name, owner, op.token, later, None, map[], None)
    ensures IsClaimed(c, c.id, op, owner, later)
  {
  }

  lemma RevokeSays(s: Reg, now: Time, later: Time, op: Op, t: Reg, resp: Response)
    requires (op.RevokeByOwner? || op.RevokeByBridge?) && Next(s, now, later, op, t, resp)
    ensures Means(s, now, later, op, t, resp)
  {
    hide Prune;
  }

  lemma AskSnapshotSays(s: Reg, now: Time, p: Reg, later: Time, op: Op)
    requires p == Prune(s, now) && Inv(p) && op.AskSnapshot?
    ensures var (t, resp) := AskSnapshotStep(s, now, later, op); AskSnapshotMeans(s, p, later, op, t, resp)
  {
    hide Prune, Inv, ConnectionInv;
    if Owns(p, op.conn, op.owner) { Named(p, op.conn); }
  }

  lemma AnswerSnapshotSays(s: Reg, now: Time, p: Reg, op: Op)
    requires p == Prune(s, now) && Inv(p) && op.AnswerSnapshot?
    ensures AnswerSnapshotMeans(s, p, op, AnswerSnapshotStep(s, now, op).0, AnswerSnapshotStep(s, now, op).1)
  {
    hide Prune, Inv, ConnectionInv;
    if Bridge(p, op.conn, op.bearer) { Named(p, op.conn); }
  }

  lemma LookupSays(s: Reg, now: Time, p: Reg, op: Op, t: Reg, resp: Response)
    requires p == Prune(s, now) && Inv(p) && op.Lookup? && LookupNext(s, now, op, t, resp)
    ensures LookupMeans(p, op, t, resp)
  {
    hide Prune, Inv, ConnectionInv;
    if k :| Owns(p, k, op.owner) && op.req in p.connections[k].requests {
      var j :| Owns(p, j, op.owner) && op.req in p.connections[j].requests
        && resp == Found(p.connections[j].requests[op.req]);
      Named(p, j);
    }
  }

  // ---------------------------------------------------------------- the result

  /** The bytes the others keep are those after the eviction: the answered command has none of its own. */
  lemma OthersKeep(p: Reg, t: Reg, conn: Id, req: Id, after: map<Id, Request>, q: Request)
    requires conn in p.connections && req in after && |after[req].result| == 0
    requires t.connections - {conn} == p.connections - {conn} && conn in t.connections
    requires t.connections[conn].requests == after[req := q]
    ensures Elsewhere(t, conn, req) == Retained(p.connections - {conn}) + Bytes(after)
  {
    hide Retained, Sum;
    SumRemove(Sizes(after), req);
    assert Sizes(after) - {req} == Sizes(t.connections[conn].requests - {req});
  }

  lemma FinishedIs(q: Request, fits: bool, result: string, error: string)
    ensures var d := Finished(q, fits, result, error);
      && (d.status == Completed || d.status == Failed) && (d.status == Completed <==> d.error == NoError)
      && d.result == (if fits then result else "")
      && (error != "" ==> d.error == Reported(error))
      && (error == "" ==> d.error == if fits then NoError else ResultDropped)
      && d.(status := q.status, result := q.result, error := q.error) == q
  {
  }

  lemma PostResultSays(s: Reg, now: Time, p: Reg, op: Op, t: Reg, resp: Response)
    requires p == Prune(s, now) && Inv(p) && op.PostResult? && PostResultNext(s, now, op, t, resp)
    ensures PostResultMeans(s, p, op, t, resp)
  {
    hide Prune, Inv, ConnectionInv, Retained, Bytes, MadeRoom, ClearInput, Finished, IsAnswered, SameCommand;
    if Bridge(p, op.conn, op.bearer) { Named(p, op.conn); }
    if resp == ResultAccepted {
      var c := p.connections[op.conn];
      var before := c.requests[op.req := ClearInput(c.requests[op.req].(status := Completed))];
      var after :| MadeRoom(before, after, Retained(p.connections - {op.conn}), |op.result|) && op.req in after &&
        var fits := Retained(p.connections - {op.conn}) + Bytes(after) + |op.result| <= RETAINED_LIMIT;
        t == Put(p, c.(requests := after[op.req := Finished(after[op.req], fits, op.result, op.error)]));
      AnsweredSays(p, op, t, c, after);
    }
  }

  lemma AnsweredSays(p: Reg, op: Op, t: Reg, c: Connection, after: map<Id, Request>)
    requires op.PostResult? && op.conn in p.connections && c == p.connections[op.conn] && c.id == op.conn
    requires ConnectionInv(op.conn, c) && Authorized(c, op.req, Running)
    requires MadeRoom(c.requests[op.req := ClearInput(c.requests[op.req].(status := Completed))], after,
                      Retained(p.connections - {op.conn}), |op.result|)
    requires var fits := Retained(p.connections - {op.conn}) + Bytes(after) + |op.result| <= RETAINED_LIMIT;
      && op.req in after
      && t == Put(p, c.(requests := after[op.req := Finished(after[op.req], fits, op.result, op.error)]))
    ensures var d := t.connections[op.conn];
      && d.requests.Keys == c.requests.Keys
      && SameCommand(c.requests[op.req], d.requests[op.req]) && IsAnswered(t, op, d.requests[op.req])
      && forall r :: r in c.requests && r != op.req ==>
           || d.requests[r] == c.requests[r]
           || (c.requests[r].result != "" && d.requests[r] == c.requests[r].(result := "", error := ResultEvicted))
  {
    hide ConnectionInv, Retained, Bytes, Finished, ClearInput, MadeRoom, Elsewhere;
    var q := c.requests[op.req];
    RunningHasNoResult(op.conn, c, op.req);
    var others := Retained(p.connections - {op.conn});
    var fits := others + Bytes(after) + |op.result| <= RETAINED_LIMIT;
    ClearedIs(q);
    RoomLeaves(c.requests, op.req, ClearInput(q.(status := Completed)), after, others, |op.result|);
    FinishedIs(after[op.req], fits, op.result, op.error);
    OthersKeep(p, t, op.conn, op.req, after, Finished(after[op.req], fits, op.result, op.error));
  }

  lemma ClearedIs(q: Request)
    requires q.command.Some?
    ensures var d := ClearInput(q.(status := Completed));
      && SameCommand(q, d) && d.status == Completed && d.result == q.result
  {
  }

  /** Making room leaves the answered command alone, which has no result yet. */
  lemma RoomLeaves(reqs: map<Id, Request>, req: Id, done: Request, after: map<Id, Request>, others: nat, size: nat)
    requires req in reqs && done.result == "" && MadeRoom(reqs[req := done], after, others, size)
    ensures after.Keys == reqs.Keys && after[req] == done
    ensures forall r :: r in reqs && r != req ==>
      || after[r] == reqs[r]
      || (reqs[r].result != "" && after[r] == reqs[r].(result := "", error := ResultEvicted))
  {
    hide Bytes;
  }

  lemma RunningHasNoResult(k: Id, c: Connection, req: Id)
    requires ConnectionInv(k, c) && Authorized(c, req, Running)
    ensures c.requests[req].result == ""
  {
    hide OneActive, Quotas;
  }

  /** Every reply of every handler means what it says. */
  lemma NextMeans(s: Reg, now: Time, later: Time, op: Op, t: Reg, resp: Response)
    requires Inv(s) && Next(s, now, later, op, t, resp)
    requires forall n :: n in Nonce(op) ==> FreshFor(s, n)
    ensures Means(s, now, later, op, t, resp)
  {
    hide Inv, Prune, FreshFor;
    PruneInv(s, now);
    var p := Prune(s, now);
    forall n | n in Nonce(op) ensures FreshFor(p, n) { FreshAfterPrune(s, now, n); }
    HistoryNeverFull(s, now, later, op, t, resp);
    hide SetControlMeans, StopByOwnerMeans, CreateCommandMeans, StartMeans, PostResultMeans, PollMeans, RevokeMeans,
      CreatePairingMeans, ClaimMeans, AskSnapshotMeans, AnswerSnapshotMeans, LookupMeans, SetControlStep,
      StopByOwnerStep, CreateCommandNext, StartStep, PostResultNext, PollStep, CreatePairingStep, ClaimStep,
      AskSnapshotStep, AnswerSnapshotStep, LookupNext;
    match op {
      case SetControl(_, _, _, _, _, _) => SetControlSays(p, now, s, op);
      case StopByOwner(_, _) => StopByOwnerSays(s, op);
      case CreateCommand(_, _, _, _, _) => CreateCommandSays(s, now, p, later, op, t, resp);
      case StartCommand(_, _, _) => StartSays(s, now, p, op);
      case PostResult(_, _, _, _, _) => PostResultSays(s, now, p, op, t, resp);
      case Poll(_, _) => PollSays(s, now, p, later, op);
      case CreatePairing(_, _) => CreatePairingSays(s, now, p, later, op);
      case Claim(_, _, _, _) => ClaimSays(s, now, p, later, op);
      case RevokeByOwner(_, _) => RevokeSays(s, now, later, op, t, resp);
      case RevokeByBridge(_, _) => RevokeSays(s, now, later, op, t, resp);
      case AskSnapshot(_, _, _, _) => AskSnapshotSays(s, now, p, later, op);
      case AnswerSnapshot(_, _, _, _, _) => AnswerSnapshotSays(s, now, p, op);
      case ListConnections(_) =>
      case Lookup(_, _) => LookupSays(s, now, p, op, t, resp);
    }
  }
}
