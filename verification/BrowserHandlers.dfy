/** The registry as the server keeps it: two maps updated in place by the HTTP handlers, each
    running under the registry's mutex. Every handler is proved to take one step of
    BrowserRegistry.Next, loops and early returns included. Go's map iteration order is
    arbitrary, so the loops here pick keys with an arbitrary choice. */
module BrowserHandlers {
  import opened Prelude
  import opened BrowserRegistry
  import BrowserInvariants
  import Runs = BrowserRuns
  import Replies = BrowserReplies

  /** The settled request that expires first, if any request has settled. */
  method OldestSettled(reqs: map<Id, Request>) returns (oldest: Option<Id>)
    ensures oldest.None? ==> forall r :: r in reqs ==> !Terminal(reqs[r].status)
    ensures oldest.Some? ==> Oldest(reqs, oldest.value)
  {
    oldest := None;
    var todo := reqs.Keys;
    while todo != {}
      invariant todo <= reqs.Keys
      invariant oldest.None? ==> forall r :: r in reqs && r !in todo ==> !Terminal(reqs[r].status)
      invariant oldest.Some? ==> oldest.value in reqs && Terminal(reqs[oldest.value].status)
      invariant oldest.Some? ==> forall r :: r in reqs && r !in todo && Terminal(reqs[r].status) ==>
        reqs[oldest.value].expires <= reqs[r].expires
      decreases |todo|
    {
      var r :| r in todo;
      todo := todo - {r};
      if reqs[r].status != Pending && reqs[r].status != Running
        && (oldest.None? || reqs[r].expires < reqs[oldest.value].expires) {
        oldest := Some(r);
      }
    }
  }

  /** The request with a result that expires first, if any has one. */
  method OldestWithResult(reqs: map<Id, Request>) returns (oldest: Option<Id>)
    ensures oldest.None? ==> forall r :: r in reqs ==> reqs[r].result == ""
    ensures oldest.Some? ==> oldest.value in reqs && reqs[oldest.value].result != ""
    ensures oldest.Some? ==> forall r :: r in reqs && reqs[r].result != "" ==>
      reqs[oldest.value].expires <= reqs[r].expires
  {
    oldest := None;
    var todo := reqs.Keys;
    while todo != {}
      invariant todo <= reqs.Keys
      invariant oldest.None? ==> forall r :: r in reqs && r !in todo ==> reqs[r].result == ""
      invariant oldest.Some? ==> oldest.value in reqs && reqs[oldest.value].result != ""
      invariant oldest.Some? ==> forall r :: r in reqs && r !in todo && reqs[r].result != "" ==>
        reqs[oldest.value].expires <= reqs[r].expires
      decreases |todo|
    {
      var r :| r in todo;
      todo := todo - {r};
      if |reqs[r].result| > 0 && (oldest.None? || reqs[r].expires < reqs[oldest.value].expires) {
        oldest := Some(r);
      }
    }
  }

  lemma EvictOne(before: map<Id, Request>, after: map<Id, Request>, x: Id)
    requires OnlyEvicts(before, after) && x in after && after[x].result != ""
    ensures var next := after[x := after[x].(result := "", error := ResultEvicted)];
            && OnlyEvicts(before, next)
            && Evicted(before, next) == Evicted(before, after) + {x}
            && Bytes(next) + |after[x].result| == Bytes(after)
  {
    hide Sum;
    var next := after[x := after[x].(result := "", error := ResultEvicted)];
    SumUpdate(Sizes(after), x, 0);
    assert Sizes(next) == Sizes(after)[x := 0];
    assert after[x] == before[x];
  }

  /** The eviction loop of the result handler. `retained` is what all connections keep now. */
  method MakeRoom(before: map<Id, Request>, total: nat, ghost others: nat, size: nat)
    returns (after: map<Id, Request>, fits: bool)
    requires total == others + Bytes(before)
    ensures MadeRoom(before, after, others, size)
    ensures fits == (others + Bytes(after) + size <= RETAINED_LIMIT)
  {
    hide Bytes, Sum;
    var retained := total;
    after := before;
    fits := true;
    assert Evicted(before, after) == {};
    while retained + size > RETAINED_LIMIT
      invariant fits
      invariant retained == others + Bytes(after)
      invariant OnlyEvicts(before, after)
      invariant forall e, k :: e in Evicted(before, after) && k in after && after[k].result != "" ==>
        before[e].expires <= before[k].expires
      invariant Evicted(before, after) != {} ==>
        exists last :: last in Evicted(before, after) &&
          (forall e :: e in Evicted(before, after) ==> before[e].expires <= before[last].expires) &&
          others + Bytes(after) + |before[last].result| + size > RETAINED_LIMIT
      decreases retained
    {
      var oldest := OldestWithResult(after);
      if oldest.None? {
        fits := false;
        break;
      }
      var x := oldest.value;
      EvictOne(before, after, x);
      assert after[x] == before[x];
      retained := retained - |after[x].result|;
      after := after[x := after[x].(result := "", error := ResultEvicted)];
    }
  }

  /** Bytes of results among the requests of one connection. */
  method CountBytes(reqs: map<Id, Request>) returns (n: nat)
    ensures n == Bytes(reqs)
  {
    hide Sum;
    n := 0;
    var todo := reqs.Keys;
    ghost var seen: map<Id, nat> := map[];
    SumZero(seen);
    while todo != {}
      invariant todo <= reqs.Keys
      invariant seen == map r | r in reqs && r !in todo :: |reqs[r].result|
      invariant n == Sum(seen)
      decreases |todo|
    {
      var r :| r in todo;
      todo := todo - {r};
      n := n + |reqs[r].result|;
      SumUpdate(seen, r, |reqs[r].result|);
      seen := seen[r := |reqs[r].result|];
    }
    assert seen == Sizes(reqs);
  }

  ghost predicate KeyedRequests(c: Connection) {
    forall r :: r in c.requests ==> c.requests[r].id == r
  }

  /** Keys and records agree; every handler keeps this. */
  ghost predicate Keyed(s: Reg) {
    forall k :: k in s.connections ==> s.connections[k].id == k && KeyedRequests(s.connections[k])
  }

  lemma PruneKeyed(s: Reg, now: Time)
    requires Keyed(s)
    ensures Keyed(Prune(s, now))
  {
  }

  lemma StopKeyed(c: Connection)
    requires KeyedRequests(c)
    ensures KeyedRequests(StopControl(c))
  {
  }

  lemma ResultKeyed(c: Connection, req: Id, after: map<Id, Request>, others: nat, size: nat)
    requires KeyedRequests(c) && req in c.requests
    requires MadeRoom(c.requests[req := ClearInput(c.requests[req].(status := Completed))], after, others, size)
    ensures req in after && after[req].status == Completed
    ensures forall q: Request :: q.id == after[req].id ==> KeyedRequests(c.(requests := after[req := q]))
  {
  }

  lemma StoppedAs(p: Reg, conn: Id)
    requires Keyed(p) && conn in p.connections
    ensures var stopped := StopControl(p.connections[conn]);
      stopped.id == conn && stopped.control.None? && KeyedRequests(stopped)
  {
    StopKeyed(p.connections[conn]);
  }

  /** What the command handler does to a connection that may take a command. */
  ghost predicate Entered(p: Reg, later: Time, op: Op, t: Reg, resp: Response)
    requires op.CreateCommand? && op.conn in p.connections && p.connections[op.conn].control.Some?
  {
    var c := p.connections[op.conn];
    if |c.requests| >= HISTORY_LIMIT && (forall r :: r in c.requests ==> !Terminal(c.requests[r].status)) then
      t == p && resp == HistoryFull
    else
      exists reqs :: Trimmed(c.requests, reqs) &&
        if op.nonce.None? then t == Put(p, c.(requests := reqs)) && resp == ServerError
        else
          && t == PutRequest(p, c.(requests := reqs), NewCommand(op, c, later))
          && resp == Accepted(NewCommand(op, c, later))
  }

  /** What the result handler does to a connection whose command may be answered. */
  ghost predicate ResultTaken(p: Reg, op: Op, t: Reg)
    requires op.PostResult? && op.conn in p.connections && op.req in p.connections[op.conn].requests
  {
    var c := p.connections[op.conn];
    var before := c.requests[op.req := ClearInput(c.requests[op.req].(status := Completed))];
    var others := Retained(p.connections - {op.conn});
    exists after :: MadeRoom(before, after, others, |op.result|) && op.req in after &&
      var fits := others + Bytes(after) + |op.result| <= RETAINED_LIMIT;
      t == Put(p, c.(requests := after[op.req := Finished(after[op.req], fits, op.result, op.error)]))
  }

  /** A command that was answered is completed exactly when no error is shown, and failed otherwise; the
      extension's error is shown if it sent one, and a result that is not kept is an error. */
  predicate ShowsAnswer(q: Request, op: Op)
    requires op.PostResult?
  {
    && q.status == (if q.error == NoError then Completed else Failed)
    && (op.error != "" ==> q.error == Reported(op.error) && (q.result == op.result || q.result == ""))
    && (op.error == "" ==>
          (q.error == NoError && q.result == op.result) || (q.error == ResultDropped && q.result == ""))
  }

  /** The code's way to the finished record. */
  lemma FinishedShows(q: Request, fits: bool, op: Op, request: Request)
    requires op.PostResult? && q.status == Completed
    requires var shown := if op.error != "" then Reported(op.error) else if !fits then ResultDropped else NoError;
      var told := q.(result := if fits then op.result else "", error := shown);
      request == if shown != NoError then told.(status := Failed) else told
    ensures request == Finished(q, fits, op.result, op.error) && ShowsAnswer(request, op)
  {
  }

  lemma InvKeyed(s: Reg)
    requires BrowserInvariants.Inv(s)
    ensures Keyed(s)
  {
    forall k | k in s.connections ensures s.connections[k].id == k && KeyedRequests(s.connections[k]) {
      assert BrowserInvariants.ConnectionInv(k, s.connections[k]);
    }
  }

  /** Whatever a handler makes of the registry keeps the invariant, its reply means what it says, and it
      never finds a history full. */
  lemma AlwaysKeeps(s: Reg, now: Time, later: Time, op: Op)
    requires BrowserInvariants.Inv(s)
    requires forall n :: n in BrowserInvariants.Nonce(op) ==> BrowserInvariants.FreshFor(s, n)
    ensures Keyed(s)
    ensures forall t, resp :: Next(s, now, later, op, t, resp) ==> BrowserInvariants.Inv(t) && resp != HistoryFull
    ensures forall t, resp :: Next(s, now, later, op, t, resp) ==> Replies.Means(s, now, later, op, t, resp)
  {
    hide BrowserInvariants.Inv, BrowserInvariants.FreshFor, Replies.Means, Next, Keyed;
    InvKeyed(s);
    forall t, resp | Next(s, now, later, op, t, resp)
      ensures BrowserInvariants.Inv(t) && resp != HistoryFull && Replies.Means(s, now, later, op, t, resp)
    {
      Replies.NextMeans(s, now, later, op, t, resp);
      BrowserInvariants.NextKeepsInv(s, now, later, op, t, resp);
      BrowserInvariants.HistoryNeverFull(s, now, later, op, t, resp);
    }
  }

  /** The registry's two maps. Every handler takes its step and keeps the invariant: the lifecycle of
      every request, one active command bound to the present control, the quotas and the byte budget. */
  class BrowserAssistant {
    var pairings: map<Id, Pairing>
    var connections: map<Id, Connection>

    ghost function State(): Reg
      reads this
    {
      Reg(pairings, connections)
    }

    ghost predicate Valid()
      reads this
    {
      BrowserInvariants.Inv(State())
    }

    /** The random generator returned a name that is not in use. */
    ghost predicate Ready(op: Op)
      reads this
    {
      Valid() && forall n :: n in BrowserInvariants.Nonce(op) ==> BrowserInvariants.FreshFor(State(), n)
    }

    constructor ()
      ensures Valid() && State() == Reg(map[], map[])
    {
      pairings, connections := map[], map[];
      new;
      Runs.EmptyInv();
    }

    /** Drops what has run out: pairings, connections with an expiry, requests five minutes after theirs. */
    method PruneAll(now: Time)
      modifies this
      ensures State() == Prune(old(State()), now)
    {
      PrunePairings(now);
      PruneConnections(now);
    }

    method PrunePairings(now: Time)
      modifies this`pairings
      ensures pairings == map p | p in old(pairings) && now < old(pairings)[p].expires :: old(pairings)[p]
    {
      var codes := pairings.Keys;
      while codes != {}
        invariant codes <= pairings.Keys
        invariant pairings == map p | p in old(pairings) && (p in codes || now < old(pairings)[p].expires) ::
          old(pairings)[p]
        decreases |codes|
      {
        var code :| code in codes;
        codes := codes - {code};
        if now >= pairings[code].expires {
          pairings := pairings - {code};
        }
      }
    }

    method PruneConnections(now: Time)
      modifies this`connections
      ensures connections == map k | k in old(connections) && !Lapsed(old(connections)[k], now) ::
        PruneConnection(old(connections)[k], now)
    {
      hide PruneRequests;
      var ids := connections.Keys;
      while ids != {}
        invariant ids <= connections.Keys
        invariant connections == map k | k in old(connections) && (k in ids || !Lapsed(old(connections)[k], now)) ::
          if k in ids then old(connections)[k] else PruneConnection(old(connections)[k], now)
        decreases |ids|
      {
        var id :| id in ids;
        ids := ids - {id};
        if connections[id].expires.Some? && now >= connections[id].expires.value {
          connections := connections - {id};
        } else {
          var kept := PruneLoop(connections[id].requests, now);
          connections := connections[id := connections[id].(requests := kept)];
        }
      }
    }

    static method PruneLoop(reqs: map<Id, Request>, now: Time) returns (kept: map<Id, Request>)
      ensures kept == PruneRequests(reqs, now)
    {
      kept := reqs;
      var todo := reqs.Keys;
      while todo != {}
        invariant todo <= kept.Keys <= reqs.Keys
        invariant kept == map r | r in reqs && (r in todo || now <= reqs[r].expires + 5 * MINUTE) ::
          if r in todo then reqs[r] else ExpireRequest(reqs[r], now)
        decreases |todo|
      {
        var r :| r in todo;
        todo := todo - {r};
        if now >= kept[r].expires {
          kept := kept[r := ClearInput(kept[r].(status := Expired, snapshot := None, result := ""))];
        }
        if now > reqs[r].expires + 5 * MINUTE {
          kept := kept - {r};
        }
      }
    }

    /** stopBrowserControl: forget the control and cancel every command still open. */
    method StopConnection(conn: Id)
      requires conn in connections && Keyed(State())
      modifies this
      ensures Keyed(State())
      ensures State() == Put(old(State()), StopControl(old(connections)[conn]))
    {
      var c := connections[conn].(control := None);
      var todo := c.requests.Keys;
      var reqs := c.requests;
      while todo != {}
        invariant todo <= reqs.Keys
        invariant reqs == map r | r in c.requests :: if r in todo then c.requests[r] else StopRequest(c.requests[r])
        decreases |todo|
      {
        var r :| r in todo;
        todo := todo - {r};
        var q := reqs[r];
        if q.command.Some? && (q.status == Pending || q.status == Running) {
          reqs := reqs[r := ClearInput(q.(status := Cancelled, error := ControlStopped))];
        }
      }
      StopKeyed(connections[conn]);
      assert c.(requests := reqs) == StopControl(connections[conn]);
      connections := connections[conn := c.(requests := reqs)];
    }

    method HandleControl(now: Time, later: Time, conn: Id, bearer: Option<string>, active: bool, origin: string,
        managed: bool, nonce: Option<Id>)
      returns (resp: Response)
      requires Ready(SetControl(conn, bearer, active, origin, managed, nonce))
      modifies this
      ensures Next(old(State()), now, later, SetControl(conn, bearer, active, origin, managed, nonce), State(), resp)
      ensures Replies.Means(old(State()), now, later, SetControl(conn, bearer, active, origin, managed, nonce),
                            State(), resp)
      ensures Valid()
    {
      hide Prune, HttpOrigin, StopControl, ClearInput, ValidCommand, Oldest, BrowserInvariants.Inv,
        BrowserInvariants.FreshFor, Replies.Means;
      AlwaysKeeps(State(), now, later, SetControl(conn, bearer, active, origin, managed, nonce));
      PruneKeyed(State(), now);
      PruneAll(now);
      if !Bridge(Reg(pairings, connections), conn, bearer) {
        return Unauthorized;
      }
      ghost var p := State();
      ghost var stopped := StopControl(connections[conn]);
      StopConnection(conn);
      assert State() == Put(p, stopped) && stopped.id == conn && stopped.control.None? && KeyedRequests(stopped) by {
        StoppedAs(p, conn);
      }
      if active {
        if !HttpOrigin(origin) {
          return BadRequest;
        }
        if nonce.None? {
          return ServerError;
        }
        connections := connections[conn := connections[conn].(control := Some(Control(nonce.value, origin, managed)))];
        assert State() == Put(p, stopped.(control := Some(Control(nonce.value, origin, managed))));
      }
      resp := ControlSet(connections[conn].control);
    }

    method HandleControlStop(now: Time, later: Time, conn: Id, owner: string) returns (resp: Response)
      requires Ready(StopByOwner(conn, owner))
      modifies this
      ensures Next(old(State()), now, later, StopByOwner(conn, owner), State(), resp)
      ensures Replies.Means(old(State()), now, later, StopByOwner(conn, owner), State(), resp)
      ensures Valid()
    {
      hide BrowserInvariants.Inv, BrowserInvariants.FreshFor, Replies.Means;
      AlwaysKeeps(State(), now, later, StopByOwner(conn, owner));
      if owner == "" {
        return Unauthorized;
      }
      if conn !in connections || connections[conn].owner != owner {
        return NotFound;
      }
      StopConnection(conn);
      resp := Done;
    }

    static method SomeActive(reqs: map<Id, Request>) returns (b: bool)
      ensures b == AnyActive(reqs)
    {
      var todo := reqs.Keys;
      while todo != {}
        invariant todo <= reqs.Keys
        invariant forall r :: r in reqs && r !in todo ==> !Active(reqs[r])
        decreases |todo|
      {
        var r :| r in todo;
        todo := todo - {r};
        if reqs[r].command.Some? && (reqs[r].status == Pending || reqs[r].status == Running) {
          return true;
        }
      }
      b := false;
    }

    /** Makes room in a full history by dropping the oldest settled request; false when none has settled. */
    method TrimHistory(conn: Id) returns (room: bool)
      requires conn in connections && connections[conn].id == conn
      modifies `connections
      ensures var c := old(connections[conn]);
        room <==> !(|c.requests| >= HISTORY_LIMIT && forall r :: r in c.requests ==> !Terminal(c.requests[r].status))
      ensures !room ==> connections == old(connections)
      ensures room ==> conn in connections && Trimmed(old(connections[conn]).requests, connections[conn].requests)
      ensures room ==> State() == Put(old(State()), old(connections[conn]).(requests := connections[conn].requests))
    {
      var c := connections[conn];
      if |c.requests| >= HISTORY_LIMIT {
        var oldest := OldestSettled(c.requests);
        if oldest.None? {
          return false;
        }
        connections := connections[conn := c.(requests := c.requests - {oldest.value})];
      }
      room := true;
    }

    method HandleCommand(now: Time, later: Time, conn: Id, owner: string, reason: string, command: Command,
        nonce: Option<Id>)
      returns (resp: Response)
      requires Ready(CreateCommand(conn, owner, reason, command, nonce))
      modifies this
      ensures Next(old(State()), now, later, CreateCommand(conn, owner, reason, command, nonce), State(), resp)
      ensures Replies.Means(old(State()), now, later, CreateCommand(conn, owner, reason, command, nonce), State(), resp)
      ensures Valid()
      ensures resp != HistoryFull
    {
      hide Prune, ValidCommand, Trimmed, Terminal, AnyActive, BrowserInvariants.Inv, BrowserInvariants.FreshFor,
        Replies.Means;
      AlwaysKeeps(State(), now, later, CreateCommand(conn, owner, reason, command, nonce));
      if owner == "" {
        return Unauthorized;
      }
      if !ValidCommand(reason, command) {
        return BadRequest;
      }
      PruneKeyed(State(), now);
      PruneAll(now);
      if conn !in connections || connections[conn].owner != owner {
        return NotFound;
      }
      if connections[conn].control.None? {
        return Conflict;
      }
      var busy := SomeActive(connections[conn].requests);
      if busy {
        return Conflict;
      }
      resp := EnterCommand(later, CreateCommand(conn, owner, reason, command, nonce));
    }

    /** The rest of the handler, once the connection may take a command. */
    method EnterCommand(later: Time, op: Op) returns (resp: Response)
      requires op.CreateCommand? && Keyed(State()) && op.conn in connections && connections[op.conn].control.Some?
      modifies `connections
      ensures Keyed(State())
      ensures Entered(old(State()), later, op, State(), resp)
    {
      hide Trimmed, Terminal;
      var c := connections[op.conn];
      ghost var p := State();
      var room := TrimHistory(op.conn);
      if !room {
        return HistoryFull;
      }
      var reqs := connections[op.conn].requests;
      if op.nonce.None? {
        return ServerError;
      }
      var request := Request(op.nonce.value, op.conn, op.reason, Pending, later + MINUTE, None, Some(op.command),
        c.control.value.id, "", NoError);
      connections := connections[op.conn := connections[op.conn].(requests := reqs[op.nonce.value := request])];
      assert request == NewCommand(op, c, later);
      assert State() == PutRequest(p, c.(requests := reqs), request);
      resp := Accepted(request);
    }

    method HandleCommandStart(now: Time, later: Time, conn: Id, bearer: Option<string>, req: Id)
      returns (resp: Response)
      requires Ready(StartCommand(conn, bearer, req))
      modifies this
      ensures Next(old(State()), now, later, StartCommand(conn, bearer, req), State(), resp)
      ensures Replies.Means(old(State()), now, later, StartCommand(conn, bearer, req), State(), resp)
      ensures Valid()
    {
      hide Prune, BrowserInvariants.Inv, BrowserInvariants.FreshFor, Replies.Means;
      AlwaysKeeps(State(), now, later, StartCommand(conn, bearer, req));
      PruneKeyed(State(), now);
      PruneAll(now);
      if !Bridge(Reg(pairings, connections), conn, bearer) {
        return Unauthorized;
      }
      var c := connections[conn];
      if !Authorized(c, req, Pending) {
        return Conflict;
      }
      var request := c.requests[req].(status := Running);
      connections := connections[conn := c.(requests := c.requests[req := request])];
      resp := Started(request);
    }

    /** Bytes of results over all connections. */
    method CountRetained(ghost except: Id) returns (n: nat)
      requires except in connections
      ensures n == Retained(connections) && n == Retained(connections - {except}) + Bytes(connections[except].requests)
    {
      hide Bytes, Sum;
      n := 0;
      var todo := connections.Keys;
      ghost var seen: map<Id, nat> := map[];
      SumZero(seen);
      while todo != {}
        invariant todo <= connections.Keys
        invariant seen == map k | k in connections && k !in todo :: Bytes(connections[k].requests)
        invariant n == Sum(seen)
        decreases |todo|
      {
        var k :| k in todo;
        todo := todo - {k};
        var m := CountBytes(connections[k].requests);
        n := n + m;
        SumUpdate(seen, k, m);
        seen := seen[k := m];
      }
      assert seen == BrowserInvariants.Totals(connections);
      BrowserInvariants.RetainedPut(connections, except, connections[except]);
      assert connections[except := connections[except]] == connections;
    }

    method HandleCommandResult(now: Time, later: Time, conn: Id, bearer: Option<string>, req: Id, result: string,
        error: string)
      returns (resp: Response)
      requires Ready(PostResult(conn, bearer, req, result, error))
      modifies this
      ensures Next(old(State()), now, later, PostResult(conn, bearer, req, result, error), State(), resp)
      ensures Replies.Means(old(State()), now, later, PostResult(conn, bearer, req, result, error), State(), resp)
      ensures Valid()
    {
      hide Bytes, Retained, MadeRoom, Prune, ClearInput, KeyedRequests, BrowserInvariants.Inv,
        BrowserInvariants.FreshFor, Replies.Means;
      AlwaysKeeps(State(), now, later, PostResult(conn, bearer, req, result, error));
      if |error| > 1000 {
        return BadRequest;
      }
      PruneKeyed(State(), now);
      PruneAll(now);
      ghost var p := State();
      if !Bridge(Reg(pairings, connections), conn, bearer) {
        return Unauthorized;
      }
      var c := connections[conn];
      if !Authorized(c, req, Running) {
        return Conflict;
      }
      TakeResult(PostResult(conn, bearer, req, result, error));
      resp := ResultAccepted;
    }

    /** The rest of the handler, once the command may be answered. */
    method TakeResult(op: Op)
      requires op.PostResult? && Keyed(State()) && op.conn in connections && op.req in connections[op.conn].requests
      modifies `connections
      ensures Keyed(State()) && ResultTaken(old(State()), op, State())
      ensures op.conn in connections && op.req in connections[op.conn].requests
      ensures ShowsAnswer(connections[op.conn].requests[op.req], op)
    {
      hide Bytes, Retained, MadeRoom, ClearInput, KeyedRequests, ShowsAnswer, Finished;
      ghost var p := State();
      var c := connections[op.conn];
      var before := c.requests[op.req := ClearInput(c.requests[op.req].(status := Completed))];
      connections := connections[op.conn := c.(requests := before)];
      var retained := CountRetained(op.conn);
      ghost var others := Retained(p.connections - {op.conn});
      assert connections - {op.conn} == p.connections - {op.conn};
      var after, fits := MakeRoom(before, retained, others, |op.result|);
      ResultKeyed(c, op.req, after, others, |op.result|);
      var kept := if fits then op.result else "";
      var shown := if op.error != "" then Reported(op.error) else if !fits then ResultDropped else NoError;
      var request := after[op.req].(result := kept, error := shown);
      if shown != NoError {
        request := request.(status := Failed);
      }
      connections := connections[op.conn := c.(requests := after[op.req := request])];
      FinishedShows(after[op.req], fits, op, request);
      assert State() == Put(p, c.(requests := after[op.req := Finished(after[op.req], fits, op.result, op.error)]));
    }

    method HandlePoll(now: Time, later: Time, conn: Id, bearer: Option<string>) returns (resp: Response)
      requires Ready(Poll(conn, bearer))
      modifies this
      ensures Next(old(State()), now, later, Poll(conn, bearer), State(), resp)
      ensures Replies.Means(old(State()), now, later, Poll(conn, bearer), State(), resp)
      ensures Valid()
    {
      hide Prune, BrowserInvariants.Inv, BrowserInvariants.FreshFor, Replies.Means;
      AlwaysKeeps(State(), now, later, Poll(conn, bearer));
      PruneKeyed(State(), now);
      PruneAll(now);
      if !Bridge(Reg(pairings, connections), conn, bearer) {
        return Unauthorized;
      }
      connections := connections[conn := connections[conn].(lastSeen := later)];
      var c := connections[conn];
      resp := Polled(map r | r in c.requests && c.requests[r].status == Pending :: c.requests[r], c.control);
    }

    method HandlePairing(now: Time, later: Time, owner: string, nonce: Option<Id>) returns (resp: Response)
      requires Ready(CreatePairing(owner, nonce))
      modifies this
      ensures Next(old(State()), now, later, CreatePairing(owner, nonce), State(), resp)
      ensures Replies.Means(old(State()), now, later, CreatePairing(owner, nonce), State(), resp)
      ensures Valid()
    {
      hide Prune, BrowserInvariants.Inv, BrowserInvariants.FreshFor, Replies.Means;
      AlwaysKeeps(State(), now, later, CreatePairing(owner, nonce));
      if owner == "" {
        return Unauthorized;
      }
      if nonce.None? {
        return ServerError;
      }
      PruneKeyed(State(), now);
      PruneAll(now);
      ghost var p := pairings;
      var todo := pairings.Keys;
      while todo != {}
        invariant todo <= pairings.Keys <= p.Keys
        invariant pairings == map c | c in p && (c in todo || p[c].owner != owner) :: p[c]
        invariant connections == Prune(old(State()), now).connections
        decreases |todo|
      {
        var prior :| prior in todo;
        todo := todo - {prior};
        if pairings[prior].owner == owner {
          pairings := pairings - {prior};
        }
      }
      assert pairings == map c | c in p && p[c].owner != owner :: p[c];
      if |pairings| >= 128 {
        return TooMany;
      }
      pairings := pairings[nonce.value := Pairing(owner, later + 5 * MINUTE)];
      resp := PairingCode(nonce.value);
    }

    method CountOwned(owner: string) returns (count: nat)
      ensures count == |OwnedBy(connections, owner)|
    {
      count := 0;
      var todo := connections.Keys;
      ghost var seen: set<Id> := {};
      while todo != {}
        invariant todo <= connections.Keys
        invariant seen == set k | k in connections && k !in todo && connections[k].owner == owner
        invariant count == |seen|
        decreases |todo|
      {
        var k :| k in todo;
        todo := todo - {k};
        if connections[k].owner == owner {
          count := count + 1;
          seen := seen + {k};
        }
      }
      assert seen == OwnedBy(connections, owner);
    }

    method HandleClaim(now: Time, later: Time, code: Id, name: string, token: string, nonce: Option<Id>)
      returns (resp: Response)
      requires Ready(Claim(code, name, token, nonce))
      modifies this
      ensures Next(old(State()), now, later, Claim(code, name, token, nonce), State(), resp)
      ensures Replies.Means(old(State()), now, later, Claim(code, name, token, nonce), State(), resp)
      ensures Valid()
    {
      hide Prune, BrowserInvariants.Inv, BrowserInvariants.FreshFor, Replies.Means;
      AlwaysKeeps(State(), now, later, Claim(code, name, token, nonce));
      if name == "" || |name| > 80 {
        return BadRequest;
      }
      if nonce.None? {
        return ServerError;
      }
      PruneKeyed(State(), now);
      PruneAll(now);
      if code !in pairings {
        return Unauthorized;
      }
      var owner := pairings[code].owner;
      var count := CountOwned(owner);
      if count >= 8 || |connections| >= 128 {
        return TooMany;
      }
      pairings := pairings - {code};
      connections := connections[nonce.value := Connection(nonce.value, name, owner, token, later, None, map[], None)];
      resp := Claimed(nonce.value, token);
    }

    method HandleRevoke(now: Time, later: Time, conn: Id, owner: string) returns (resp: Response)
      requires Ready(RevokeByOwner(conn, owner))
      modifies this
      ensures Next(old(State()), now, later, RevokeByOwner(conn, owner), State(), resp)
      ensures Replies.Means(old(State()), now, later, RevokeByOwner(conn, owner), State(), resp)
      ensures Valid()
      ensures resp == Done <==> owner != "" && Owns(old(State()), conn, owner)
      ensures resp == Done ==> State() == old(State()).(connections := old(connections) - {conn})
    {
      hide BrowserInvariants.Inv, BrowserInvariants.FreshFor, Replies.Means;
      AlwaysKeeps(State(), now, later, RevokeByOwner(conn, owner));
      if owner == "" {
        return Unauthorized;
      }
      if conn !in connections || connections[conn].owner != owner {
        return NotFound;
      }
      connections := connections - {conn};
      resp := Done;
    }

    method HandleBridgeRevoke(now: Time, later: Time, conn: Id, bearer: Option<string>) returns (resp: Response)
      requires Ready(RevokeByBridge(conn, bearer))
      modifies this
      ensures Next(old(State()), now, later, RevokeByBridge(conn, bearer), State(), resp)
      ensures Replies.Means(old(State()), now, later, RevokeByBridge(conn, bearer), State(), resp)
      ensures Valid()
    {
      hide Prune, BrowserInvariants.Inv, BrowserInvariants.FreshFor, Replies.Means;
      AlwaysKeeps(State(), now, later, RevokeByBridge(conn, bearer));
      PruneKeyed(State(), now);
      PruneAll(now);
      if !Bridge(Reg(pairings, connections), conn, bearer) {
        return Unauthorized;
      }
      connections := connections - {conn};
      resp := Done;
    }

    method HandleSnapshotRequest(now: Time, later: Time, conn: Id, owner: string, reason: string, nonce: Option<Id>)
      returns (resp: Response)
      requires Ready(AskSnapshot(conn, owner, reason, nonce))
      modifies this
      ensures Next(old(State()), now, later, AskSnapshot(conn, owner, reason, nonce), State(), resp)
      ensures Replies.Means(old(State()), now, later, AskSnapshot(conn, owner, reason, nonce), State(), resp)
      ensures Valid()
    {
      hide Prune, BrowserInvariants.Inv, BrowserInvariants.FreshFor, Replies.Means;
      AlwaysKeeps(State(), now, later, AskSnapshot(conn, owner, reason, nonce));
      if owner == "" {
        return Unauthorized;
      }
      if reason == "" || |reason| > 300 {
        return BadRequest;
      }
      if nonce.None? {
        return ServerError;
      }
      PruneKeyed(State(), now);
      PruneAll(now);
      if conn !in connections || connections[conn].owner != owner {
        return NotFound;
      }
      var c := connections[conn];
      if |c.requests| >= SNAPSHOT_LIMIT {
        return TooMany;
      }
      var request := Request(nonce.value, c.id, reason, Pending, later + 2 * MINUTE, None, None, "", "", NoError);
      connections := connections[conn := c.(requests := c.requests[nonce.value := request])];
      resp := Accepted(request);
    }

    method HandleSnapshotResult(now: Time, later: Time, conn: Id, bearer: Option<string>, req: Id, approved: bool,
        snapshot: Option<Snapshot>)
      returns (resp: Response)
      requires Ready(AnswerSnapshot(conn, bearer, req, approved, snapshot))
      modifies this
      ensures Next(old(State()), now, later, AnswerSnapshot(conn, bearer, req, approved, snapshot), State(), resp)
      ensures Replies.Means(old(State()), now, later, AnswerSnapshot(conn, bearer, req, approved, snapshot),
                            State(), resp)
      ensures Valid()
    {
      hide Prune, BrowserInvariants.Inv, BrowserInvariants.FreshFor, Replies.Means;
      AlwaysKeeps(State(), now, later, AnswerSnapshot(conn, bearer, req, approved, snapshot));
      if approved && snapshot.None? {
        return BadRequest;
      }
      PruneKeyed(State(), now);
      PruneAll(now);
      if !Bridge(Reg(pairings, connections), conn, bearer) {
        return Unauthorized;
      }
      var c := connections[conn];
      if req !in c.requests || c.requests[req].status != Pending || c.requests[req].command.Some? {
        return Conflict;
      }
      var request := c.requests[req].(status := Denied);
      if approved {
        request := request.(status := Approved, snapshot := snapshot);
      }
      connections := connections[conn := c.(requests := c.requests[req := request])];
      resp := Done;
    }
  }
}
