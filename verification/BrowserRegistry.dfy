/** The Browser Assistant registry as a value: what each HTTP handler, holding the registry's
    mutex until its reply is flushed, does to the pairings, connections and requests.
    Every handler is one step of `Next`. BrowserHandlers proves the looping, updating code
    against these definitions, BrowserInvariants that every step keeps the invariants, and
    BrowserRuns that every run does. */
module BrowserRegistry {
  import opened Prelude

  type Id = string
  type Time = int // seconds

  const MINUTE: Time := 60
  const RETAINED_LIMIT: nat := 16 * 1024 * 1024
  const HISTORY_LIMIT: nat := 64
  const SNAPSHOT_LIMIT: nat := 8

  /** The error shown with a request: none, a fixed text of the server, or the extension's own. */
  datatype ErrorText = NoError | ControlStopped | ResultEvicted | ResultDropped | Reported(text: string)

  datatype Action =
    | Inspect | Screenshot | Navigate | Click | Type | Key | Scroll | Tabs | NewTab | SelectTab | Unsupported

  datatype Command = Command(action: Action, selector: string, text: string, url: string, key: string)
  datatype Control = Control(id: Id, origin: string, managed: bool)
  datatype Snapshot = Snapshot(title: string, url: string, headings: seq<string>, buttons: seq<string>,
                               links: seq<string>)
  datatype Status = Pending | Running | Completed | Failed | Cancelled | Expired | Approved | Denied
  datatype Request = Request(id: Id, connectionId: Id, reason: string, status: Status, expires: Time,
                             snapshot: Option<Snapshot>, command: Option<Command>, controlId: Id,
                             result: string, error: ErrorText)
  datatype Connection = Connection(id: Id, name: string, owner: string, token: string, lastSeen: Time,
                                   expires: Option<Time>, requests: map<Id, Request>, control: Option<Control>)
  datatype Pairing = Pairing(owner: string, expires: Time)
  datatype Reg = Reg(pairings: map<Id, Pairing>, connections: map<Id, Connection>)

  datatype Response =
    | Unauthorized | NotFound | BadRequest | Conflict | TooMany | HistoryFull | ServerError | Done
    | ControlSet(control: Option<Control>)
    | Accepted(request: Request)
    | Started(request: Request)
    | ResultAccepted
    | Polled(pending: map<Id, Request>, control: Option<Control>)
    | PairingCode(code: Id)
    | Claimed(id: Id, token: string)
    | Listed(ids: set<Id>)
    | Found(request: Request)

  /** One handler call. `nonce` is what the random generator returned, None when it failed. */
  datatype Op =
    | SetControl(conn: Id, bearer: Option<string>, active: bool, origin: string, managed: bool, nonce: Option<Id>)
    | StopByOwner(conn: Id, owner: string)
    | CreateCommand(conn: Id, owner: string, reason: string, command: Command, nonce: Option<Id>)
    | StartCommand(conn: Id, bearer: Option<string>, req: Id)
    | PostResult(conn: Id, bearer: Option<string>, req: Id, result: string, error: string)
    | Poll(conn: Id, bearer: Option<string>)
    | CreatePairing(owner: string, nonce: Option<Id>)
    | Claim(code: Id, name: string, token: string, nonce: Option<Id>)
    | RevokeByOwner(conn: Id, owner: string)
    | RevokeByBridge(conn: Id, bearer: Option<string>)
    | AskSnapshot(conn: Id, owner: string, reason: string, nonce: Option<Id>)
    | AnswerSnapshot(conn: Id, bearer: Option<string>, req: Id, approved: bool, snapshot: Option<Snapshot>)
    | ListConnections(owner: string)
    | Lookup(owner: string, req: Id)

  predicate Active(q: Request) {
    q.command.Some? && (q.status == Pending || q.status == Running)
  }

  predicate Terminal(s: Status) {
    s != Pending && s != Running
  }

  // ---------------------------------------------------------------- state changes

  function ClearInput(q: Request): Request {
    if q.command.Some? then q.(command := Some(q.command.value.(text := "", selector := "", url := ""))) else q
  }

  function StopRequest(q: Request): Request {
    if Active(q) then ClearInput(q.(status := Cancelled, error := ControlStopped)) else q
  }

  function StopControl(c: Connection): Connection {
    c.(control := None, requests := map r | r in c.requests :: StopRequest(c.requests[r]))
  }

  function ExpireRequest(q: Request, now: Time): Request {
    if now >= q.expires then ClearInput(q.(status := Expired, snapshot := None, result := "")) else q
  }

  function PruneRequests(reqs: map<Id, Request>, now: Time): map<Id, Request> {
    map r | r in reqs && now <= reqs[r].expires + 5 * MINUTE :: ExpireRequest(reqs[r], now)
  }

  function PruneConnection(c: Connection, now: Time): Connection {
    c.(requests := PruneRequests(c.requests, now))
  }

  predicate Lapsed(c: Connection, now: Time) {
    c.expires.Some? && now >= c.expires.value
  }

  function Prune(s: Reg, now: Time): Reg {
    Reg(map p | p in s.pairings && now < s.pairings[p].expires :: s.pairings[p],
        map k | k in s.connections && !Lapsed(s.connections[k], now) :: PruneConnection(s.connections[k], now))
  }

  function Put(s: Reg, c: Connection): Reg {
    s.(connections := s.connections[c.id := c])
  }

  function PutRequest(s: Reg, c: Connection, q: Request): Reg {
    Put(s, c.(requests := c.requests[q.id := q]))
  }

  predicate Owns(s: Reg, conn: Id, owner: string) {
    conn in s.connections && s.connections[conn].owner == owner
  }

  /** The bearer check of the extension's endpoints; token hashes are injective, so tokens stand for them. */
  predicate Bridge(s: Reg, conn: Id, bearer: Option<string>) {
    bearer.Some? && conn in s.connections && s.connections[conn].token == bearer.value
  }

  predicate HttpOrigin(origin: string) {
    |origin| <= 300 && ("https://" <= origin || "http://" <= origin)
  }

  predicate ValidCommand(reason: string, c: Command) {
    c.action != Unsupported && 0 < |reason| <= 300 && |c.selector| <= 1000 && |c.text| <= 16000 && |c.url| <= 4000
      && |c.key| <= 40
  }

  // ---------------------------------------------------------------- handlers

  function SetControlStep(s: Reg, now: Time, op: Op): (Reg, Response)
    requires op.SetControl?
  {
    var p := Prune(s, now);
    if !Bridge(p, op.conn, op.bearer) then (p, Unauthorized)
    else
      var stopped := StopControl(p.connections[op.conn]);
      if !op.active then (Put(p, stopped), ControlSet(None))
      else if !HttpOrigin(op.origin) then (Put(p, stopped), BadRequest)
      else if op.nonce.None? then (Put(p, stopped), ServerError)
      else
        var control := Some(Control(op.nonce.value, op.origin, op.managed));
        (Put(p, stopped.(control := control)), ControlSet(control))
  }

  function StopByOwnerStep(s: Reg, op: Op): (Reg, Response)
    requires op.StopByOwner?
  {
    if op.owner == "" then (s, Unauthorized)
    else if !Owns(s, op.conn, op.owner) then (s, NotFound)
    else (Put(s, StopControl(s.connections[op.conn])), Done)
  }

  predicate AnyActive(reqs: map<Id, Request>) {
    exists r :: r in reqs && Active(reqs[r])
  }

  /** `victim` may make room in a full history: settled, and no settled request expires earlier. */
  predicate Oldest(reqs: map<Id, Request>, victim: Id) {
    && victim in reqs && Terminal(reqs[victim].status)
    && forall r :: r in reqs && Terminal(reqs[r].status) ==> reqs[victim].expires <= reqs[r].expires
  }

  ghost predicate Trimmed(before: map<Id, Request>, after: map<Id, Request>) {
    if |before| < HISTORY_LIMIT then after == before
    else exists victim :: Oldest(before, victim) && after == before - {victim}
  }

  ghost predicate CreateCommandNext(s: Reg, now: Time, later: Time, op: Op, t: Reg, resp: Response)
    requires op.CreateCommand?
  {
    if op.owner == "" then t == s && resp == Unauthorized
    else if !ValidCommand(op.reason, op.command) then t == s && resp == BadRequest
    else
      var p := Prune(s, now);
      if !Owns(p, op.conn, op.owner) then t == p && resp == NotFound
      else
        var c := p.connections[op.conn];
        if c.control.None? || AnyActive(c.requests) then t == p && resp == Conflict
        else if |c.requests| >= HISTORY_LIMIT && (forall r :: r in c.requests ==> !Terminal(c.requests[r].status)) then
          t == p && resp == HistoryFull
        else
          exists reqs :: Trimmed(c.requests, reqs) &&
            if op.nonce.None? then t == Put(p, c.(requests := reqs)) && resp == ServerError
            else
              var q := NewCommand(op, c, later);
              t == PutRequest(p, c.(requests := reqs), q) && resp == Accepted(q)
  }

  function NewCommand(op: Op, c: Connection, later: Time): Request
    requires op.CreateCommand? && op.nonce.Some? && c.control.Some?
  {
    Request(op.nonce.value, c.id, op.reason, Pending, later + MINUTE, None, Some(op.command), c.control.value.id, "",
      NoError)
  }

  /** The command may move on: it is in `status` and belongs to the connection's present control. */
  predicate Authorized(c: Connection, req: Id, status: Status) {
    && req in c.requests && c.requests[req].command.Some? && c.requests[req].status == status
    && c.control.Some? && c.requests[req].controlId == c.control.value.id
  }

  function StartStep(s: Reg, now: Time, op: Op): (Reg, Response)
    requires op.StartCommand?
  {
    var p := Prune(s, now);
    if !Bridge(p, op.conn, op.bearer) then (p, Unauthorized)
    else
      var c := p.connections[op.conn];
      if !Authorized(c, op.req, Pending) then (p, Conflict)
      else
        var q := c.requests[op.req].(status := Running);
        (Put(p, c.(requests := c.requests[op.req := q])), Started(q))
  }

  ghost function Sizes(reqs: map<Id, Request>): map<Id, nat> {
    map r | r in reqs :: |reqs[r].result|
  }

  ghost function Bytes(reqs: map<Id, Request>): nat {
    Sum(Sizes(reqs))
  }

  /** Bytes of results kept over all connections. */
  ghost function Retained(conns: map<Id, Connection>): nat {
    Sum(map k | k in conns :: Bytes(conns[k].requests))
  }

  function Evicted(before: map<Id, Request>, after: map<Id, Request>): set<Id> {
    set r | r in before && r in after && before[r].result != "" && after[r].result == ""
  }

  predicate OnlyEvicts(before: map<Id, Request>, after: map<Id, Request>) {
    && after.Keys == before.Keys
    && forall r :: r in before ==>
         after[r] == before[r] || (before[r].result != ""
           && after[r] == before[r].(result := "", error := ResultEvicted))
  }

  /** Making room for `size` bytes when the other connections hold `others`: results go oldest
      expiry first, the last one only because without it the new result did not fit, and
      everything of this connection has gone when even that is not enough. */
  ghost predicate MadeRoom(before: map<Id, Request>, after: map<Id, Request>, others: nat, size: nat) {
    && OnlyEvicts(before, after)
    && (forall e, k :: e in Evicted(before, after) && k in after && after[k].result != "" ==>
          before[e].expires <= before[k].expires)
    && (Evicted(before, after) != {} ==>
          exists last :: last in Evicted(before, after) &&
            (forall e :: e in Evicted(before, after) ==> before[e].expires <= before[last].expires) &&
            others + Bytes(after) + |before[last].result| + size > RETAINED_LIMIT)
    && (others + Bytes(after) + size > RETAINED_LIMIT ==> forall r :: r in after ==> after[r].result == "")
  }

  /** The finished request after its result was or was not kept. */
  function Finished(q: Request, fits: bool, result: string, error: string): Request {
    var shown := if error != "" then Reported(error) else if !fits then ResultDropped else NoError;
    q.(status := if shown != NoError then Failed else Completed, result := if fits then result else "", error := shown)
  }

  ghost predicate PostResultNext(s: Reg, now: Time, op: Op, t: Reg, resp: Response)
    requires op.PostResult?
  {
    if |op.error| > 1000 then t == s && resp == BadRequest
    else
      var p := Prune(s, now);
      if !Bridge(p, op.conn, op.bearer) then t == p && resp == Unauthorized
      else
        var c := p.connections[op.conn];
        if !Authorized(c, op.req, Running) then t == p && resp == Conflict
        else
          var done := ClearInput(c.requests[op.req].(status := Completed));
          var before := c.requests[op.req := done];
          var others := Retained(p.connections - {op.conn});
          exists after :: MadeRoom(before, after, others, |op.result|) && op.req in after &&
            var fits := others + Bytes(after) + |op.result| <= RETAINED_LIMIT;
            t == Put(p, c.(requests := after[op.req := Finished(after[op.req], fits, op.result, op.error)])) &&
            resp == ResultAccepted
  }

  function PollStep(s: Reg, now: Time, later: Time, op: Op): (Reg, Response)
    requires op.Poll?
  {
    var p := Prune(s, now);
    if !Bridge(p, op.conn, op.bearer) then (p, Unauthorized)
    else
      var c := p.connections[op.conn].(lastSeen := later);
      (Put(p, c), Polled(map r | r in c.requests && c.requests[r].status == Pending :: c.requests[r], c.control))
  }

  function CreatePairingStep(s: Reg, now: Time, later: Time, op: Op): (Reg, Response)
    requires op.CreatePairing?
  {
    if op.owner == "" then (s, Unauthorized)
    else if op.nonce.None? then (s, ServerError)
    else
      var p := Prune(s, now);
      var others := map c | c in p.pairings && p.pairings[c].owner != op.owner :: p.pairings[c];
      if |others| >= 128 then (p.(pairings := others), TooMany)
      else (p.(pairings := others[op.nonce.value := Pairing(op.owner, later + 5 * MINUTE)]),
        PairingCode(op.nonce.value))
  }

  function OwnedBy(conns: map<Id, Connection>, owner: string): set<Id> {
    set k | k in conns && conns[k].owner == owner
  }

  function ClaimStep(s: Reg, now: Time, later: Time, op: Op): (Reg, Response)
    requires op.Claim?
  {
    if op.name == "" || |op.name| > 80 then (s, BadRequest)
    else if op.nonce.None? then (s, ServerError)
    else
      var p := Prune(s, now);
      if op.code !in p.pairings then (p, Unauthorized)
      else
        var owner := p.pairings[op.code].owner;
        if |OwnedBy(p.connections, owner)| >= 8 || |p.connections| >= 128 then (p, TooMany)
        else
          var c := Connection(op.nonce.value, op.name, owner, op.token, later, None, map[], None);
          (Put(p.(pairings := p.pairings - {op.code}), c), Claimed(c.id, op.token))
  }

  function RevokeByOwnerStep(s: Reg, op: Op): (Reg, Response)
    requires op.RevokeByOwner?
  {
    if op.owner == "" then (s, Unauthorized)
    else if !Owns(s, op.conn, op.owner) then (s, NotFound)
    else (s.(connections := s.connections - {op.conn}), Done)
  }

  function RevokeByBridgeStep(s: Reg, now: Time, op: Op): (Reg, Response)
    requires op.RevokeByBridge?
  {
    var p := Prune(s, now);
    if !Bridge(p, op.conn, op.bearer) then (p, Unauthorized)
    else (p.(connections := p.connections - {op.conn}), Done)
  }

  function AskSnapshotStep(s: Reg, now: Time, later: Time, op: Op): (Reg, Response)
    requires op.AskSnapshot?
  {
    if op.owner == "" then (s, Unauthorized)
    else if op.reason == "" || |op.reason| > 300 then (s, BadRequest)
    else if op.nonce.None? then (s, ServerError)
    else
      var p := Prune(s, now);
      if !Owns(p, op.conn, op.owner) then (p, NotFound)
      else
        var c := p.connections[op.conn];
        if |c.requests| >= SNAPSHOT_LIMIT then (p, TooMany)
        else
          var q := Request(op.nonce.value, c.id, op.reason, Pending, later + 2 * MINUTE, None, None, "", "", NoError);
          (PutRequest(p, c, q), Accepted(q))
  }

  function AnswerSnapshotStep(s: Reg, now: Time, op: Op): (Reg, Response)
    requires op.AnswerSnapshot?
  {
    if op.approved && op.snapshot.None? then (s, BadRequest)
    else
      var p := Prune(s, now);
      if !Bridge(p, op.conn, op.bearer) then (p, Unauthorized)
      else
        var c := p.connections[op.conn];
        if op.req !in c.requests || c.requests[op.req].status != Pending || c.requests[op.req].command.Some?
          then (p, Conflict)
        else
          var q := c.requests[op.req];
          var q' := if op.approved then q.(status := Approved, snapshot := op.snapshot) else q.(status := Denied);
          (Put(p, c.(requests := c.requests[op.req := q'])), Done)
  }

  ghost predicate LookupNext(s: Reg, now: Time, op: Op, t: Reg, resp: Response)
    requires op.Lookup?
  {
    var p := Prune(s, now);
    t == p &&
    if exists k :: Owns(p, k, op.owner) && op.req in p.connections[k].requests then
      exists k :: Owns(p, k, op.owner) && op.req in p.connections[k].requests
        && resp == Found(p.connections[k].requests[op.req])
    else resp == NotFound
  }

  /** One handler call: `now` is the clock read by prune, `later` the one read afterwards. */
  ghost predicate Next(s: Reg, now: Time, later: Time, op: Op, t: Reg, resp: Response) {
    match op
    case SetControl(_, _, _, _, _, _) => (t, resp) == SetControlStep(s, now, op)
    case StopByOwner(_, _) => (t, resp) == StopByOwnerStep(s, op)
    case CreateCommand(_, _, _, _, _) => CreateCommandNext(s, now, later, op, t, resp)
    case StartCommand(_, _, _) => (t, resp) == StartStep(s, now, op)
    case PostResult(_, _, _, _, _) => PostResultNext(s, now, op, t, resp)
    case Poll(_, _) => (t, resp) == PollStep(s, now, later, op)
    case CreatePairing(_, _) => (t, resp) == CreatePairingStep(s, now, later, op)
    case Claim(_, _, _, _) => (t, resp) == ClaimStep(s, now, later, op)
    case RevokeByOwner(_, _) => (t, resp) == RevokeByOwnerStep(s, op)
    case RevokeByBridge(_, _) => (t, resp) == RevokeByBridgeStep(s, now, op)
    case AskSnapshot(_, _, _, _) => (t, resp) == AskSnapshotStep(s, now, later, op)
    case AnswerSnapshot(_, _, _, _, _) => (t, resp) == AnswerSnapshotStep(s, now, op)
    case ListConnections(owner) =>
      if owner == "" then t == s && resp == Unauthorized
      else t == Prune(s, now) && resp == Listed(OwnedBy(t.connections, owner))
    case Lookup(_, _) => LookupNext(s, now, op, t, resp)
  }
}
