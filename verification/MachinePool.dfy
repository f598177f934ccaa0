/** The pool of machine connections: names resolve to hosts by durable id first, then by a display
    name only one host has; calls then share one cached connection per host id. Calls run
    concurrently; a step is one critical section, one remote round trip or one close. */
module MachinePool {
  import opened Prelude

  datatype HostRef = HostRef(id: string, displayName: string, addr: string)

  // ---------------------------------------------------------------- resolution

  function WithId(hosts: seq<HostRef>, name: string): Option<HostRef> {
    if hosts == [] then None
    else if hosts[0].id == name then Some(hosts[0])
    else WithId(hosts[1..], name)
  }

  function Labelled(hosts: seq<HostRef>, name: string): seq<HostRef> {
    if hosts == [] then []
    else (if hosts[0].displayName == name then [hosts[0]] else []) + Labelled(hosts[1..], name)
  }

  function Match(hosts: seq<HostRef>, name: string): Option<HostRef> {
    if WithId(hosts, name).Some? then WithId(hosts, name)
    else if |Labelled(hosts, name)| == 1 then Some(Labelled(hosts, name)[0])
    else None
  }

  lemma {:induction false} WithIdMeans(hosts: seq<HostRef>, name: string)
    ensures WithId(hosts, name).None? <==> forall h :: h in hosts ==> h.id != name
    ensures WithId(hosts, name).Some? ==> WithId(hosts, name).value in hosts && WithId(hosts, name).value.id == name
  {
    if hosts != [] {
      WithIdMeans(hosts[1..], name);
      assert forall h :: h in hosts <==> h == hosts[0] || h in hosts[1..];
    }
  }

  ghost predicate Twice(hosts: seq<HostRef>, name: string) {
    exists i, j :: 0 <= i < j < |hosts| && hosts[i].displayName == name && hosts[j].displayName == name
  }

  lemma {:induction false} LabelledMeans(hosts: seq<HostRef>, name: string)
    ensures forall h :: h in Labelled(hosts, name) <==> h in hosts && h.displayName == name
    ensures |Labelled(hosts, name)| >= 2 <==> Twice(hosts, name)
  {
    if hosts != [] {
      hide Twice, Shown;
      var first, rest := hosts[0], hosts[1..];
      LabelledMeans(rest, name);
      assert hosts == [first] + rest;
      TwiceCons(first, rest, name);
      ShownMeans(rest, name);
    }
  }

  ghost predicate Shown(hosts: seq<HostRef>, name: string) {
    exists i :: 0 <= i < |hosts| && hosts[i].displayName == name
  }

  lemma TwiceCons(first: HostRef, rest: seq<HostRef>, name: string)
    ensures Twice([first] + rest, name) <==> Twice(rest, name) || (first.displayName == name && Shown(rest, name))
  {
    hide Shown, Twice;
    if Twice(rest, name) { TwiceLater(first, rest, name); }
    if first.displayName == name && Shown(rest, name) { TwiceNow(first, rest, name); }
    if Twice([first] + rest, name) { TwiceSplit(first, rest, name); }
  }

  lemma TwiceLater(first: HostRef, rest: seq<HostRef>, name: string)
    requires Twice(rest, name)
    ensures Twice([first] + rest, name)
  {
    var i, j :| 0 <= i < j < |rest| && rest[i].displayName == name && rest[j].displayName == name;
    var hosts := [first] + rest;
    assert hosts[i + 1] == rest[i] && hosts[j + 1] == rest[j];
  }

  lemma TwiceNow(first: HostRef, rest: seq<HostRef>, name: string)
    requires first.displayName == name && Shown(rest, name)
    ensures Twice([first] + rest, name)
  {
    var j :| 0 <= j < |rest| && rest[j].displayName == name;
    var hosts := [first] + rest;
    assert hosts[0] == first && hosts[j + 1] == rest[j];
  }

  lemma TwiceSplit(first: HostRef, rest: seq<HostRef>, name: string)
    requires Twice([first] + rest, name)
    ensures Twice(rest, name) || (first.displayName == name && Shown(rest, name))
  {
    var hosts := [first] + rest;
    var i, j :| 0 <= i < j < |hosts| && hosts[i].displayName == name && hosts[j].displayName == name;
    assert hosts[j] == rest[j - 1];
    if i > 0 { assert hosts[i] == rest[i - 1]; }
  }

  lemma {:induction false} ShownMeans(hosts: seq<HostRef>, name: string)
    ensures Shown(hosts, name) <==> Labelled(hosts, name) != []
  {
    if hosts != [] {
      ShownMeans(hosts[1..], name);
      if Shown(hosts, name) {
        var i :| 0 <= i < |hosts| && hosts[i].displayName == name;
        if i > 0 { assert hosts[1..][i - 1].displayName == name; }
      }
      if Shown(hosts[1..], name) {
        var i :| 0 <= i < |hosts[1..]| && hosts[1..][i].displayName == name;
        assert hosts[i + 1].displayName == name;
      }
      if hosts[0].displayName == name { assert Shown(hosts, name); }
    }
  }

  /** A match is a host whose id is the name, or, when no id is, the one host displayed by it. */
  ghost predicate Names(hosts: seq<HostRef>, name: string, h: HostRef) {
    && h in hosts
    && (h.id == name
        || ((forall x :: x in hosts ==> x.id != name) && h.displayName == name && !Twice(hosts, name)))
  }

  lemma MatchMeans(hosts: seq<HostRef>, name: string)
    ensures Match(hosts, name).Some? ==> Names(hosts, name, Match(hosts, name).value)
    ensures (exists h :: Names(hosts, name, h)) ==> Match(hosts, name).Some?
  {
    WithIdMeans(hosts, name);
    LabelledMeans(hosts, name);
    if h :| Names(hosts, name, h) {
      if h.id != name { assert h in Labelled(hosts, name); }
    }
  }

  lemma MatchIs(hosts: seq<HostRef>, name: string)
    ensures Match(hosts, name) ==
      if WithId(hosts, name).Some? then WithId(hosts, name)
      else if |Labelled(hosts, name)| == 1 then Some(Labelled(hosts, name)[0]) else None
  {
  }

  /** The scan for an id. */
  method ScanIds(hosts: seq<HostRef>, name: string) returns (hit: Option<HostRef>)
    ensures hit == WithId(hosts, name)
  {
    var i := 0;
    assert hosts[0..] == hosts;
    while i < |hosts|
      invariant 0 <= i <= |hosts| && WithId(hosts, name) == WithId(hosts[i..], name)
    {
      assert hosts[i..][1..] == hosts[i + 1..];
      if hosts[i].id == name { return Some(hosts[i]); }
      i := i + 1;
    }
    return None;
  }

  lemma LabelledStep(hosts: seq<HostRef>, i: nat, name: string)
    requires i < |hosts|
    ensures Labelled(hosts[i..], name) ==
      (if hosts[i].displayName == name then [hosts[i]] else []) + Labelled(hosts[i + 1..], name)
  {
    assert hosts[i..][1..] == hosts[i + 1..];
  }

  /** The scan that counts a display name and keeps the last host with it. */
  method ScanNames(hosts: seq<HostRef>, name: string) returns (hit: HostRef, found: nat)
    ensures found == |Labelled(hosts, name)| && (found > 0 ==> hit == Labelled(hosts, name)[found - 1])
  {
    hide Labelled;
    hit, found := HostRef("", "", ""), 0;
    var i := 0;
    ghost var seen: seq<HostRef> := [];
    assert hosts[0..] == hosts;
    while i < |hosts|
      invariant 0 <= i <= |hosts| && Labelled(hosts, name) == seen + Labelled(hosts[i..], name)
      invariant found == |seen| && (found > 0 ==> hit == seen[found - 1])
    {
      LabelledStep(hosts, i, name);
      if hosts[i].displayName == name {
        hit := hosts[i];
        found := found + 1;
        seen := seen + [hosts[i]];
      }
      i := i + 1;
    }
    NoneLabelled(name);
    assert hosts[i..] == [] && seen + [] == seen;
  }

  lemma NoneLabelled(name: string)
    ensures Labelled([], name) == []
  {
  }

  method MatchIn(hosts: seq<HostRef>, name: string) returns (hit: HostRef, ok: bool)
    ensures ok <==> exists h :: Names(hosts, name, h)
    ensures ok ==> Names(hosts, name, hit) && Match(hosts, name) == Some(hit)
    ensures !ok ==> Match(hosts, name) == None
  {
    hide Names, Match, Labelled, WithId;
    MatchMeans(hosts, name);
    MatchIs(hosts, name);
    var byId := ScanIds(hosts, name);
    if byId.Some? { return byId.value, true; }
    var found;
    hit, found := ScanNames(hosts, name);
    if found == 1 { return hit, true; }
    return HostRef("", "", ""), false;
  }

  // ---------------------------------------------------------------- calls

  type Conn = nat

  datatype Client = Client(hostId: string, dead: bool, closed: bool)

  /** Where a call stands. After resolution it carries the host and the list it was matched in. */
  datatype Phase =
    | Resolving(name: string)
    | Discovering(name: string)
    | Storing(name: string, list: seq<HostRef>)
    | Looking(name: string, list: seq<HostRef>, host: HostRef)
    | Evicting(name: string, c: Conn)                               // deleted a dead one, about to close it
    | Dialing(name: string, list: seq<HostRef>, host: HostRef)
    | Priming(name: string, list: seq<HostRef>, host: HostRef, c: Conn)
    | Dialled(name: string, list: seq<HostRef>, host: HostRef, c: Conn)
    | Spare(name: string, list: seq<HostRef>, host: HostRef, c: Conn, kept: Conn)   // lost the race, about to close
    | Answered(name: string, list: seq<HostRef>, host: HostRef, c: Conn)
    | Failed(name: string)

  /** `seen` holds every list a discovery returned. `closing` holds what each `closeAll` took. */
  datatype State = State(
    wired: bool, hosts: seq<HostRef>, seen: set<seq<HostRef>>, conns: map<string, Conn>, clients: map<Conn, Client>,
    next: nat, calls: map<nat, Phase>, closing: map<nat, set<Conn>>)

  datatype Label =
    | Call(k: nat, name: string)
    | ReadCache(k: nat)
    | DiscoverReturns(k: nat, list: Option<seq<HostRef>>)
    | StoreHosts(k: nat)
    | Lookup(k: nat)
    | CloseDead(k: nat)
    | DialReturns(k: nat, ok: bool)
    | PrimeReturns(k: nat, ok: bool)
    | Recheck(k: nat)
    | CloseSpare(k: nat)
    | Dies(c: Conn)
    | CloseAll(k: nat)
    | CloseOne(k: nat, c: Conn)

  predicate OfCall(l: Label) {
    !l.Call? && !l.Dies? && !l.CloseAll? && !l.CloseOne?
  }

  predicate PhaseFor(p: Phase, l: Label) {
    match l
    case ReadCache(_) => p.Resolving?
    case DiscoverReturns(_, _) => p.Discovering?
    case StoreHosts(_) => p.Storing?
    case Lookup(_) => p.Looking?
    case CloseDead(_) => p.Evicting?
    case DialReturns(_, _) => p.Dialing?
    case PrimeReturns(_, _) => p.Priming?
    case Recheck(_) => p.Dialled?
    case CloseSpare(_) => p.Spare?
    case _ => false
  }

  predicate Enabled(s: State, l: Label) {
    match l
    case Call(k, _) => k !in s.calls
    case Dies(c) => c in s.clients
    case CloseAll(k) => k !in s.closing
    case CloseOne(k, c) => k in s.closing && c in s.closing[k]
    case _ => l.k in s.calls && PhaseFor(s.calls[l.k], l)
  }

  predicate Live(s: State, id: string) {
    id in s.conns && s.conns[id] in s.clients && !s.clients[s.conns[id]].dead
  }

  function NextPhase(s: State, p: Phase, l: Label): Phase
    requires PhaseFor(p, l)
  {
    match l
    case ReadCache(_) =>
      if !s.wired then Failed(p.name)
      else if Match(s.hosts, p.name).Some? then Looking(p.name, s.hosts, Match(s.hosts, p.name).value)
      else Discovering(p.name)
    case DiscoverReturns(_, list) => if list.Some? then Storing(p.name, list.value) else Failed(p.name)
    case StoreHosts(_) =>
      if Match(p.list, p.name).Some? then Looking(p.name, p.list, Match(p.list, p.name).value) else Failed(p.name)
    case Lookup(_) =>
      if p.host.id !in s.conns then Dialing(p.name, p.list, p.host)
      else if Live(s, p.host.id) then Answered(p.name, p.list, p.host, s.conns[p.host.id])
      else Evicting(p.name, s.conns[p.host.id])
    case CloseDead(_) => Failed(p.name)
    case DialReturns(_, ok) => if ok then Priming(p.name, p.list, p.host, s.next) else Failed(p.name)
    case PrimeReturns(_, ok) => if ok then Dialled(p.name, p.list, p.host, p.c) else Failed(p.name)
    case Recheck(_) =>
      if Live(s, p.host.id) then Spare(p.name, p.list, p.host, p.c, s.conns[p.host.id])
      else Answered(p.name, p.list, p.host, p.c)
    case CloseSpare(_) => Answered(p.name, p.list, p.host, p.kept)
  }

  function NextCalls(s: State, l: Label): map<nat, Phase>
    requires Enabled(s, l)
  {
    if l.Call? then s.calls[l.k := Resolving(l.name)]
    else if OfCall(l) then s.calls[l.k := NextPhase(s, s.calls[l.k], l)]
    else s.calls
  }

  /** The connection this step closes. */
  function Closes(s: State, l: Label): Option<Conn>
    requires Enabled(s, l)
  {
    match l
    case CloseDead(k) => Some(s.calls[k].c)
    case PrimeReturns(k, ok) => if ok then None else Some(s.calls[k].c)
    case CloseSpare(k) => Some(s.calls[k].c)
    case CloseOne(_, c) => Some(c)
    case _ => None
  }

  function NextClients(s: State, l: Label): map<Conn, Client>
    requires Enabled(s, l)
  {
    if l.DialReturns? && l.ok then s.clients[s.next := Client(s.calls[l.k].host.id, false, false)]
    else if l.Dies? then s.clients[l.c := s.clients[l.c].(dead := true)]
    else if Closes(s, l).Some? && Closes(s, l).value in s.clients
    then s.clients[Closes(s, l).value := s.clients[Closes(s, l).value].(closed := true)]
    else s.clients
  }

  function NextConns(s: State, l: Label): map<string, Conn>
    requires Enabled(s, l)
  {
    match l
    case Lookup(k) => if Live(s, s.calls[k].host.id) then s.conns else s.conns - {s.calls[k].host.id}
    case Recheck(k) => if Live(s, s.calls[k].host.id) then s.conns else s.conns[s.calls[k].host.id := s.calls[k].c]
    case CloseAll(_) => map[]
    case _ => s.conns
  }

  function NextClosing(s: State, l: Label): map<nat, set<Conn>>
    requires Enabled(s, l)
  {
    match l
    case CloseAll(k) => s.closing[k := s.conns.Values]
    case CloseOne(k, c) => s.closing[k := s.closing[k] - {c}]
    case _ => s.closing
  }

  function Apply(s: State, l: Label): State
    requires Enabled(s, l)
  {
    State(s.wired, if l.StoreHosts? then s.calls[l.k].list else s.hosts,
          if l.DiscoverReturns? && l.list.Some? then s.seen + {l.list.value} else s.seen,
          NextConns(s, l), NextClients(s, l), if l.DialReturns? && l.ok then s.next + 1 else s.next,
          NextCalls(s, l), NextClosing(s, l))
  }

  function Initial(wired: bool): State {
    State(wired, [], {}, map[], map[], 0, map[], map[])
  }

  ghost predicate IsRun(states: seq<State>, labels: seq<Label>) {
    && |states| == |labels| + 1 && states[0] == Initial(states[0].wired)
    && forall i :: 0 <= i < |labels| ==> Enabled(states[i], labels[i]) && states[i + 1] == Apply(states[i], labels[i])
  }

  // ---------------------------------------------------------------- invariants

  predicate IsClient(s: State, c: Conn, hostId: string) {
    c in s.clients && s.clients[c].hostId == hostId
  }

  /** A resolved call carries a host its name matched in a list that some discovery returned. */
  predicate Resolved(s: State, name: string, list: seq<HostRef>, host: HostRef) {
    Match(list, name) == Some(host) && list in s.seen
  }

  predicate PhaseOk(s: State, p: Phase) {
    match p
    case Storing(_, list) => list in s.seen
    case Looking(name, list, host) => Resolved(s, name, list, host)
    case Evicting(_, c) => c in s.clients
    case Dialing(name, list, host) => Resolved(s, name, list, host)
    case Priming(name, list, host, c) => Resolved(s, name, list, host) && IsClient(s, c, host.id)
    case Dialled(name, list, host, c) => Resolved(s, name, list, host) && IsClient(s, c, host.id)
    case Spare(name, list, host, c, kept) => Resolved(s, name, list, host) && IsClient(s, c, host.id)
      && IsClient(s, kept, host.id)
    case Answered(name, list, host, c) => Resolved(s, name, list, host) && IsClient(s, c, host.id)
    case _ => true
  }

  ghost predicate Sound(s: State) {
    && (s.hosts == [] || s.hosts in s.seen)
    && (forall c :: c in s.clients ==> c < s.next)
    && (forall id :: id in s.conns ==> IsClient(s, s.conns[id], id))
    && (forall k :: k in s.calls ==> PhaseOk(s, s.calls[k]))
  }

  predicate Cached(s: State, c: Conn)
    requires c in s.clients
  {
    s.clients[c].hostId in s.conns && s.conns[s.clients[c].hostId] == c
  }

  /** The call still has the connection to itself and is not done with it. */
  predicate Holds(p: Phase, c: Conn) {
    (p.Evicting? || p.Priming? || p.Dialled? || p.Spare?) && p.c == c
  }

  ghost predicate HeldByCall(s: State, c: Conn) {
    exists k :: k in s.calls && Holds(s.calls[k], c)
  }

  ghost predicate HeldByClose(s: State, c: Conn) {
    exists k :: k in s.closing && c in s.closing[k]
  }

  predicate Gone(x: Client) {
    x.dead || x.closed
  }

  ghost predicate KeptAt(s: State, c: Conn)
    requires c in s.clients
  {
    Gone(s.clients[c]) || Cached(s, c) || HeldByCall(s, c) || HeldByClose(s, c)
  }

  ghost predicate Kept(s: State) {
    forall c :: c in s.clients ==> KeptAt(s, c)
  }

  lemma ClientStays(s: State, l: Label, c: Conn)
    requires Enabled(s, l) && c in s.clients && c < s.next
    ensures c in NextClients(s, l) && NextClients(s, l)[c].hostId == s.clients[c].hostId
    ensures Gone(s.clients[c]) ==> Gone(NextClients(s, l)[c])
  {
  }

  lemma OwnPhaseOk(s: State, l: Label)
    requires Sound(s) && Enabled(s, l) && OfCall(l)
    ensures PhaseOk(Apply(s, l), NextPhase(s, s.calls[l.k], l))
  {
    hide Match, NextConns, NextCalls, NextClosing, NextClients;
    NothingMatches(s.calls[l.k].name);
    assert PhaseOk(s, s.calls[l.k]);
    forall c | c in s.clients
      ensures c in NextClients(s, l) && NextClients(s, l)[c].hostId == s.clients[c].hostId
    { ClientStays(s, l, c); }
    if l.DialReturns? && l.ok { DialledClient(s, l); }
  }

  lemma NothingMatches(name: string)
    ensures Match([], name) == None
  {
  }

  lemma DialledClient(s: State, l: Label)
    requires Enabled(s, l) && l.DialReturns? && l.ok
    ensures IsClient(Apply(s, l), s.next, s.calls[l.k].host.id)
  {
  }

  lemma OtherPhaseOk(s: State, l: Label, p: Phase)
    requires Sound(s) && Enabled(s, l) && PhaseOk(s, p)
    ensures PhaseOk(Apply(s, l), p)
  {
    hide Match, NextConns, NextCalls, NextClosing, NextClients;
    forall c | c in s.clients
      ensures c in NextClients(s, l) && NextClients(s, l)[c].hostId == s.clients[c].hostId
    { ClientStays(s, l, c); }
  }

  lemma StepKeepsConns(s: State, l: Label)
    requires Sound(s) && Enabled(s, l)
    ensures var t := Apply(s, l); forall id :: id in t.conns ==> IsClient(t, t.conns[id], id)
  {
    hide Match, NextCalls, NextClosing, NextClients, NextPhase;
    forall c | c in s.clients
      ensures c in NextClients(s, l) && NextClients(s, l)[c].hostId == s.clients[c].hostId
    { ClientStays(s, l, c); }
    if l.Recheck? { assert PhaseOk(s, s.calls[l.k]); }
  }

  lemma StepKeepsSound(s: State, l: Label)
    requires Sound(s) && Enabled(s, l)
    ensures Sound(Apply(s, l))
  {
    hide Match, NextConns, NextClosing, NextPhase, PhaseOk, IsClient;
    var t := Apply(s, l);
    StepKeepsConns(s, l);
    StepKeepsHosts(s, l);
    forall k | k in t.calls ensures PhaseOk(t, t.calls[k]) {
      if l.Call? && l.k == k { NewCallOk(t, l.name); }
      else if OfCall(l) && l.k == k { OwnPhaseOk(s, l); }
      else { OtherPhaseOk(s, l, s.calls[k]); }
    }
  }

  lemma NewCallOk(t: State, name: string)
    ensures PhaseOk(t, Resolving(name))
  {
  }

  lemma StepKeepsHosts(s: State, l: Label)
    requires Sound(s) && Enabled(s, l)
    ensures Apply(s, l).hosts == [] || Apply(s, l).hosts in Apply(s, l).seen
  {
    if l.StoreHosts? { assert PhaseOk(s, s.calls[l.k]); }
  }

  lemma CachedGoes(s: State, l: Label, c: Conn)
    requires Sound(s) && Enabled(s, l) && c in s.clients && Cached(s, c) && !Gone(s.clients[c])
    ensures c in Apply(s, l).clients
    ensures (Cached(Apply(s, l), c) || (l.CloseAll? && l.k in Apply(s, l).closing && c in Apply(s, l).closing[l.k]))
  {
    hide Match, NextCalls, NextPhase, PhaseOk;
    ClientStays(s, l, c);
  }

  lemma HeldGoes(s: State, l: Label, c: Conn, k: nat)
    requires Sound(s) && Enabled(s, l) && c in s.clients && k in s.calls && Holds(s.calls[k], c)
    ensures c in Apply(s, l).clients
    ensures Gone(Apply(s, l).clients[c]) || Cached(Apply(s, l), c)
      || (k in Apply(s, l).calls && Holds(Apply(s, l).calls[k], c))
  {
    hide Match, NextClosing;
    ClientStays(s, l, c);
    assert PhaseOk(s, s.calls[k]);
  }

  lemma ClosingGoes(s: State, l: Label, c: Conn, k: nat)
    requires Sound(s) && Enabled(s, l) && c in s.clients && k in s.closing && c in s.closing[k]
    ensures var t := Apply(s, l); c in t.clients && (Gone(t.clients[c]) || (k in t.closing && c in t.closing[k]))
  {
    hide Match, NextCalls, NextPhase, NextConns;
    ClientStays(s, l, c);
  }

  lemma NewGoes(s: State, l: Label, c: Conn)
    requires Enabled(s, l) && c in NextClients(s, l) && c !in s.clients
    ensures l.k in Apply(s, l).calls && Holds(Apply(s, l).calls[l.k], c)
  {
    hide Match, NextConns, NextClosing;
  }

  lemma StepKeepsKept(s: State, l: Label)
    requires Sound(s) && Kept(s) && Enabled(s, l)
    ensures Kept(Apply(s, l))
  {
    hide Match, NextCalls, NextConns, NextClosing, NextClients, NextPhase, Cached, Holds, Gone, PhaseOk, IsClient,
      Enabled;
    var t := Apply(s, l);
    forall c | c in t.clients ensures KeptAt(t, c) {
      if c !in s.clients {
        NewGoes(s, l, c);
      } else {
        assert KeptAt(s, c);
        ClientStays(s, l, c);
        if Gone(s.clients[c]) {
        } else if Cached(s, c) {
          CachedGoes(s, l, c);
        } else if HeldByCall(s, c) {
          var k :| k in s.calls && Holds(s.calls[k], c);
          HeldGoes(s, l, c, k);
        } else {
          var k :| k in s.closing && c in s.closing[k];
          ClosingGoes(s, l, c, k);
        }
      }
    }
  }

  lemma {:induction false} RunKeeps(states: seq<State>, labels: seq<Label>, n: nat)
    requires IsRun(states, labels) && n < |states|
    ensures Sound(states[n]) && Kept(states[n])
  {
    if n > 0 {
      hide Enabled, Apply, Sound, Kept;
      RunKeeps(states, labels, n - 1);
      StepKeepsSound(states[n - 1], labels[n - 1]);
      StepKeepsKept(states[n - 1], labels[n - 1]);
    }
  }

  // ---------------------------------------------------------------- the pool itself

  /** What the invariant says of one host id and of one call. */
  lemma CachedFacts(s: State, id: string)
    requires Sound(s) && id in s.conns
    ensures IsClient(s, s.conns[id], id)
  {
  }

  lemma CallFacts(s: State, k: nat)
    requires Sound(s) && k in s.calls
    ensures PhaseOk(s, s.calls[k])
  {
  }

  lemma StepKeepsAll(s: State, l: Label)
    requires Sound(s) && Kept(s) && Enabled(s, l)
    ensures Sound(Apply(s, l)) && Kept(Apply(s, l))
  {
    hide Sound, Kept, Apply, Enabled;
    StepKeepsSound(s, l);
    StepKeepsKept(s, l);
  }

  /** The pool object. Its fields are those of the source, and where each call and each `closeAll`
      stands. A method is one critical section of a call or of `closeAll` and takes the step of that
      name. */
  class Machines {
    const wired: bool
    var hosts: seq<HostRef>
    var conns: map<string, Conn>
    var clients: map<Conn, Client>
    var calls: map<nat, Phase>
    var closing: map<nat, set<Conn>>
    var next: nat
    ghost var seen: set<seq<HostRef>>

    ghost function Now(): State
      reads this
    {
      State(wired, hosts, seen, conns, clients, next, calls, closing)
    }

    /** Every client is under its host's id, every resolved call has a host its name matched, and no
        connection is lost. */
    ghost predicate Valid()
      reads this
    {
      Sound(Now()) && Kept(Now())
    }

    constructor (wired: bool)
      ensures Valid() && Now() == Initial(wired)
    {
      this.wired, hosts, conns, clients, calls, closing, next, seen := wired, [], map[], map[], map[], map[], 0, {};
    }

    /** Resolution against the cached list: the host the name matches there, else discovery. */
    method ResolveCached(k: nat)
      requires Valid() && Enabled(Now(), ReadCache(k))
      modifies `calls
      ensures Valid() && Now() == Apply(old(Now()), ReadCache(k))
      ensures calls[k].Looking? ==> Names(hosts, old(calls[k]).name, calls[k].host)
      ensures calls[k].Looking? <==> wired && exists h :: Names(hosts, old(calls[k]).name, h)
    {
      hide Match, Sound, Kept, Names;
      StepKeepsAll(Now(), ReadCache(k));
      var name := calls[k].name;
      if !wired {
        calls := calls[k := Failed(name)];
        return;
      }
      var hit, ok := MatchIn(hosts, name);
      calls := calls[k := if ok then Looking(name, hosts, hit) else Discovering(name)];
    }

    /** A fresh list replaces the cache and is matched once more; a name it does not know fails. */
    method ResolveFresh(k: nat)
      requires Valid() && Enabled(Now(), StoreHosts(k))
      modifies `hosts, `calls
      ensures Valid() && Now() == Apply(old(Now()), StoreHosts(k)) && hosts == old(calls[k]).list
      ensures calls[k].Looking? ==> Names(hosts, old(calls[k]).name, calls[k].host)
      ensures calls[k].Failed? <==> !exists h :: Names(hosts, old(calls[k]).name, h)
    {
      hide Match, Sound, Kept, Names;
      StepKeepsAll(Now(), StoreHosts(k));
      var name, list := calls[k].name, calls[k].list;
      hosts := list;
      var hit, ok := MatchIn(list, name);
      calls := calls[k := if ok then Looking(name, list, hit) else Failed(name)];
    }

    /** The first critical section of `client`: an answer is a live connection cached under the id of
        the host the name matched; a dead one leaves the cache and fails this call; else it dials. */
    method LookupClient(k: nat)
      requires Valid() && Enabled(Now(), Lookup(k))
      modifies `conns, `calls
      ensures Valid() && Now() == Apply(old(Now()), Lookup(k))
      ensures var p, q := old(calls[k]), calls[k];
        && Names(p.list, p.name, p.host)
        && (q.Answered? ==> p.host.id in conns && conns[p.host.id] == q.c)
        && (q.Answered? ==> IsClient(Now(), q.c, p.host.id) && !clients[q.c].dead)
        && (q.Evicting? ==> q.c in clients && clients[q.c].dead && p.host.id !in conns)
        && (q.Dialing? ==> p.host.id !in old(conns))
        && (q.Answered? || q.Evicting? || q.Dialing?)
    {
      hide Match, Sound, Kept, Names;
      var p := calls[k];
      CallFacts(Now(), k);
      MatchMeans(p.list, p.name);
      if p.host.id in conns { CachedFacts(Now(), p.host.id); }
      StepKeepsAll(Now(), Lookup(k));
      if p.host.id in conns && clients[conns[p.host.id]].dead {
        var c := conns[p.host.id];
        conns := conns - {p.host.id};
        calls := calls[k := Evicting(p.name, c)];
      } else if p.host.id in conns {
        calls := calls[k := Answered(p.name, p.list, p.host, conns[p.host.id])];
      } else {
        assert conns - {p.host.id} == conns;
        calls := calls[k := Dialing(p.name, p.list, p.host)];
      }
    }

    /** The second: whichever connection this call will answer with is cached under its host's id and
        labelled with it, and a live one that was cached meanwhile is not replaced. */
    method KeepOrDiscard(k: nat)
      requires Valid() && Enabled(Now(), Recheck(k))
      modifies `conns, `calls
      ensures Valid() && Now() == Apply(old(Now()), Recheck(k))
      ensures var p, q := old(calls[k]), calls[k];
        && (q.Spare? || q.Answered?)
        && (var c := if q.Spare? then q.kept else q.c;
            p.host.id in conns && conns[p.host.id] == c && IsClient(Now(), c, p.host.id))
        && (q.Spare? ==> conns == old(conns) && !clients[q.kept].dead && q.c == p.c)
        && (q.Answered? ==> q.c == p.c && (p.host.id in old(conns) ==> clients[old(conns[p.host.id])].dead))
    {
      hide Match, Sound, Kept;
      var p := calls[k];
      CallFacts(Now(), k);
      if p.host.id in conns { CachedFacts(Now(), p.host.id); }
      StepKeepsAll(Now(), Recheck(k));
      if p.host.id in conns && !clients[conns[p.host.id]].dead {
        calls := calls[k := Spare(p.name, p.list, p.host, p.c, conns[p.host.id])];
      } else {
        conns := conns[p.host.id := p.c];
        calls := calls[k := Answered(p.name, p.list, p.host, p.c)];
      }
    }

    /** The critical section of `closeAll`: take every connection out of the map, one by one. */
    method TakeAll(k: nat)
      requires Valid() && Enabled(Now(), CloseAll(k))
      modifies `conns, `closing
      ensures Valid() && Now() == Apply(old(Now()), CloseAll(k))
      ensures conns == map[] && k in closing && closing[k] == old(conns.Values)
    {
      hide NextPhase, Match, Sound, Kept;
      StepKeepsAll(Now(), CloseAll(k));
      var taken := EmptyConns();
      closing := closing[k := taken];
    }

    method EmptyConns() returns (taken: set<Conn>)
      modifies `conns
      ensures conns == map[] && taken == old(conns.Values)
    {
      taken := {};
      while conns != map[]
        invariant taken + conns.Values == old(conns.Values)
        decreases |conns|
      {
        var id :| id in conns;
        assert conns.Values == {conns[id]} + (conns - {id}).Values by { ValuesSplit(conns, id); }
        taken := taken + {conns[id]};
        conns := conns - {id};
      }
      assert conns.Values == {};
      assert taken == taken + conns.Values;
    }

    /** The rest of `closeAll`, when nothing else runs meanwhile: every connection taken is closed. */
    method CloseTaken(k: nat)
      requires Valid() && k in closing
      modifies `clients, `closing
      ensures Valid() && k in closing && closing[k] == {}
      ensures clients.Keys == old(clients.Keys)
      ensures forall c :: c in old(closing[k]) && c in clients ==> clients[c].closed
      ensures forall c :: c in clients && c !in old(closing[k]) ==> clients[c] == old(clients[c])
    {
      hide Match, Sound, Kept;
      while closing[k] != {}
        invariant Valid() && k in closing && closing[k] <= old(closing[k]) && clients.Keys == old(clients.Keys)
        invariant forall c :: c in old(closing[k]) && c !in closing[k] && c in clients ==> clients[c].closed
        invariant forall c :: c in clients && c !in old(closing[k]) ==> clients[c] == old(clients[c])
        decreases |closing[k]|
      {
        var c :| c in closing[k];
        CloseNext(k, c);
      }
    }

    method CloseNext(k: nat, c: Conn)
      requires Valid() && k in closing && c in closing[k]
      modifies `clients, `closing
      ensures Valid() && Now() == Apply(old(Now()), CloseOne(k, c))
      ensures closing == old(closing)[k := old(closing)[k] - {c}]
      ensures clients == if c in old(clients) then old(clients)[c := old(clients)[c].(closed := true)] else old(clients)
    {
      hide Match, Sound, Kept;
      StepKeepsAll(Now(), CloseOne(k, c));
      if c in clients { clients := clients[c := clients[c].(closed := true)]; }
      closing := closing[k := closing[k] - {c}];
    }
  }

  lemma ValuesSplit(m: map<string, Conn>, id: string)
    requires id in m
    ensures m.Values == {m[id]} + (m - {id}).Values
  {
    forall c | c in m.Values ensures c == m[id] || c in (m - {id}).Values {
      var x :| x in m && m[x] == c;
      if x != id { assert x in m - {id} && (m - {id})[x] == c; }
    }
    forall c | c in (m - {id}).Values ensures c in m.Values {
      var x :| x in m - {id} && (m - {id})[x] == c;
      assert x in m && m[x] == c;
    }
  }

  // ---------------------------------------------------------------- results

  /** A call that answers gives a client labelled with a host that its name matched: by id, or by a
      display name no other host of that list has while no id equals the name. */
  lemma AnswerIsResolvedHost(states: seq<State>, labels: seq<Label>, n: nat, k: nat)
    requires IsRun(states, labels) && n < |states| && k in states[n].calls && states[n].calls[k].Answered?
    ensures var s := states[n]; var p := s.calls[k];
      && p.c in s.clients && s.clients[p.c].hostId == p.host.id
      && p.list in s.seen && Names(p.list, p.name, p.host)
  {
    RunKeeps(states, labels, n);
    assert PhaseOk(states[n], states[n].calls[k]);
    MatchMeans(states[n].calls[k].list, states[n].calls[k].name);
  }

  /** Every cached client is under its own host's id, and every connection ever dialled is cached,
      closed, dead, or in the hands of a call or of a shutdown still at work. */
  lemma NothingLeaks(states: seq<State>, labels: seq<Label>, n: nat)
    requires IsRun(states, labels) && n < |states|
    ensures var s := states[n];
      && (forall id :: id in s.conns ==> s.conns[id] in s.clients && s.clients[s.conns[id]].hostId == id)
      && (forall c :: c in s.clients ==>
            s.clients[c].dead || s.clients[c].closed || Cached(s, c) || HeldByCall(s, c) || HeldByClose(s, c))
  {
    RunKeeps(states, labels, n);
    hide IsRun, HeldByCall, HeldByClose, Cached;
    assert forall c :: c in states[n].clients ==> KeptAt(states[n], c);
    assert forall id :: id in states[n].conns ==> IsClient(states[n], states[n].conns[id], id);
  }

  /** When every call has returned and every shutdown has finished, each open connection is the one
      cached for its host: two callers never keep two live connections to one host. */
  lemma OneLivePerHost(states: seq<State>, labels: seq<Label>, n: nat, c: Conn, d: Conn)
    requires IsRun(states, labels) && n < |states|
    requires forall k :: k in states[n].calls ==> states[n].calls[k].Answered? || states[n].calls[k].Failed?
    requires forall k :: k in states[n].closing ==> states[n].closing[k] == {}
    requires c in states[n].clients && d in states[n].clients && !Gone(states[n].clients[c])
    requires !Gone(states[n].clients[d])
    requires states[n].clients[c].hostId == states[n].clients[d].hostId
    ensures c == d && Cached(states[n], c)
  {
    RunKeeps(states, labels, n);
    hide IsRun, Sound;
    assert KeptAt(states[n], c) && KeptAt(states[n], d);
  }
}
