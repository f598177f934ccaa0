/** What every handler keeps: the request lifecycle, one active command bound to the present
    control, the history quotas and the global byte budget. */
module BrowserInvariants {
  import opened Prelude
  import opened BrowserRegistry

  /** What a request may carry in each state of its life. */
  predicate Lifecycle(q: Request) {
    && (q.command.Some? && !Active(q) ==> q.command.value.text == q.command.value.selector == q.command.value.url == "")
    && (q.snapshot.Some? <==> q.status == Approved)
    && (q.result != "" ==> q.status == Completed || q.status == Failed)
    && (q.command.Some? ==> q.status != Approved && q.status != Denied)
    && (q.command.None? ==> q.status in {Pending, Approved, Denied, Expired})
  }

  function Snapshots(reqs: map<Id, Request>): set<Id> {
    set r | r in reqs && reqs[r].command.None?
  }

  function ActiveIds(reqs: map<Id, Request>): set<Id> {
    set r | r in reqs && Active(reqs[r])
  }

  /** At most one command is pending or running, and it belongs to the present control. */
  ghost predicate OneActive(c: Connection) {
    && |ActiveIds(c.requests)| <= 1
    && forall r :: r in ActiveIds(c.requests) ==> c.control.Some? && c.requests[r].controlId == c.control.value.id
  }

  ghost predicate Wellformed(k: Id, c: Connection) {
    c.id == k && forall r :: r in c.requests ==> c.requests[r].id == r && Lifecycle(c.requests[r])
  }

  ghost predicate Quotas(c: Connection) {
    |c.requests| <= HISTORY_LIMIT && |Snapshots(c.requests)| <= SNAPSHOT_LIMIT
  }

  ghost predicate ConnectionInv(k: Id, c: Connection) {
    Wellformed(k, c) && OneActive(c) && Quotas(c)
  }

  ghost predicate AllConnections(s: Reg) {
    forall k :: k in s.connections ==> ConnectionInv(k, s.connections[k])
  }

  ghost predicate Budget(s: Reg) {
    Retained(s.connections) <= RETAINED_LIMIT
  }

  ghost predicate Census(s: Reg) {
    |s.connections| <= 128 && forall owner :: |OwnedBy(s.connections, owner)| <= 8
  }

  ghost predicate Inv(s: Reg) {
    AllConnections(s) && Budget(s) && Census(s)
  }

  // ---------------------------------------------------------------- finite sets and byte counts

  lemma {:induction false} CardLe<T>(small: set<T>, big: set<T>)
    requires small <= big
    ensures |small| <= |big|
    decreases |small|
  {
    if small != {} {
      var x :| x in small;
      CardLe(small - {x}, big - {x});
    }
  }

  lemma MapCardLe<V>(small: map<Id, V>, big: map<Id, V>)
    requires small.Keys <= big.Keys
    ensures |small| <= |big|
  {
    CardLe(small.Keys, big.Keys);
    assert |small| == |small.Keys| && |big| == |big.Keys|;
  }

  lemma BytesLe(small: map<Id, Request>, big: map<Id, Request>)
    requires small.Keys <= big.Keys
    requires forall r :: r in small ==> |small[r].result| <= |big[r].result|
    ensures Bytes(small) <= Bytes(big)
  {
    SumMonotone(Sizes(small), Sizes(big));
  }

  ghost function Totals(conns: map<Id, Connection>): (m: map<Id, nat>)
    ensures Retained(conns) == Sum(m)
  {
    map k | k in conns :: Bytes(conns[k].requests)
  }

  lemma RetainedPut(conns: map<Id, Connection>, k: Id, c: Connection)
    ensures Retained(conns[k := c]) == Retained(conns - {k}) + Bytes(c.requests)
  {
    var m := Totals(conns[k := c]);
    SumRemove(m, k);
    assert m - {k} == Totals(conns - {k});
  }

  lemma RetainedLe(small: map<Id, Connection>, big: map<Id, Connection>)
    requires small.Keys <= big.Keys
    requires forall k :: k in small ==> Bytes(small[k].requests) <= Bytes(big[k].requests)
    ensures Retained(small) <= Retained(big)
  {
    SumMonotone(Totals(small), Totals(big));
  }

  lemma PutCensus(s: Reg, c: Connection)
    requires Census(s) && c.id in s.connections && c.owner == s.connections[c.id].owner
    ensures Census(Put(s, c))
  {
    var t := Put(s, c);
    assert t.connections.Keys == s.connections.Keys;
    MapCardLe(t.connections, s.connections);
    forall owner ensures |OwnedBy(t.connections, owner)| <= 8 {
      assert OwnedBy(t.connections, owner) == OwnedBy(s.connections, owner);
    }
  }

  lemma ShrinkCensus(s: Reg, t: Reg)
    requires Census(s) && t.connections.Keys <= s.connections.Keys
    requires forall k :: k in t.connections ==> t.connections[k].owner == s.connections[k].owner
    ensures Census(t)
  {
    MapCardLe(t.connections, s.connections);
    forall owner ensures |OwnedBy(t.connections, owner)| <= 8 {
      CardLe(OwnedBy(t.connections, owner), OwnedBy(s.connections, owner));
    }
  }

  /** Replacing a connection by one of the same owner within the byte budget. */
  lemma PutKeeps(s: Reg, c: Connection)
    requires Inv(s) && c.id in s.connections && ConnectionInv(c.id, c)
    requires c.owner == s.connections[c.id].owner
    requires Retained(s.connections - {c.id}) + Bytes(c.requests) <= RETAINED_LIMIT
    ensures Inv(Put(s, c))
  {
    hide ConnectionInv, Retained, Bytes;
    RetainedPut(s.connections, c.id, c);
    PutCensus(s, c);
  }

  lemma PutFewerBytes(s: Reg, c: Connection)
    requires Inv(s) && c.id in s.connections && ConnectionInv(c.id, c)
    requires c.owner == s.connections[c.id].owner
    requires Bytes(c.requests) <= Bytes(s.connections[c.id].requests)
    ensures Inv(Put(s, c))
  {
    hide ConnectionInv, Retained, Bytes, Census;
    RetainedPut(s.connections, c.id, s.connections[c.id]);
    assert s.connections[c.id := s.connections[c.id]] == s.connections;
    PutKeeps(s, c);
  }

  // ---------------------------------------------------------------- the shared state changes

  /** `d` comes from `c` by dropping or settling requests and keeping what is still active. */
  ghost predicate Derived(c: Connection, d: Connection) {
    && d.requests.Keys <= c.requests.Keys
    && Snapshots(d.requests) <= Snapshots(c.requests)
    && ActiveIds(d.requests) <= ActiveIds(c.requests)
    && (forall r :: r in ActiveIds(d.requests) ==> d.requests[r].controlId == c.requests[r].controlId)
    && (ActiveIds(d.requests) != {} ==> d.control == c.control)
  }

  lemma DerivedKeeps(k: Id, c: Connection, d: Connection)
    requires ConnectionInv(k, c) && Derived(c, d) && Wellformed(k, d)
    ensures ConnectionInv(k, d)
  {
    MapCardLe(d.requests, c.requests);
    CardLe(Snapshots(d.requests), Snapshots(c.requests));
    CardLe(ActiveIds(d.requests), ActiveIds(c.requests));
  }

  lemma PruneDerives(k: Id, c: Connection, now: Time)
    requires Wellformed(k, c)
    ensures Derived(c, PruneConnection(c, now)) && Wellformed(k, PruneConnection(c, now))
  {
    hide Lifecycle;
    forall q: Request | Lifecycle(q) ensures Lifecycle(ExpireRequest(q, now)) {
      ExpireKeepsLifecycle(q, now);
    }
  }

  lemma ExpireKeepsLifecycle(q: Request, now: Time)
    requires Lifecycle(q)
    ensures Lifecycle(ExpireRequest(q, now))
  {
  }

  lemma PruneConnectionKeeps(k: Id, c: Connection, now: Time)
    requires ConnectionInv(k, c)
    ensures ConnectionInv(k, PruneConnection(c, now))
    ensures Bytes(PruneConnection(c, now).requests) <= Bytes(c.requests)
    ensures PruneConnection(c, now).owner == c.owner
  {
    hide Bytes, OneActive, Quotas;
    PruneDerives(k, c, now);
    DerivedKeeps(k, c, PruneConnection(c, now));
    BytesLe(PruneConnection(c, now).requests, c.requests);
  }

  lemma PruneInv(s: Reg, now: Time)
    requires Inv(s)
    ensures Inv(Prune(s, now))
  {
    hide ConnectionInv, Retained, Bytes, Census, PruneConnection;
    var p := Prune(s, now);
    forall k | k in p.connections
      ensures ConnectionInv(k, p.connections[k])
      ensures Bytes(p.connections[k].requests) <= Bytes(s.connections[k].requests)
      ensures p.connections[k].owner == s.connections[k].owner
    {
      PruneConnectionKeeps(k, s.connections[k], now);
    }
    RetainedLe(p.connections, s.connections);
    ShrinkCensus(s, p);
  }

  /** Pruning keeps the invariant; it drops exactly the codes and connections whose time has come, and
      treats each request of the others by its age. */
  lemma PruneKeeps(s: Reg, now: Time)
    requires Inv(s)
    ensures Inv(Prune(s, now))
    ensures forall c :: c in Prune(s, now).pairings <==> c in s.pairings && now < s.pairings[c].expires
    ensures forall c :: c in Prune(s, now).pairings ==> Prune(s, now).pairings[c] == s.pairings[c]
    ensures forall k :: k in Prune(s, now).connections <==> k in s.connections && !Lapsed(s.connections[k], now)
    ensures forall k :: k in Prune(s, now).connections ==> Aged(s.connections[k], Prune(s, now).connections[k], now)
  {
    hide Inv, PruneConnection, Aged;
    PruneInv(s, now);
    forall k | k in Prune(s, now).connections ensures Aged(s.connections[k], Prune(s, now).connections[k], now) {
      PruneAges(s.connections[k], now);
    }
  }

  lemma PruneAges(c: Connection, now: Time)
    ensures Aged(c, PruneConnection(c, now), now)
  {
  }

  /** A connection keeps all but its requests. Of those it keeps the unexpired ones as they were, for five
      more minutes the expired ones without what they carried, and no older ones. */
  predicate Aged(c: Connection, d: Connection, now: Time) {
    && d.(requests := c.requests) == c
    && d.requests.Keys <= c.requests.Keys
    && forall r :: r in c.requests ==>
         && (r in d.requests <==> now <= c.requests[r].expires + 300)
         && (now < c.requests[r].expires ==> d.requests[r] == c.requests[r])
         && (c.requests[r].expires <= now && r in d.requests ==> RanOut(c.requests[r], d.requests[r]))
  }

  /** An expired request: no snapshot, no result, no input of its command. */
  predicate RanOut(q: Request, d: Request) {
    && d.status == Expired && d.snapshot.None? && d.result == "" && d.id == q.id && d.expires == q.expires
    && (d.command.Some? <==> q.command.Some?)
    && (d.command.Some? ==>
          && d.command.value.text == d.command.value.selector == d.command.value.url == ""
          && d.command.value.action == q.command.value.action)
  }

  /** A stop cancels exactly the active commands and takes their input away; every settled request
      stays as it was. */
  lemma StopSettles(k: Id, c: Connection)
    requires ConnectionInv(k, c)
    ensures ConnectionInv(k, StopControl(c))
    ensures StopControl(c).control.None? && !AnyActive(StopControl(c).requests)
    ensures StopControl(c).(control := c.control, requests := c.requests) == c
    ensures StopControl(c).requests.Keys == c.requests.Keys
    ensures forall r :: r in c.requests ==>
              if Active(c.requests[r]) then Stopped(c.requests[r], StopControl(c).requests[r])
              else StopControl(c).requests[r] == c.requests[r]
  {
    hide ConnectionInv, StopRequest, Active, AnyActive, Bytes, Stopped;
    StopInv(k, c);
    forall r | r in c.requests
      ensures if Active(c.requests[r]) then Stopped(c.requests[r], StopControl(c).requests[r])
              else StopControl(c).requests[r] == c.requests[r]
    {
      StopOne(c.requests[r]);
    }
  }

  lemma StopOne(q: Request)
    ensures if Active(q) then Stopped(q, StopRequest(q)) else StopRequest(q) == q
  {
  }

  /** A command cancelled by a stop: its text, selector and url are gone. */
  predicate Stopped(q: Request, d: Request) {
    && d.status == Cancelled && d.error == ControlStopped && d.id == q.id && d.result == q.result
    && d.expires == q.expires
    && d.command.Some? && d.command.value.text == d.command.value.selector == d.command.value.url == ""
    && q.command.Some? && d.command.value.action == q.command.value.action
  }

  /** After a stop nothing is active, whatever was pending or running before. */
  lemma StopInv(k: Id, c: Connection)
    requires ConnectionInv(k, c)
    ensures ConnectionInv(k, StopControl(c))
    ensures Bytes(StopControl(c).requests) <= Bytes(c.requests)
    ensures StopControl(c).control.None? && !AnyActive(StopControl(c).requests)
    ensures StopControl(c).id == c.id && StopControl(c).owner == c.owner
    ensures forall r :: r in c.requests && Active(c.requests[r]) ==> StopControl(c).requests[r].status == Cancelled
  {
    var d := StopControl(c);
    assert ActiveIds(d.requests) == {};
    DerivedKeeps(k, c, d);
    BytesLe(d.requests, c.requests);
  }

  lemma RemoveKeeps(s: Reg, k: Id)
    requires Inv(s)
    ensures Inv(s.(connections := s.connections - {k}))
  {
    hide ConnectionInv, Retained, Bytes, Census;
    var t := s.(connections := s.connections - {k});
    RetainedLe(t.connections, s.connections);
    ShrinkCensus(s, t);
  }

  /** One more request: it brings no result, and at most one more snapshot request. */
  lemma AddRequest(k: Id, c: Connection, q: Request)
    requires ConnectionInv(k, c)
    requires q.id !in c.requests && Lifecycle(q) && q.result == ""
    requires |c.requests| < HISTORY_LIMIT
    requires q.command.None? ==> |c.requests| < SNAPSHOT_LIMIT
    requires Active(q) ==> !AnyActive(c.requests) && c.control.Some? && q.controlId == c.control.value.id
    ensures ConnectionInv(k, c.(requests := c.requests[q.id := q]))
    ensures Bytes(c.requests[q.id := q]) == Bytes(c.requests)
  {
    hide Sum, Lifecycle, Quotas;
    var d := c.(requests := c.requests[q.id := q]);
    SumUpdate(Sizes(c.requests), q.id, 0);
    assert Sizes(d.requests) == Sizes(c.requests)[q.id := 0];
    AddRequestQuotas(c, d, q);
    AddRequestActive(c, q);
  }

  lemma AddRequestActive(c: Connection, q: Request)
    requires OneActive(c) && q.id !in c.requests
    requires Active(q) ==> !AnyActive(c.requests) && c.control.Some? && q.controlId == c.control.value.id
    ensures OneActive(c.(requests := c.requests[q.id := q]))
  {
    var d := c.(requests := c.requests[q.id := q]);
    if Active(q) {
      assert ActiveIds(d.requests) == {q.id};
    } else {
      assert ActiveIds(d.requests) == ActiveIds(c.requests);
    }
  }

  lemma AddRequestQuotas(c: Connection, d: Connection, q: Request)
    requires Quotas(c) && q.id !in c.requests && d.requests == c.requests[q.id := q]
    requires |c.requests| < HISTORY_LIMIT
    requires q.command.None? ==> |c.requests| < SNAPSHOT_LIMIT
    ensures Quotas(d)
  {
    assert d.requests.Keys == c.requests.Keys + {q.id};
    assert |d.requests| == |d.requests.Keys| && |c.requests| == |c.requests.Keys|;
    if q.command.None? {
      CardLe(Snapshots(d.requests), d.requests.Keys);
    } else {
      assert Snapshots(d.requests) == Snapshots(c.requests);
    }
  }

  /** Settling or moving on one request in place. */
  lemma ReplaceRequest(k: Id, c: Connection, q: Request)
    requires ConnectionInv(k, c) && q.id in c.requests && Lifecycle(q)
    requires q.command.Some? == c.requests[q.id].command.Some?
    requires |q.result| <= |c.requests[q.id].result|
    requires Active(q) ==> Active(c.requests[q.id]) && q.controlId == c.requests[q.id].controlId
    ensures ConnectionInv(k, c.(requests := c.requests[q.id := q]))
    ensures Bytes(c.requests[q.id := q]) <= Bytes(c.requests)
  {
    hide Bytes;
    DerivedKeeps(k, c, c.(requests := c.requests[q.id := q]));
    BytesLe(c.requests[q.id := q], c.requests);
  }

  // ---------------------------------------------------------------- history

  /** A full history with no active command always has a settled request to drop: at most 8 of
      its 64 entries are snapshot requests, and every other one has settled. */
  lemma FullHistoryHasSettled(k: Id, c: Connection)
    requires ConnectionInv(k, c) && !AnyActive(c.requests) && |c.requests| >= HISTORY_LIMIT
    ensures exists r :: r in c.requests && Terminal(c.requests[r].status)
  {
    assert |c.requests.Keys| == |c.requests|;
    if c.requests.Keys <= Snapshots(c.requests) {
      CardLe(c.requests.Keys, Snapshots(c.requests));
      assert false;
    }
    var r :| r in c.requests && r !in Snapshots(c.requests);
    assert !Active(c.requests[r]);
  }

  lemma TrimKeeps(k: Id, c: Connection, reqs: map<Id, Request>)
    requires ConnectionInv(k, c) && Trimmed(c.requests, reqs)
    ensures ConnectionInv(k, c.(requests := reqs))
    ensures |reqs| < HISTORY_LIMIT && Bytes(reqs) <= Bytes(c.requests)
    ensures forall r :: r in reqs ==> r in c.requests && reqs[r] == c.requests[r]
  {
    hide Bytes;
    if |c.requests| >= HISTORY_LIMIT {
      var victim :| Oldest(c.requests, victim) && reqs == c.requests - {victim};
      assert reqs.Keys == c.requests.Keys - {victim};
      assert |reqs| == |reqs.Keys| && |c.requests| == |c.requests.Keys|;
    }
    BytesLe(reqs, c.requests);
    DerivedKeeps(k, c, c.(requests := reqs));
  }

  /** The "Browser history full" reply cannot happen. */
  lemma HistoryNeverFull(s: Reg, now: Time, later: Time, op: Op, t: Reg, resp: Response)
    requires Inv(s) && Next(s, now, later, op, t, resp)
    ensures resp != HistoryFull
  {
    hide ConnectionInv, Budget, Census, Prune, AnyActive;
    if op.CreateCommand? && op.owner != "" && ValidCommand(op.reason, op.command) {
      PruneInv(s, now);
      var p := Prune(s, now);
      if Owns(p, op.conn, op.owner) {
        var c := p.connections[op.conn];
        if c.control.Some? && !AnyActive(c.requests) && |c.requests| >= HISTORY_LIMIT {
          FullHistoryHasSettled(op.conn, c);
        }
      }
    }
  }

  // ---------------------------------------------------------------- the byte budget

  /** Eviction brings the kept results down until the new one fits, or to nothing. */
  lemma RoomOrNothing(before: map<Id, Request>, after: map<Id, Request>, others: nat, size: nat)
    requires MadeRoom(before, after, others, size)
    ensures Bytes(after) <= Bytes(before)
    ensures others + Bytes(after) + size <= RETAINED_LIMIT || Bytes(after) == 0
  {
    BytesLe(after, before);
    if others + Bytes(after) + size > RETAINED_LIMIT {
      SumZero(Sizes(after));
    }
  }

  /** A result that fits already evicts nothing. */
  lemma NoNeedlessEviction(before: map<Id, Request>, after: map<Id, Request>, others: nat, size: nat)
    requires MadeRoom(before, after, others, size)
    requires others + Bytes(before) + size <= RETAINED_LIMIT
    ensures after == before
  {
    hide Bytes;
    if Evicted(before, after) != {} {
      var last :| last in Evicted(before, after)
        && others + Bytes(after) + |before[last].result| + size > RETAINED_LIMIT;
      BytesWithout(before, after, last);
      assert false;
    }
    forall r | r in before ensures after[r] == before[r] {
      assert r !in Evicted(before, after);
    }
  }

  /** Dropping an evicted result frees at least its bytes. */
  lemma BytesWithout(before: map<Id, Request>, after: map<Id, Request>, last: Id)
    requires after.Keys == before.Keys && last in before && |after[last].result| == 0
    requires forall r :: r in after ==> |after[r].result| <= |before[r].result|
    ensures Bytes(after) + |before[last].result| <= Bytes(before)
  {
    hide Sum;
    SumRemove(Sizes(after), last);
    SumRemove(Sizes(before), last);
    SumMonotone(Sizes(after) - {last}, Sizes(before) - {last});
  }

  ghost predicate DistinctExpiries(reqs: map<Id, Request>) {
    forall r, r' :: r in reqs && r' in reqs && reqs[r].expires == reqs[r'].expires ==> r == r'
  }

  /** With distinct expiries the two conditions on eviction, oldest first and no more than
      needed, leave exactly one outcome. */
  lemma EvictionDetermined(before: map<Id, Request>, one: map<Id, Request>, two: map<Id, Request>, others: nat,
      size: nat)
    requires MadeRoom(before, one, others, size) && MadeRoom(before, two, others, size)
    requires DistinctExpiries(before)
    ensures one == two
  {
    EvictsNoMore(before, one, two, others, size);
    EvictsNoMore(before, two, one, others, size);
    SameEvictionSameOutcome(before, one, two);
  }

  lemma SameEvictionSameOutcome(before: map<Id, Request>, one: map<Id, Request>, two: map<Id, Request>)
    requires OnlyEvicts(before, one) && OnlyEvicts(before, two)
    requires Evicted(before, one) == Evicted(before, two)
    ensures one == two
  {
    forall r | r in before ensures one[r] == two[r] {
      assert r in Evicted(before, one) <==> r in Evicted(before, two);
    }
  }

  /** Evictions are nested: what `two` evicts while keeping x, `one` evicts too. */
  lemma EvictsPrefix(before: map<Id, Request>, one: map<Id, Request>, two: map<Id, Request>, others: nat, size: nat,
      x: Id, e: Id)
    requires MadeRoom(before, one, others, size) && MadeRoom(before, two, others, size)
    requires DistinctExpiries(before)
    requires x in Evicted(before, one) && x !in Evicted(before, two) && e in Evicted(before, two)
    ensures e in Evicted(before, one) && before[e].expires < before[x].expires
  {
    assert two[x] == before[x];
    assert before[e].expires <= before[x].expires;
    if e !in Evicted(before, one) {
      assert false;
    }
  }

  lemma EvictsNoMore(before: map<Id, Request>, one: map<Id, Request>, two: map<Id, Request>, others: nat, size: nat)
    requires MadeRoom(before, one, others, size) && MadeRoom(before, two, others, size)
    requires DistinctExpiries(before)
    ensures Evicted(before, one) <= Evicted(before, two)
  {
    hide Bytes;
    forall x | x in Evicted(before, one) ensures x in Evicted(before, two) {
      if x !in Evicted(before, two) {
        var last :| last in Evicted(before, one)
          && (forall e :: e in Evicted(before, one) ==> before[e].expires <= before[last].expires)
          && others + Bytes(one) + |before[last].result| + size > RETAINED_LIMIT;
        forall e | e in Evicted(before, two) ensures e in Evicted(before, one) && e != last {
          EvictsPrefix(before, one, two, others, size, x, e);
        }
        SmallerEvictionKeepsMore(before, one, two, last);
        assert false;
      }
    }
  }

  lemma SmallerEvictionKeepsMore(before: map<Id, Request>, one: map<Id, Request>, two: map<Id, Request>, last: Id)
    requires OnlyEvicts(before, one) && OnlyEvicts(before, two)
    requires Evicted(before, two) <= Evicted(before, one) - {last} && last in Evicted(before, one)
    ensures Bytes(one) + |before[last].result| <= Bytes(two)
  {
    assert two[last] == before[last];
    forall r | r in before ensures |one[r].result| <= |two[r].result| {
      assert r in Evicted(before, two) ==> r in Evicted(before, one);
    }
    BytesWithout(two, one, last);
  }

  /** The connection after a result was taken, for any eviction among its other results. */
  lemma FinishedConnection(k: Id, c: Connection, req: Id, after: map<Id, Request>, fits: bool, result: string,
      error: string)
    requires ConnectionInv(k, c) && Authorized(c, req, Running)
    requires OnlyEvicts(c.requests[req := ClearInput(c.requests[req].(status := Completed))], after)
    ensures ConnectionInv(k, c.(requests := after[req := Finished(after[req], fits, result, error)]))
  {
    hide Lifecycle, Quotas;
    var d := c.(requests := after[req := Finished(after[req], fits, result, error)]);
    assert d.requests.Keys == c.requests.Keys;
    FinishedLifecycles(k, c, req, after, fits, result, error);
    DerivedKeeps(k, c, d);
  }

  lemma FinishedLifecycles(k: Id, c: Connection, req: Id, after: map<Id, Request>, fits: bool, result: string,
      error: string)
    requires Wellformed(k, c) && Authorized(c, req, Running)
    requires OnlyEvicts(c.requests[req := ClearInput(c.requests[req].(status := Completed))], after)
    ensures Wellformed(k, c.(requests := after[req := Finished(after[req], fits, result, error)]))
  {
    hide Lifecycle, Finished;
    var before := c.requests[req := ClearInput(c.requests[req].(status := Completed))];
    FinishedLifecycle(c.requests[req], fits, result, error);
    FinishedLifecycle(c.requests[req], false, "", error);
    forall r | r in before ensures r != req ==> after[r].id == r && Lifecycle(after[r]) {
      if r != req { EvictedLifecycle(before[r], after[r]); }
    }
  }

  lemma FinishedLifecycle(q: Request, fits: bool, result: string, error: string)
    requires Lifecycle(q) && q.command.Some? && q.status == Running
    ensures |q.result| == 0
    ensures var done := ClearInput(q.(status := Completed));
      Lifecycle(Finished(done, fits, result, error)) && Finished(done, fits, result, error).id == q.id
  {
  }

  lemma EvictedLifecycle(q: Request, kept: Request)
    requires Lifecycle(q) && (kept == q || kept == q.(result := "", error := ResultEvicted))
    ensures Lifecycle(kept)
  {
  }

  lemma FinishedBytes(c: Connection, req: Id, after: map<Id, Request>, others: nat, result: string, error: string)
    requires req in c.requests && |c.requests[req].result| == 0
    requires MadeRoom(c.requests[req := ClearInput(c.requests[req].(status := Completed))], after, others, |result|)
    requires others + Bytes(c.requests) <= RETAINED_LIMIT
    ensures var fits := others + Bytes(after) + |result| <= RETAINED_LIMIT;
            others + Bytes(after[req := Finished(after[req], fits, result, error)]) <= RETAINED_LIMIT
  {
    hide Sum;
    var before := c.requests[req := ClearInput(c.requests[req].(status := Completed))];
    assert Sizes(before) == Sizes(c.requests);
    RoomOrNothing(before, after, others, |result|);
    var fits := others + Bytes(after) + |result| <= RETAINED_LIMIT;
    var q := Finished(after[req], fits, result, error);
    SumUpdate(Sizes(after), req, |q.result|);
    assert Sizes(after[req := q]) == Sizes(after)[req := |q.result|];
  }

  lemma PostResultKeeps(s: Reg, now: Time, op: Op, t: Reg, resp: Response)
    requires Inv(s) && op.PostResult? && PostResultNext(s, now, op, t, resp)
    ensures Inv(t)
  {
    hide Inv, ConnectionInv, Retained, Bytes, Prune, Finished, ClearInput, MadeRoom;
    PruneInv(s, now);
    var p := Prune(s, now);
    if resp == ResultAccepted {
      var c := p.connections[op.conn];
      var others := Retained(p.connections - {op.conn});
      var before := c.requests[op.req := ClearInput(c.requests[op.req].(status := Completed))];
      var after :| MadeRoom(before, after, others, |op.result|) && op.req in after &&
        var fits := others + Bytes(after) + |op.result| <= RETAINED_LIMIT;
        t == Put(p, c.(requests := after[op.req := Finished(after[op.req], fits, op.result, op.error)]));
      TakeResult(p, op, c, after);
    }
  }

  lemma TakeResult(p: Reg, op: Op, c: Connection, after: map<Id, Request>)
    requires Inv(p) && op.PostResult? && op.conn in p.connections && c == p.connections[op.conn]
    requires Authorized(c, op.req, Running) && op.req in after
    requires MadeRoom(c.requests[op.req := ClearInput(c.requests[op.req].(status := Completed))], after,
                      Retained(p.connections - {op.conn}), |op.result|)
    ensures var fits := Retained(p.connections - {op.conn}) + Bytes(after) + |op.result| <= RETAINED_LIMIT;
            Inv(Put(p, c.(requests := after[op.req := Finished(after[op.req], fits, op.result, op.error)])))
  {
    hide Retained, Bytes, Finished;
    var others := Retained(p.connections - {op.conn});
    var fits := others + Bytes(after) + |op.result| <= RETAINED_LIMIT;
    FinishedConnection(op.conn, c, op.req, after, fits, op.result, op.error);
    assert others + Bytes(c.requests) <= RETAINED_LIMIT by {
      RetainedPut(p.connections, op.conn, c);
      assert p.connections[op.conn := c] == p.connections;
    }
    assert |c.requests[op.req].result| == 0;
    FinishedBytes(c, op.req, after, others, op.result, op.error);
    PutKeeps(p, c.(requests := after[op.req := Finished(after[op.req], fits, op.result, op.error)]));
  }

  // ---------------------------------------------------------------- every handler

  /** The names this call may introduce; the random generator never repeats one. */
  function Nonce(op: Op): set<Id> {
    match op
    case SetControl(_, _, _, _, _, n) => if n.Some? then {n.value} else {}
    case CreateCommand(_, _, _, _, n) => if n.Some? then {n.value} else {}
    case CreatePairing(_, n) => if n.Some? then {n.value} else {}
    case Claim(_, _, _, n) => if n.Some? then {n.value} else {}
    case AskSnapshot(_, _, _, n) => if n.Some? then {n.value} else {}
    case _ => {}
  }

  ghost predicate FreshFor(s: Reg, n: Id) {
    n !in s.connections && forall k :: k in s.connections ==> n !in s.connections[k].requests
  }

  lemma FreshAfterPrune(s: Reg, now: Time, n: Id)
    requires FreshFor(s, n)
    ensures FreshFor(Prune(s, now), n)
  {
  }

  lemma CreateCommandKeeps(s: Reg, now: Time, later: Time, op: Op, t: Reg, resp: Response)
    requires Inv(s) && op.CreateCommand? && CreateCommandNext(s, now, later, op, t, resp)
    requires forall n :: n in Nonce(op) ==> FreshFor(s, n)
    ensures Inv(t)
  {
    hide Inv, Prune, AnyActive, Trimmed, NewCommand, FreshFor;
    PruneInv(s, now);
    var p := Prune(s, now);
    if resp == ServerError || resp.Accepted? {
      var c := p.connections[op.conn];
      var reqs :| Trimmed(c.requests, reqs) &&
        if op.nonce.None? then t == Put(p, c.(requests := reqs))
        else t == PutRequest(p, c.(requests := reqs), NewCommand(op, c, later));
      if op.nonce.Some? { FreshAfterPrune(s, now, op.nonce.value); }
      EnterCommand(p, op, later, c, reqs);
    }
  }

  lemma EnterCommand(p: Reg, op: Op, later: Time, c: Connection, reqs: map<Id, Request>)
    requires Inv(p) && op.CreateCommand? && op.conn in p.connections && c == p.connections[op.conn]
    requires c.control.Some? && !AnyActive(c.requests) && Trimmed(c.requests, reqs)
    requires op.nonce.Some? ==> FreshFor(p, op.nonce.value)
    ensures op.nonce.None? ==> Inv(Put(p, c.(requests := reqs)))
    ensures op.nonce.Some? ==> Inv(PutRequest(p, c.(requests := reqs), NewCommand(op, c, later)))
  {
    hide Bytes, Budget, Census, Trimmed, Active;
    TrimKeeps(op.conn, c, reqs);
    var d := c.(requests := reqs);
    if op.nonce.None? {
      PutFewerBytes(p, d);
    } else {
      var q := NewCommand(op, c, later);
      assert !AnyActive(reqs);
      assert Lifecycle(q) && Active(q) by { assert q.status == Pending; NewCommandActive(op, c, later); }
      AddRequest(op.conn, d, q);
      PutFewerBytes(p, d.(requests := reqs[q.id := q]));
    }
  }

  lemma NewCommandActive(op: Op, c: Connection, later: Time)
    requires op.CreateCommand? && op.nonce.Some? && c.control.Some?
    ensures Active(NewCommand(op, c, later)) && Lifecycle(NewCommand(op, c, later))
  {
  }

  lemma ClaimKeeps(s: Reg, now: Time, later: Time, op: Op)
    requires Inv(s) && op.Claim?
    requires forall n :: n in Nonce(op) ==> FreshFor(s, n)
    ensures Inv(ClaimStep(s, now, later, op).0)
  {
    hide Inv, Prune;
    PruneInv(s, now);
    var p := Prune(s, now);
    var (t, resp) := ClaimStep(s, now, later, op);
    if resp.Claimed? {
      FreshAfterPrune(s, now, op.nonce.value);
      InvIgnoresPairings(p, p.pairings - {op.code});
      AddConnection(p.(pairings := p.pairings - {op.code}), t.connections[op.nonce.value]);
    }
  }

  lemma AddConnection(p: Reg, c: Connection)
    requires Inv(p)
    requires c.id !in p.connections && c.requests == map[]
    requires |OwnedBy(p.connections, c.owner)| < 8 && |p.connections| < 128
    ensures Inv(Put(p, c))
  {
    hide Census, Retained, Bytes, ConnectionInv;
    RetainedPut(p.connections, c.id, c);
    assert p.connections - {c.id} == p.connections;
    EmptyConnectionInv(c);
    AddCensus(p, c);
  }

  lemma AddCensus(p: Reg, c: Connection)
    requires Census(p) && c.id !in p.connections
    requires |OwnedBy(p.connections, c.owner)| < 8 && |p.connections| < 128
    ensures Census(Put(p, c))
  {
    hide OwnedBy;
    var t := Put(p, c);
    assert t.connections.Keys == p.connections.Keys + {c.id};
    assert |t.connections| == |t.connections.Keys| && |p.connections| == |p.connections.Keys|;
    forall o ensures |OwnedBy(t.connections, o)| <= 8 {
      OwnedByAdded(p, c, o);
    }
  }

  lemma OwnedByAdded(p: Reg, c: Connection, o: string)
    requires c.id !in p.connections
    ensures OwnedBy(Put(p, c).connections, o) == OwnedBy(p.connections, o) + if o == c.owner then {c.id} else {}
  {
  }

  lemma EmptyConnectionInv(c: Connection)
    requires c.requests == map[]
    ensures ConnectionInv(c.id, c) && Bytes(c.requests) == 0
  {
    assert Snapshots(c.requests) == {} && ActiveIds(c.requests) == {};
    SumZero(Sizes(c.requests));
  }

  lemma InvIgnoresPairings(s: Reg, pairings: map<Id, Pairing>)
    requires Inv(s)
    ensures Inv(s.(pairings := pairings))
  {
    hide ConnectionInv, Retained;
  }

  /** One request replaced in place, as start and the snapshot answer do. */
  lemma ReplaceKeeps(p: Reg, conn: Id, q: Request)
    requires Inv(p) && conn in p.connections
    requires var reqs := p.connections[conn].requests;
             && q.id in reqs && Lifecycle(q)
             && q.command.Some? == reqs[q.id].command.Some?
             && |q.result| <= |reqs[q.id].result|
             && (Active(q) ==> Active(reqs[q.id]) && q.controlId == reqs[q.id].controlId)
    ensures Inv(PutRequest(p, p.connections[conn], q))
  {
    hide Bytes, Budget, Census, Active, Lifecycle, OneActive, Quotas;
    var c := p.connections[conn];
    ReplaceRequest(conn, c, q);
    PutFewerBytes(p, c.(requests := c.requests[q.id := q]));
  }

  lemma AnswerSnapshotKeeps(s: Reg, now: Time, op: Op)
    requires Inv(s) && op.AnswerSnapshot?
    ensures Inv(AnswerSnapshotStep(s, now, op).0)
  {
    hide Budget, Census, OneActive, Quotas, Prune;
    PruneInv(s, now);
    var p := Prune(s, now);
    var (t, resp) := AnswerSnapshotStep(s, now, op);
    if resp == Done {
      var q := p.connections[op.conn].requests[op.req];
      assert Wellformed(op.conn, p.connections[op.conn]);
      ReplaceKeeps(p, op.conn,
        if op.approved then q.(status := Approved, snapshot := op.snapshot) else q.(status := Denied));
    }
  }

  lemma StartKeeps(s: Reg, now: Time, op: Op)
    requires Inv(s) && op.StartCommand?
    ensures Inv(StartStep(s, now, op).0)
  {
    hide Budget, Census, OneActive, Quotas, Prune;
    PruneInv(s, now);
    var p := Prune(s, now);
    var (t, resp) := StartStep(s, now, op);
    if resp.Started? {
      assert Wellformed(op.conn, p.connections[op.conn]);
      ReplaceKeeps(p, op.conn, resp.request);
    }
  }

  lemma OneConnection(s: Reg, k: Id)
    requires Inv(s) && k in s.connections
    ensures ConnectionInv(k, s.connections[k]) && s.connections[k].id == k
  {
  }

  lemma SetControlKeeps(s: Reg, now: Time, op: Op)
    requires Inv(s) && op.SetControl?
    ensures Inv(SetControlStep(s, now, op).0)
  {
    hide Inv, Bytes, Prune, StopControl, HttpOrigin, ConnectionInv, AnyActive;
    PruneInv(s, now);
    var p := Prune(s, now);
    var (t, resp) := SetControlStep(s, now, op);
    if resp != Unauthorized {
      OneConnection(p, op.conn);
      StopInv(op.conn, p.connections[op.conn]);
      var stopped := StopControl(p.connections[op.conn]);
      var control := if resp.ControlSet? then resp.control else None;
      NewControl(op.conn, stopped, control);
      PutFewerBytes(p, stopped.(control := control));
      assert stopped.(control := None) == stopped;
      assert t == Put(p, stopped.(control := control));
    }
  }

  /** With nothing active the control may be anything. */
  lemma NewControl(k: Id, c: Connection, control: Option<Control>)
    requires ConnectionInv(k, c) && !AnyActive(c.requests)
    ensures ConnectionInv(k, c.(control := control))
  {
    assert ActiveIds(c.requests) == {};
  }

  lemma AskSnapshotKeeps(s: Reg, now: Time, later: Time, op: Op)
    requires Inv(s) && op.AskSnapshot?
    requires forall n :: n in Nonce(op) ==> FreshFor(s, n)
    ensures Inv(AskSnapshotStep(s, now, later, op).0)
  {
    hide Bytes, Budget, Census, Prune, OneActive, Quotas;
    PruneInv(s, now);
    var p := Prune(s, now);
    var (t, resp) := AskSnapshotStep(s, now, later, op);
    if resp.Accepted? {
      FreshAfterPrune(s, now, op.nonce.value);
      var c := p.connections[op.conn];
      assert ConnectionInv(op.conn, c);
      AddRequest(op.conn, c, resp.request);
      PutFewerBytes(p, c.(requests := c.requests[resp.request.id := resp.request]));
    }
  }

  lemma PollKeeps(s: Reg, now: Time, later: Time, op: Op)
    requires Inv(s) && op.Poll?
    ensures Inv(PollStep(s, now, later, op).0)
  {
    hide Bytes, Budget, Census, Prune;
    PruneInv(s, now);
    var p := Prune(s, now);
    if Bridge(p, op.conn, op.bearer) {
      var c := p.connections[op.conn];
      assert ConnectionInv(op.conn, c);
      DerivedKeeps(op.conn, c, c.(lastSeen := later));
      PutFewerBytes(p, c.(lastSeen := later));
    }
  }

  lemma StopByOwnerKeeps(s: Reg, op: Op)
    requires Inv(s) && op.StopByOwner?
    ensures Inv(StopByOwnerStep(s, op).0)
  {
    hide Bytes, Budget, Census;
    if op.owner != "" && Owns(s, op.conn, op.owner) {
      StopInv(op.conn, s.connections[op.conn]);
      PutFewerBytes(s, StopControl(s.connections[op.conn]));
    }
  }

  /** Every handler keeps the invariant. */
  lemma NextKeepsInv(s: Reg, now: Time, later: Time, op: Op, t: Reg, resp: Response)
    requires Inv(s) && Next(s, now, later, op, t, resp)
    requires forall n :: n in Nonce(op) ==> FreshFor(s, n)
    ensures Inv(t)
  {
    hide Prune, Inv, OwnedBy, FreshFor, SetControlStep, StopByOwnerStep, CreateCommandNext, StartStep, PostResultNext,
      PollStep, ClaimStep, AskSnapshotStep, AnswerSnapshotStep;
    PruneInv(s, now);
    match op {
      case SetControl(_, _, _, _, _, _) => SetControlKeeps(s, now, op);
      case StopByOwner(_, _) => StopByOwnerKeeps(s, op);
      case CreateCommand(_, _, _, _, _) => CreateCommandKeeps(s, now, later, op, t, resp);
      case StartCommand(_, _, _) => StartKeeps(s, now, op);
      case PostResult(_, _, _, _, _) => PostResultKeeps(s, now, op, t, resp);
      case Poll(_, _) => PollKeeps(s, now, later, op);
      case Claim(_, _, _, _) => ClaimKeeps(s, now, later, op);
      case RevokeByOwner(_, _) => RemoveKeeps(s, op.conn);
      case RevokeByBridge(_, _) => RemoveKeeps(Prune(s, now), op.conn);
      case AskSnapshot(_, _, _, _) => AskSnapshotKeeps(s, now, later, op);
      case AnswerSnapshot(_, _, _, _, _) => AnswerSnapshotKeeps(s, now, op);
      case CreatePairing(_, _) => if t != s { InvIgnoresPairings(Prune(s, now), t.pairings); }
      case ListConnections(_) =>
      case Lookup(_, _) =>
    }
  }
}
