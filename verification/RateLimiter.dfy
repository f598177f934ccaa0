/** The login rate limiter: per address a slice of the times of reserved attempts, compacted in place
    before each decision. Times are instants of one clock, read twice by each reservation. */
module RateLimiter {

  datatype Event =
    | Reserved(ip: string, read: int, stamp: int, granted: bool)   // the two clock readings
    | Succeeded(ip: string)

  /** The times after the cutoff, in order. */
  function After(ts: seq<int>, cutoff: int): (r: seq<int>)
    ensures |r| <= |ts|
  {
    if ts == [] then []
    else
      var n := |ts| - 1;
      After(ts[..n], cutoff) + (if ts[n] > cutoff then [ts[n]] else [])
  }

  /** What a limiter with this window remembers of `ip` after `log`. */
  function Remembered(log: seq<Event>, ip: string, window: int): seq<int> {
    if log == [] then []
    else
      var n := |log| - 1;
      var before := Remembered(log[..n], ip, window);
      match log[n]
      case Succeeded(i) => if i == ip then [] else before
      case Reserved(i, read, stamp, granted) =>
        if i == ip then After(before, read - window) + (if granted then [stamp] else []) else before
  }

  /** The decision a reservation takes. */
  predicate Capacity(log: seq<Event>, ip: string, read: int, window: int, max: int) {
    |After(Remembered(log, ip, window), read - window)| < max
  }

  lemma AfterNone(cutoff: int)
    ensures After([], cutoff) == []
  {
  }

  lemma RememberedStep(log: seq<Event>, ip: string, window: int, e: Event)
    ensures Remembered(log + [e], ip, window) ==
      if e.ip != ip then Remembered(log, ip, window)
      else if e.Succeeded? then []
      else After(Remembered(log, ip, window), e.read - window) + (if e.granted then [e.stamp] else [])
  {
    assert (log + [e])[..|log|] == log;
  }

  /** Every recorded decision is the limiter's. */
  ghost predicate Decided(log: seq<Event>, window: int, max: int) {
    forall k :: 0 <= k < |log| && log[k].Reserved? ==>
      log[k].granted == Capacity(log[..k], log[k].ip, log[k].read, window, max)
  }

  lemma DecidedStep(log: seq<Event>, window: int, max: int, e: Event)
    requires Decided(log, window, max)
    requires e.Reserved? ==> e.granted == Capacity(log, e.ip, e.read, window, max)
    ensures Decided(log + [e], window, max)
  {
    hide Capacity;
    var l := log + [e];
    forall k | 0 <= k < |l| && l[k].Reserved?
      ensures l[k].granted == Capacity(l[..k], l[k].ip, l[k].read, window, max)
    {
      assert l[..k] == log[..k];
      assert log[..|log|] == log;
    }
  }

  // ---------------------------------------------------------------- the limiter

  /** A Go slice: the first `len` elements of an array. */
  datatype Slice = Slice(a: array<int>, len: nat)

  lemma AfterOne(ts: seq<int>, t: int, cutoff: int)
    ensures After(ts + [t], cutoff) == After(ts, cutoff) + (if t > cutoff then [t] else [])
  {
    assert (ts + [t])[..|ts|] == ts;
  }

  /** Compaction in the slice's own array: exactly filtering. */
  method Compact(s: Slice, cutoff: int) returns (kept: nat)
    requires s.len <= s.a.Length
    modifies s.a
    ensures kept <= s.len && s.a[..kept] == After(old(s.a[..s.len]), cutoff)
  {
    hide After;
    ghost var was := s.a[..];
    var k := 0;
    kept := 0;
    AfterNone(cutoff);
    while k < s.len
      invariant 0 <= kept <= k <= s.len
      invariant s.a[..kept] == After(was[..k], cutoff)
      invariant forall j :: k <= j < s.len ==> s.a[j] == was[j]
    {
      AfterOne(was[..k], was[k], cutoff);
      assert was[..k + 1] == was[..k] + [was[k]];
      ghost var done := s.a[..kept];
      if s.a[k] > cutoff {
        s.a[kept] := s.a[k];
        assert s.a[..kept + 1] == done + [was[k]];
        kept := kept + 1;
      }
      k := k + 1;
    }
    assert was[..s.len] == old(s.a[..s.len]);
  }

  /** A larger array with the same first elements. */
  method Grow(s: Slice) returns (a: array<int>)
    requires s.len <= s.a.Length
    ensures fresh(a) && a.Length > s.len && a[..s.len] == s.a[..s.len]
  {
    a := new int[2 * s.len + 1];
    var k := 0;
    while k < s.len
      invariant 0 <= k <= s.len && a[..k] == s.a[..k]
      modifies a
    {
      a[k] := s.a[k];
      k := k + 1;
    }
  }

  class Limiter {
    const max: int
    const window: int
    var failures: map<string, Slice>
    ghost var log: seq<Event>

    ghost function Arrays(): set<array<int>>
      reads this
    {
      set ip | ip in failures :: failures[ip].a
    }

    ghost predicate Valid()
      reads this, Arrays()
    {
      && (forall ip :: ip in failures ==> 0 < failures[ip].len <= failures[ip].a.Length)
      && (forall i, j :: i in failures && j in failures && i != j ==> failures[i].a != failures[j].a)
    }

    ghost function Times(ip: string): seq<int>
      requires Valid()
      reads this, Arrays()
    {
      if ip in failures then failures[ip].a[..failures[ip].len] else []
    }

    /** The slices hold what the log of calls says, and every decision in it was the limiter's. */
    ghost predicate Faithful()
      reads this, Arrays()
    {
      && Valid() && Decided(log, window, max)
      && forall ip :: Times(ip) == Remembered(log, ip, window)
    }

    constructor (max: int, window: int)
      ensures Faithful() && this.max == max && this.window == window && log == [] && Arrays() == {}
    {
      this.max, this.window, failures, log := max, window, map[], [];
    }

    /** In-place compaction: exactly filtering, and no other address is touched. */
    method PruneLocked(ip: string, now: int)
      requires Valid()
      modifies `failures, Arrays()
      ensures Valid() && Arrays() <= old(Arrays())
      ensures Times(ip) == After(old(Times(ip)), now - window)
      ensures forall j :: j != ip ==> Times(j) == old(Times(j))
    {
      hide After;
      if ip !in failures {
        AfterNone(now - window);
        return;
      }
      var s := failures[ip];
      var kept := Compact(s, now - window);
      if kept == 0 {
        failures := failures - {ip};
      } else {
        failures := failures[ip := Slice(s.a, kept)];
      }
    }

    /** `append`: in place while the array has room, else into a larger one. */
    method Append(ip: string, t: int)
      requires Valid()
      modifies `failures, Arrays()
      ensures Valid() && fresh(Arrays() - old(Arrays()))
      ensures Times(ip) == old(Times(ip)) + [t]
      ensures forall j :: j != ip ==> Times(j) == old(Times(j))
    {
      var s: Slice;
      if ip !in failures {
        var a := new int[1];
        s := Slice(a, 0);
      } else {
        s := failures[ip];
        if s.len == s.a.Length {
          var a := Grow(s);
          s := Slice(a, s.len);
        }
      }
      assert s.a[..s.len] == Times(ip);
      s.a[s.len] := t;
      failures := failures[ip := Slice(s.a, s.len + 1)];
      assert s.a[..s.len + 1] == s.a[..s.len] + [t];
    }

    /** The reservation on the slices alone. */
    method Decide(ip: string, read: int, stamp: int) returns (granted: bool)
      requires Valid()
      modifies `failures, Arrays()
      ensures Valid() && fresh(Arrays() - old(Arrays()))
      ensures granted <==> |After(old(Times(ip)), read - window)| < max
      ensures Times(ip) == After(old(Times(ip)), read - window) + (if granted then [stamp] else [])
      ensures forall j :: j != ip ==> Times(j) == old(Times(j))
    {
      hide After;
      PruneLocked(ip, read);
      if (if ip in failures then failures[ip].len else 0) >= max { return false; }
      Append(ip, stamp);
      return true;
    }

    /** Granted exactly when the times still in the window leave room; a grant is recorded at once. */
    method Reserve(ip: string, read: int, stamp: int) returns (granted: bool)
      requires Faithful()
      modifies this, Arrays()
      ensures Faithful() && fresh(Arrays() - old(Arrays()))
      ensures granted == Capacity(old(log), ip, read, window, max)
      ensures log == old(log) + [Reserved(ip, read, stamp, granted)]
    {
      hide After, Remembered, Decided;
      granted := Decide(ip, read, stamp);
      ghost var e := Reserved(ip, read, stamp, granted);
      forall j ensures Remembered(log + [e], j, window) == Times(j) { RememberedStep(log, j, window, e); }
      DecidedStep(log, window, max, e);
      log := log + [e];
    }

    method RecordSuccess(ip: string)
      requires Faithful()
      modifies this
      ensures Faithful() && Arrays() <= old(Arrays())
      ensures log == old(log) + [Succeeded(ip)]
    {
      hide After, Remembered, Decided;
      DecidedStep(log, window, max, Succeeded(ip));
      forall j ensures Remembered(log + [Succeeded(ip)], j, window) == if j == ip then [] else Times(j) {
        RememberedStep(log, j, window, Succeeded(ip));
      }
      failures := failures - {ip};
      log := log + [Succeeded(ip)];
    }
  }

  // ---------------------------------------------------------------- over every run

  /** Clock readings never go back, within a call and from call to call. */
  ghost predicate Clock(log: seq<Event>) {
    && (forall k :: 0 <= k < |log| && log[k].Reserved? ==> log[k].read <= log[k].stamp)
    && (forall j, k :: 0 <= j < k < |log| && log[j].Reserved? && log[k].Reserved? ==> log[j].stamp <= log[k].read)
  }

  function Granted(e: Event, ip: string): seq<int> {
    if e.Reserved? && e.ip == ip && e.granted then [e.stamp] else []
  }

  /** The times of the grants to `ip` in `log`. */
  function Grants(log: seq<Event>, ip: string): seq<int> {
    if log == [] then []
    else
      var n := |log| - 1;
      Grants(log[..n], ip) + Granted(log[n], ip)
  }

  /** Where the part of `log` after the last success of `ip` begins. */
  function SinceSuccess(log: seq<Event>, ip: string): (i: nat)
    ensures i <= |log|
    ensures forall k :: i <= k < |log| ==> log[k] != Succeeded(ip)
    ensures i > 0 ==> log[i - 1] == Succeeded(ip)
  {
    if log == [] then 0
    else if log[|log| - 1] == Succeeded(ip) then |log|
    else SinceSuccess(log[..|log| - 1], ip)
  }

  function Recent(log: seq<Event>, ip: string): seq<int> {
    Grants(log[SinceSuccess(log, ip)..], ip)
  }

  lemma {:induction false} AfterAppend(a: seq<int>, b: seq<int>, c: int)
    ensures After(a + b, c) == After(a, c) + After(b, c)
  {
    hide After;
    if b == [] {
      AfterNone(c);
      assert a + b == a;
    } else {
      var n := |b| - 1;
      AfterAppend(a, b[..n], c);
      AfterOne(a + b[..n], b[n], c);
      AfterOne(b[..n], b[n], c);
      assert b == b[..n] + [b[n]] && a + b == a + b[..n] + [b[n]];
    }
  }

  lemma {:induction false} AfterAfter(ts: seq<int>, c: int, d: int)
    requires c <= d
    ensures After(After(ts, c), d) == After(ts, d)
  {
    if ts != [] {
      var n := |ts| - 1;
      AfterAfter(ts[..n], c, d);
      if ts[n] > c { AfterOne(After(ts[..n], c), ts[n], d); } else { assert After(ts, c) == After(ts[..n], c); }
    }
  }

  lemma RecentStep(log: seq<Event>, ip: string, e: Event)
    ensures Recent(log + [e], ip) == if e == Succeeded(ip) then [] else Recent(log, ip) + Granted(e, ip)
  {
    var l := log + [e];
    assert l[..|log|] == log;
    var i := SinceSuccess(l, ip);
    if e != Succeeded(ip) {
      assert i == SinceSuccess(log, ip);
      assert l[i..][..|l[i..]| - 1] == log[i..];
    } else {
      assert l[i..] == [];
    }
  }

  /** Pruning forgets nothing that a later decision could count. */
  lemma {:induction false} PruningForgetsNothing(log: seq<Event>, ip: string, window: int, cutoff: int)
    requires forall k :: 0 <= k < |log| && log[k].Reserved? ==> log[k].read - window <= cutoff
    ensures After(Remembered(log, ip, window), cutoff) == After(Recent(log, ip), cutoff)
  {
    if log != [] {
      var n := |log| - 1;
      PruningForgetsNothing(log[..n], ip, window, cutoff);
      assert log == log[..n] + [log[n]];
      PruningStep(log[..n], log[n], ip, window, cutoff);
    }
  }

  lemma PruningStep(log: seq<Event>, e: Event, ip: string, window: int, cutoff: int)
    requires After(Remembered(log, ip, window), cutoff) == After(Recent(log, ip), cutoff)
    requires e.Reserved? ==> e.read - window <= cutoff
    ensures After(Remembered(log + [e], ip, window), cutoff) == After(Recent(log + [e], ip), cutoff)
  {
    hide After, Remembered, Recent;
    RecentStep(log, ip, e);
    RememberedStep(log, ip, window, e);
    if e.Reserved? && e.ip == ip {
      var kept := After(Remembered(log, ip, window), e.read - window);
      AfterAfter(Remembered(log, ip, window), e.read - window, cutoff);
      AfterAppend(kept, Granted(e, ip), cutoff);
      AfterAppend(Recent(log, ip), Granted(e, ip), cutoff);
    } else if e != Succeeded(ip) {
      assert Recent(log, ip) + [] == Recent(log, ip);
    }
  }

  lemma ClockBounds(log: seq<Event>, k: nat, window: int)
    requires Clock(log) && k < |log| && log[k].Reserved?
    ensures forall j :: 0 <= j < |log[..k]| && log[..k][j].Reserved? ==>
      log[..k][j].read - window <= log[k].read - window
  {
  }

  /** A reservation is refused exactly when the grants since the address's last success that are
      still in the window are `max` or more. */
  lemma GrantedExactly(log: seq<Event>, k: nat, window: int, max: int)
    requires Decided(log, window, max) && Clock(log) && k < |log| && log[k].Reserved?
    ensures log[k].granted <==> |After(Recent(log[..k], log[k].ip), log[k].read - window)| < max
  {
    ClockBounds(log, k, window);
    PruningForgetsNothing(log[..k], log[k].ip, window, log[k].read - window);
  }

  /** The times from `x` on and before `x + window`. */
  function Within(ts: seq<int>, x: int, window: int): seq<int> {
    if ts == [] then []
    else
      var n := |ts| - 1;
      Within(ts[..n], x, window) + (if x <= ts[n] < x + window then [ts[n]] else [])
  }

  lemma {:induction false} WithinAfter(ts: seq<int>, x: int, window: int, c: int)
    requires c < x
    ensures |Within(ts, x, window)| <= |After(ts, c)|
  {
    if ts != [] { WithinAfter(ts[..|ts| - 1], x, window, c); }
  }

  /** Grants of a stretch without success are the last of the recent ones. */
  lemma {:induction false} StretchIsRecent(log: seq<Event>, i: nat, j: nat, ip: string) returns (older: seq<int>)
    requires i <= j <= |log| && forall k :: i <= k < j ==> log[k] != Succeeded(ip)
    ensures Recent(log[..j], ip) == older + Grants(log[i..j], ip)
  {
    if i == j {
      older := Recent(log[..j], ip);
      assert log[i..j] == [];
    } else {
      hide Recent, Grants;
      older := StretchIsRecent(log, i, j - 1, ip);
      assert log[..j] == log[..j - 1] + [log[j - 1]];
      RecentStep(log[..j - 1], ip, log[j - 1]);
      GrantsStep(log, i, j, ip);
      Regroup(older, Grants(log[i..j - 1], ip), Granted(log[j - 1], ip));
    }
  }

  lemma Regroup(a: seq<int>, b: seq<int>, c: seq<int>)
    ensures (a + b) + c == a + (b + c)
  {
  }

  /** Any interval of one window length holds at most `max` grants to an address, as long as no
      success of that address lies between them. */
  lemma {:induction false} WindowCap(log: seq<Event>, i: nat, j: nat, ip: string, x: int, window: int, max: int)
    requires Decided(log, window, max) && Clock(log)
    requires i <= j <= |log| && forall k :: i <= k < j ==> log[k] != Succeeded(ip)
    ensures |Within(Grants(log[i..j], ip), x, window)| <= (if max < 0 then 0 else max)
    decreases j
  {
    hide Grants, Decided, Within, Clock, Granted, GrantedWithin;
    if i == j {
      assert log[i..j] == [];
      NoGrants(ip, x, window);
    } else {
      WindowCap(log, i, j - 1, ip, x, window, max);
      GrantsStep(log, i, j, ip);
      WithinGranted(Grants(log[i..j - 1], ip), log[j - 1], ip, x, window);
      if GrantedWithin(log[j - 1], ip, x, window) { LastLeavesRoom(log, i, j - 1, ip, x, window, max); }
    }
  }

  lemma NoGrants(ip: string, x: int, window: int)
    ensures Within(Grants([], ip), x, window) == []
  {
  }

  predicate GrantedWithin(e: Event, ip: string, x: int, window: int) {
    e.Reserved? && e.ip == ip && e.granted && x <= e.stamp < x + window
  }

  lemma WithinGranted(ts: seq<int>, e: Event, ip: string, x: int, window: int)
    ensures |Within(ts + Granted(e, ip), x, window)| == |Within(ts, x, window)| + if GrantedWithin(e, ip, x, window)
      then 1 else 0
  {
    hide Within;
    if Granted(e, ip) == [] {
      assert ts + [] == ts;
    } else {
      WithinOne(ts, e.stamp, x, window);
    }
  }

  lemma LastLeavesRoom(log: seq<Event>, i: nat, j: nat, ip: string, x: int, window: int, max: int)
    requires Decided(log, window, max) && Clock(log)
    requires i <= j < |log| && (forall k :: i <= k < j ==> log[k] != Succeeded(ip))
    requires GrantedWithin(log[j], ip, x, window)
    ensures |Within(Grants(log[i..j], ip), x, window)| < max
  {
    hide Decided, Clock, Grants, Within;
    GrantLeavesRoom(log, i, j, ip, x, window, max);
  }

  /** When a grant falls into the interval, the earlier ones in it were fewer than `max`. */
  lemma GrantLeavesRoom(log: seq<Event>, i: nat, j: nat, ip: string, x: int, window: int, max: int)
    requires Decided(log, window, max) && Clock(log)
    requires i <= j < |log| && forall k :: i <= k < j ==> log[k] != Succeeded(ip)
    requires log[j].Reserved? && log[j].ip == ip && log[j].granted && x <= log[j].stamp < x + window
    ensures |Within(Grants(log[i..j], ip), x, window)| < max
  {
    hide After, Recent, Grants, Decided, Within, Capacity;
    var c := log[j].read - window;
    GrantedExactly(log, j, window, max);
    var older := StretchIsRecent(log, i, j, ip);
    AfterAppend(older, Grants(log[i..j], ip), c);
    WithinAfter(Grants(log[i..j], ip), x, window, c);
  }

  lemma WithinOne(ts: seq<int>, t: int, x: int, window: int)
    ensures Within(ts + [t], x, window) == Within(ts, x, window) + (if x <= t < x + window then [t] else [])
  {
    assert (ts + [t])[..|ts|] == ts;
  }

  lemma GrantsStep(log: seq<Event>, i: nat, j: nat, ip: string)
    requires i < j <= |log|
    ensures Grants(log[i..j], ip) == Grants(log[i..j - 1], ip) + Granted(log[j - 1], ip)
  {
    hide Grants, Granted;
    assert log[i..j] == log[i..j - 1] + [log[j - 1]];
    GrantsOne(log[i..j - 1], log[j - 1], ip);
  }

  lemma GrantsOne(events: seq<Event>, e: Event, ip: string)
    ensures Grants(events + [e], ip) == Grants(events, ip) + Granted(e, ip)
  {
    hide Granted;
    assert (events + [e])[..|events|] == events;
  }
}
