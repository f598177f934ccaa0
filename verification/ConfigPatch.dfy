/** Applying a settings patch to a configuration and verifying a configuration against the original
    request. Both are one recursive walk over the fields the request names, at every depth. */
module ConfigPatch {
  import opened Prelude

  /** `json` is the name in the field's tag; a struct has fields of its own. */
  datatype Field = Field(json: string, readOnly: bool, ty: Type)

  datatype Type = Leaf(kind: string) | Struct(fields: seq<Field>)

  /** The values of a configuration, field by field. */
  datatype Value = Plain(text: string) | Fields(vals: seq<Value>)

  /** A requested change: JSON data, with the entries of an object in key order. */
  datatype Data = Null | Object(entries: seq<Entry>) | Other(text: string)

  datatype Entry = Entry(key: string, data: Data)

  datatype Problem =
    | Unknown(path: string)
    | ReadOnly(path: string)
    | NotObject(path: string)
    | NullValue(path: string)
    | Invalid(path: string)
    | NotPersisted(path: string)
    | BadLanes
    | BadHarness

  /** The first field a key names. */
  function FieldAt(fs: seq<Field>, key: string): (i: nat)
    ensures i <= |fs| && (i < |fs| ==> fs[i].json == key && key != "-")
    ensures forall j :: 0 <= j < i ==> fs[j].json != key || key == "-"
  {
    if fs == [] then 0
    else if fs[0].json == key && key != "-" then 0
    else 1 + FieldAt(fs[1..], key)
  }

  /** A value has the shape of its fields. */
  ghost predicate Shaped(fs: seq<Field>, vals: seq<Value>) {
    && |vals| == |fs|
    && forall i :: 0 <= i < |fs| ==> ShapedAs(fs[i].ty, vals[i])
  }

  ghost predicate ShapedAs(ty: Type, v: Value) {
    match ty
    case Leaf(_) => v.Plain?
    case Struct(fs) => v.Fields? && Shaped(fs, v.vals)
  }

  /** No object names a key twice. */
  ghost predicate Distinct(es: seq<Entry>) {
    && (forall i, j :: 0 <= i < j < |es| ==> es[i].key != es[j].key)
    && forall i :: 0 <= i < |es| ==> DistinctIn(es[i].data)
  }

  ghost predicate DistinctIn(d: Data) {
    d.Object? ==> Distinct(d.entries)
  }

  /** Decoding JSON data into a field of some kind, where it can be. */
  type Decoder = (string, Data) -> Option<string>

  /** The new value of a field under one entry, or what is wrong with the entry. */
  function NewValue(f: Field, before: Value, d: Data, path: string, decode: Decoder): Result<Value, Problem>
    decreases d, 1
  {
    if f.readOnly then Failure(ReadOnly(path))
    else match f.ty
      case Struct(fs) =>
        if !d.Object? then Failure(NotObject(path))
        else
          var r := Walk(fs, if before.Fields? then before.vals else [], d.entries, path + ".", decode);
          if r.Failure? then Failure(r.error) else Success(Fields(r.value))
      case Leaf(kind) =>
        if d == Null then Failure(NullValue(path))
        else if decode(kind, d).None? then Failure(Invalid(path))
        else Success(Plain(decode(kind, d).value))
  }

  /** Applying entries in order to the values of a struct. */
  function Walk(fs: seq<Field>, vals: seq<Value>, es: seq<Entry>, prefix: string,
      decode: Decoder): Result<seq<Value>, Problem>
    decreases es
  {
    if es == [] then Success(vals)
    else
      var i := FieldAt(fs, es[0].key);
      if i >= |fs| || i >= |vals| then Failure(Unknown(prefix + es[0].key))
      else
        var r := NewValue(fs[i], vals[i], es[0].data, prefix + es[0].key, decode);
        if r.Failure? then Failure(r.error) else Walk(fs, vals[i := r.value], es[1..], prefix, decode)
  }

  /** Whether a field already has the value an entry asks for; the first problem if not. */
  function Check(f: Field, actual: Value, d: Data, path: string, decode: Decoder): Option<Problem>
    decreases d, 1
  {
    if f.readOnly then Some(ReadOnly(path))
    else match f.ty
      case Struct(fs) =>
        if !d.Object? then Some(NotObject(path))
        else WalkCheck(fs, if actual.Fields? then actual.vals else [], d.entries, path + ".", decode)
      case Leaf(kind) =>
        if d == Null then Some(NullValue(path))
        else if decode(kind, d).None? then Some(Invalid(path))
        else if actual != Plain(decode(kind, d).value) then Some(NotPersisted(path))
        else None
  }

  function WalkCheck(fs: seq<Field>, vals: seq<Value>, es: seq<Entry>, prefix: string, decode: Decoder): Option<Problem>
    decreases es
  {
    if es == [] then None
    else
      var i := FieldAt(fs, es[0].key);
      if i >= |fs| || i >= |vals| then Some(Unknown(prefix + es[0].key))
      else
        var r := Check(fs[i], vals[i], es[0].data, prefix + es[0].key, decode);
        if r.Some? then r else WalkCheck(fs, vals, es[1..], prefix, decode)
  }

  // ---------------------------------------------------------------- one struct

  lemma {:induction false} NewShaped(f: Field, before: Value, d: Data, path: string, decode: Decoder)
    requires ShapedAs(f.ty, before) && NewValue(f, before, d, path, decode).Success?
    ensures ShapedAs(f.ty, NewValue(f, before, d, path, decode).value)
    decreases d, 1
  {
    if f.ty.Struct? { WalkShaped(f.ty.fields, before.vals, d.entries, path + ".", decode); }
  }

  lemma {:induction false} WalkShaped(fs: seq<Field>, vals: seq<Value>, es: seq<Entry>, prefix: string, decode: Decoder)
    requires Shaped(fs, vals) && Walk(fs, vals, es, prefix, decode).Success?
    ensures Shaped(fs, Walk(fs, vals, es, prefix, decode).value)
    decreases es
  {
    if es != [] {
      var i := FieldAt(fs, es[0].key);
      NewShaped(fs[i], vals[i], es[0].data, prefix + es[0].key, decode);
      var next := vals[i := NewValue(fs[i], vals[i], es[0].data, prefix + es[0].key, decode).value];
      WalkShaped(fs, next, es[1..], prefix, decode);
    }
  }

  /** Entry `j` names field `i`. */
  predicate NamedBy(fs: seq<Field>, es: seq<Entry>, j: nat, i: nat) {
    j < |es| && FieldAt(fs, es[j].key) == i
  }

  ghost predicate KeysDiffer(es: seq<Entry>) {
    forall i, j :: 0 <= i < j < |es| ==> es[i].key != es[j].key
  }

  /** Fields no entry names keep their values. */
  lemma {:induction false} WalkKeeps(fs: seq<Field>, vals: seq<Value>, es: seq<Entry>, prefix: string, decode: Decoder,
      i: nat)
    requires Walk(fs, vals, es, prefix, decode).Success? && i < |vals|
    requires forall j :: 0 <= j < |es| ==> !NamedBy(fs, es, j, i)
    ensures var out := Walk(fs, vals, es, prefix, decode).value; |out| == |vals| && out[i] == vals[i]
    decreases es
  {
    if es != [] {
      var k := FieldAt(fs, es[0].key);
      assert !NamedBy(fs, es, 0, i);
      var next := vals[k := NewValue(fs[k], vals[k], es[0].data, prefix + es[0].key, decode).value];
      forall j | 0 <= j < |es[1..]| ensures !NamedBy(fs, es[1..], j, i) { assert !NamedBy(fs, es, j + 1, i); }
      WalkKeeps(fs, next, es[1..], prefix, decode, i);
    }
  }

  /** A field an entry names gets the value of that entry alone, worked out from its old value. */
  lemma {:induction false} WalkSets(fs: seq<Field>, vals: seq<Value>, es: seq<Entry>, prefix: string, decode: Decoder,
      j: nat)
    requires Walk(fs, vals, es, prefix, decode).Success? && j < |es| && KeysDiffer(es)
    ensures var i := FieldAt(fs, es[j].key); var out := Walk(fs, vals, es, prefix, decode).value;
      && i < |fs| && i < |vals| && |out| == |vals|
      && NewValue(fs[i], vals[i], es[j].data, prefix + es[j].key, decode) == Success(out[i])
    decreases es
  {
    var k := FieldAt(fs, es[0].key);
    var next := vals[k := NewValue(fs[k], vals[k], es[0].data, prefix + es[0].key, decode).value];
    if j == 0 {
      forall m | 0 <= m < |es[1..]| ensures !NamedBy(fs, es[1..], m, k) { assert es[0].key != es[m + 1].key; }
      WalkKeeps(fs, next, es[1..], prefix, decode, k);
    } else {
      WalkSets(fs, next, es[1..], prefix, decode, j - 1);
      assert es[0].key != es[j].key;
      var i := FieldAt(fs, es[j].key);
      assert i != k;
      WalkLength(fs, next, es[1..], prefix, decode);
    }
  }

  lemma {:induction false} WalkLength(fs: seq<Field>, vals: seq<Value>, es: seq<Entry>, prefix: string, decode: Decoder)
    requires Walk(fs, vals, es, prefix, decode).Success?
    ensures |Walk(fs, vals, es, prefix, decode).value| == |vals|
    decreases es
  {
    if es != [] {
      var k := FieldAt(fs, es[0].key);
      WalkLength(fs, vals[k := NewValue(fs[k], vals[k], es[0].data, prefix + es[0].key, decode).value], es[1..], prefix,
        decode);
    }
  }

  // ---------------------------------------------------------------- apply and verify

  /** A walk whose every entry finds its value in place changes nothing. */
  lemma {:induction false} WalkRests(fs: seq<Field>, vals: seq<Value>, es: seq<Entry>, prefix: string, decode: Decoder)
    requires forall j :: 0 <= j < |es| ==> var i := FieldAt(fs, es[j].key);
      i < |fs| && i < |vals| && NewValue(fs[i], vals[i], es[j].data, prefix + es[j].key, decode) == Success(vals[i])
    ensures Walk(fs, vals, es, prefix, decode) == Success(vals)
    decreases es
  {
    if es != [] {
      var i := FieldAt(fs, es[0].key);
      assert vals[i := vals[i]] == vals;
      forall j | 0 <= j < |es[1..]| ensures es[1..][j] == es[j + 1] {}
      WalkRests(fs, vals, es[1..], prefix, decode);
    }
  }

  /** Setting a field twice is setting it once. */
  lemma {:induction false} NewTwice(f: Field, before: Value, d: Data, path: string, decode: Decoder)
    requires NewValue(f, before, d, path, decode).Success? && DistinctIn(d)
    ensures var v := NewValue(f, before, d, path, decode).value; NewValue(f, v, d, path, decode) == Success(v)
    decreases d, 1
  {
    if f.ty.Struct? {
      WalkTwice(f.ty.fields, if before.Fields? then before.vals else [], d.entries, path + ".", decode);
    }
  }

  /** Applying a patch again changes nothing. */
  lemma {:induction false} WalkTwice(fs: seq<Field>, vals: seq<Value>, es: seq<Entry>, prefix: string, decode: Decoder)
    requires Walk(fs, vals, es, prefix, decode).Success? && Distinct(es)
    ensures var out := Walk(fs, vals, es, prefix, decode).value; Walk(fs, out, es, prefix, decode) == Success(out)
    decreases es
  {
    var out := Walk(fs, vals, es, prefix, decode).value;
    assert KeysDiffer(es);
    forall j | 0 <= j < |es|
      ensures var i := FieldAt(fs, es[j].key);
        i < |fs| && i < |out| && NewValue(fs[i], out[i], es[j].data, prefix + es[j].key, decode) == Success(out[i])
    {
      WalkSets(fs, vals, es, prefix, decode, j);
      var i := FieldAt(fs, es[j].key);
      NewTwice(fs[i], vals[i], es[j].data, prefix + es[j].key, decode);
    }
    WalkRests(fs, out, es, prefix, decode);
  }

  /** Verifying a field succeeds exactly when setting it would leave it as it is. */
  lemma {:induction false} CheckIsRest(f: Field, v: Value, d: Data, path: string, decode: Decoder)
    requires ShapedAs(f.ty, v) && DistinctIn(d)
    ensures Check(f, v, d, path, decode) == None <==> NewValue(f, v, d, path, decode) == Success(v)
    decreases d, 1
  {
    if f.ty.Struct? && d.Object? { WalkCheckIsRest(f.ty.fields, v.vals, d.entries, path + ".", decode); }
  }

  /** Verification succeeds exactly when applying the request would change nothing. */
  lemma {:induction false} WalkCheckIsRest(fs: seq<Field>, vals: seq<Value>, es: seq<Entry>, prefix: string,
      decode: Decoder)
    requires Shaped(fs, vals) && Distinct(es)
    ensures WalkCheck(fs, vals, es, prefix, decode) == None <==> Walk(fs, vals, es, prefix, decode) == Success(vals)
    decreases es
  {
    if es != [] {
      var i := FieldAt(fs, es[0].key);
      if i < |fs| {
        CheckIsRest(fs[i], vals[i], es[0].data, prefix + es[0].key, decode);
        assert vals[i := vals[i]] == vals;
        TailDistinct(es);
        WalkCheckIsRest(fs, vals, es[1..], prefix, decode);
        if Walk(fs, vals, es, prefix, decode) == Success(vals) {
          assert KeysDiffer(es);
          WalkSets(fs, vals, es, prefix, decode, 0);
        }
      }
    }
  }

  lemma TailDistinct(es: seq<Entry>)
    requires Distinct(es) && es != []
    ensures Distinct(es[1..]) && DistinctIn(es[0].data)
  {
  }

  // ---------------------------------------------------------------- every depth

  /** The first entry that names field `i`. */
  function EntryFor(fs: seq<Field>, es: seq<Entry>, i: nat): (j: nat)
    ensures j <= |es| && (j < |es| ==> NamedBy(fs, es, j, i))
    ensures forall k :: 0 <= k < j ==> !NamedBy(fs, es, k, i)
  {
    if es == [] || FieldAt(fs, es[0].key) == i then 0
    else
      var j := 1 + EntryFor(fs, es[1..], i);
      assert forall k :: 0 < k < j ==> NamedBy(fs, es, k, i) == NamedBy(fs, es[1..], k - 1, i);
      assert j < |es| ==> NamedBy(fs, es[1..], j - 1, i);
      j
  }

  /** A path of field numbers down to a plain field. */
  predicate LeafPath(fs: seq<Field>, path: seq<nat>) {
    && path != [] && path[0] < |fs|
    && match fs[path[0]].ty
       case Leaf(_) => |path| == 1
       case Struct(sub) => LeafPath(sub, path[1..])
  }

  function KindAt(fs: seq<Field>, path: seq<nat>): string
    requires LeafPath(fs, path)
  {
    match fs[path[0]].ty
    case Leaf(kind) => kind
    case Struct(sub) => KindAt(sub, path[1..])
  }

  /** Some field on the path is read-only. */
  predicate Guarded(fs: seq<Field>, path: seq<nat>)
    requires LeafPath(fs, path)
  {
    fs[path[0]].readOnly || (fs[path[0]].ty.Struct? && Guarded(fs[path[0]].ty.fields, path[1..]))
  }

  ghost function At(fs: seq<Field>, vals: seq<Value>, path: seq<nat>): Value
    requires LeafPath(fs, path) && Shaped(fs, vals)
  {
    match fs[path[0]].ty
    case Leaf(_) => vals[path[0]]
    case Struct(sub) =>
      assert ShapedAs(fs[path[0]].ty, vals[path[0]]);
      At(sub, vals[path[0]].vals, path[1..])
  }

  /** What the request says of the plain field at the path, if it names it. */
  function Requested(fs: seq<Field>, es: seq<Entry>, path: seq<nat>): Option<Data>
    requires LeafPath(fs, path)
  {
    var j := EntryFor(fs, es, path[0]);
    if j == |es| then None
    else match fs[path[0]].ty
      case Leaf(_) => Some(es[j].data)
      case Struct(sub) => if es[j].data.Object? then Requested(sub, es[j].data.entries, path[1..]) else None
  }

  /** A patch that applies gives every plain field, at every depth, exactly the value requested for it,
      and leaves it alone when it is not named; it names nothing under a read-only field. */
  lemma {:induction false} WalkAt(fs: seq<Field>, vals: seq<Value>, es: seq<Entry>, prefix: string, decode: Decoder,
      path: seq<nat>)
    requires Shaped(fs, vals) && Distinct(es) && LeafPath(fs, path) && Walk(fs, vals, es, prefix, decode).Success?
    ensures var out := Walk(fs, vals, es, prefix, decode).value;
      && Shaped(fs, out)
      && match Requested(fs, es, path)
         case None => At(fs, out, path) == At(fs, vals, path)
         case Some(d) =>
           && !Guarded(fs, path) && decode(KindAt(fs, path), d).Some?
           && At(fs, out, path) == Plain(decode(KindAt(fs, path), d).value)
    decreases path
  {
    WalkShaped(fs, vals, es, prefix, decode);
    var i := path[0];
    var j := EntryFor(fs, es, i);
    assert ShapedAs(fs[i].ty, vals[i]);
    if j == |es| {
      WalkKeeps(fs, vals, es, prefix, decode, i);
    } else {
      assert KeysDiffer(es) && DistinctIn(es[j].data);
      WalkSets(fs, vals, es, prefix, decode, j);
      if fs[i].ty.Struct? {
        WalkAt(fs[i].ty.fields, vals[i].vals, es[j].data.entries, prefix + es[j].key + ".", decode, path[1..]);
      }
    }
  }

  /** Every key names a field that may be written, with data the field can take. */
  predicate Acceptable(fs: seq<Field>, es: seq<Entry>, decode: Decoder)
    decreases es
  {
    forall j :: 0 <= j < |es| ==>
      FieldAt(fs, es[j].key) < |fs| && AcceptableFor(fs[FieldAt(fs, es[j].key)], es[j].data, decode)
  }

  predicate AcceptableFor(f: Field, d: Data, decode: Decoder)
    decreases d, 1
  {
    && !f.readOnly
    && match f.ty
       case Struct(fs) => d.Object? && Acceptable(fs, d.entries, decode)
       case Leaf(kind) => d != Null && decode(kind, d).Some?
  }

  /** The walk succeeds on exactly the acceptable patches; its problems are not those of the sections. */
  lemma {:induction false} WalkAccepts(fs: seq<Field>, vals: seq<Value>, es: seq<Entry>, prefix: string,
      decode: Decoder)
    requires Shaped(fs, vals)
    ensures Walk(fs, vals, es, prefix, decode).Success? <==> Acceptable(fs, es, decode)
    ensures Walk(fs, vals, es, prefix, decode).Failure? ==>
      Walk(fs, vals, es, prefix, decode).error !in {BadLanes, BadHarness}
    decreases es
  {
    if es != [] {
      assert Acceptable(fs, es, decode) <==> Acceptable(fs, es[..1], decode) && Acceptable(fs, es[1..], decode) by {
        assert es == es[..1] + es[1..];
        AcceptableSplit(fs, es[0], es[1..], decode);
      }
      var i := FieldAt(fs, es[0].key);
      if i < |fs| {
        var d, path := es[0].data, prefix + es[0].key;
        NewAccepts(fs[i], vals[i], d, path, decode);
        var x := NewValue(fs[i], vals[i], d, path, decode);
        if x.Success? {
          NewShaped(fs[i], vals[i], d, path, decode);
          WalkAccepts(fs, vals[i := x.value], es[1..], prefix, decode);
        }
      }
    }
  }

  lemma AcceptableSplit(fs: seq<Field>, e: Entry, es: seq<Entry>, decode: Decoder)
    ensures Acceptable(fs, [e] + es, decode) <==> Acceptable(fs, [e], decode) && Acceptable(fs, es, decode)
    ensures Acceptable(fs, [e], decode) <==>
      FieldAt(fs, e.key) < |fs| && AcceptableFor(fs[FieldAt(fs, e.key)], e.data, decode)
  {
    var all := [e] + es;
    assert forall j :: 0 <= j < |es| ==> all[j + 1] == es[j];
    assert all[0] == e && [e][0] == e;
  }

  lemma {:induction false} NewAccepts(f: Field, v: Value, d: Data, path: string, decode: Decoder)
    requires ShapedAs(f.ty, v)
    ensures NewValue(f, v, d, path, decode).Success? <==> AcceptableFor(f, d, decode)
    ensures NewValue(f, v, d, path, decode).Failure? ==>
      NewValue(f, v, d, path, decode).error !in {BadLanes, BadHarness}
    decreases d, 1
  {
    if f.ty.Struct? && d.Object? { WalkAccepts(f.ty.fields, v.vals, d.entries, path + ".", decode); }
  }

  /** Whether a patch is accepted, and what is wrong with it, does not depend on the configuration. */
  lemma {:induction false} WalkSameProblem(fs: seq<Field>, a: seq<Value>, b: seq<Value>, es: seq<Entry>, prefix: string,
      decode: Decoder)
    requires Shaped(fs, a) && Shaped(fs, b)
    ensures Walk(fs, a, es, prefix, decode).Failure? == Walk(fs, b, es, prefix, decode).Failure?
    ensures Walk(fs, a, es, prefix, decode).Failure? ==>
      Walk(fs, a, es, prefix, decode).error == Walk(fs, b, es, prefix, decode).error
    decreases es
  {
    if es != [] {
      var i := FieldAt(fs, es[0].key);
      if i < |fs| {
        var d, path := es[0].data, prefix + es[0].key;
        NewSameProblem(fs[i], a[i], b[i], d, path, decode);
        var x, y := NewValue(fs[i], a[i], d, path, decode), NewValue(fs[i], b[i], d, path, decode);
        if x.Success? {
          NewShaped(fs[i], a[i], d, path, decode);
          NewShaped(fs[i], b[i], d, path, decode);
          WalkSameProblem(fs, a[i := x.value], b[i := y.value], es[1..], prefix, decode);
        }
      }
    }
  }

  lemma {:induction false} NewSameProblem(f: Field, a: Value, b: Value, d: Data, path: string, decode: Decoder)
    requires ShapedAs(f.ty, a) && ShapedAs(f.ty, b)
    ensures NewValue(f, a, d, path, decode).Failure? == NewValue(f, b, d, path, decode).Failure?
    ensures NewValue(f, a, d, path, decode).Failure? ==>
      NewValue(f, a, d, path, decode).error == NewValue(f, b, d, path, decode).error
    decreases d, 1
  {
    if f.ty.Struct? && d.Object? { WalkSameProblem(f.ty.fields, a.vals, b.vals, d.entries, path + ".", decode); }
  }

  // ---------------------------------------------------------------- the patch

  /** A request must be an object. */
  function Parse(d: Data): Result<seq<Entry>, Problem> {
    if d.Object? then Success(d.entries) else Failure(NotObject("changes"))
  }

  predicate Mentions(es: seq<Entry>, key: string) {
    exists j :: 0 <= j < |es| && es[j].key == key
  }

  /** The text of one setting of a section. */
  function Setting(fs: seq<Field>, vals: seq<Value>, section: string, name: string): Option<string> {
    var i := FieldAt(fs, section);
    if i >= |fs| || i >= |vals| || fs[i].ty.Leaf? || vals[i].Plain? then None
    else
      var k := FieldAt(fs[i].ty.fields, name);
      if k < |fs[i].ty.fields| && k < |vals[i].vals| && vals[i].vals[k].Plain? then Some(vals[i].vals[k].text) else None
  }

  /** Two sections named by a request are checked once more as a whole. */
  predicate LanesOk(fs: seq<Field>, vals: seq<Value>) {
    var approval := Setting(fs, vals, "lanes", "approval");
    approval == Some("prompt") || approval == Some("never")
  }

  predicate HarnessOk(fs: seq<Field>, vals: seq<Value>) {
    var harness := Setting(fs, vals, "ai", "default_harness");
    && harness.Some?
    && harness.value in {"codex", "claude", "copilot", "amplifier", "pi", "opencode", "deepseek", "antigravity"}
  }

  function Apply(fs: seq<Field>, base: seq<Value>, es: seq<Entry>, decode: Decoder): Result<seq<Value>, Problem> {
    var r := Walk(fs, base, es, "", decode);
    if r.Failure? then r
    else if Mentions(es, "lanes") && !LanesOk(fs, r.value) then Failure(BadLanes)
    else if Mentions(es, "ai") && !HarnessOk(fs, r.value) then Failure(BadHarness)
    else r
  }

  function Verify(fs: seq<Field>, actual: seq<Value>, es: seq<Entry>, decode: Decoder): Option<Problem> {
    WalkCheck(fs, actual, es, "", decode)
  }

  /** If a patch applies, verifying the result succeeds, and applying it again changes nothing. */
  lemma AppliedVerifies(fs: seq<Field>, base: seq<Value>, es: seq<Entry>, decode: Decoder)
    requires Shaped(fs, base) && Distinct(es) && Apply(fs, base, es, decode).Success?
    ensures var out := Apply(fs, base, es, decode).value;
      && Shaped(fs, out)
      && Verify(fs, out, es, decode) == None
      && Apply(fs, out, es, decode) == Success(out)
  {
    var out := Walk(fs, base, es, "", decode).value;
    WalkShaped(fs, base, es, "", decode);
    WalkTwice(fs, base, es, "", decode);
    WalkCheckIsRest(fs, out, es, "", decode);
  }

  /** Verification accepts a configuration exactly when the request is acceptable and every plain field
      it names, at every depth, holds the value asked for: then applying it changes nothing. */
  lemma VerifyMeans(fs: seq<Field>, actual: seq<Value>, es: seq<Entry>, decode: Decoder)
    requires Shaped(fs, actual) && Distinct(es)
    ensures Verify(fs, actual, es, decode) == None <==> Walk(fs, actual, es, "", decode) == Success(actual)
    ensures Verify(fs, actual, es, decode) == None ==>
      forall path :: LeafPath(fs, path) && Requested(fs, es, path).Some? ==>
        var d := decode(KindAt(fs, path), Requested(fs, es, path).value);
        d.Some? && At(fs, actual, path) == Plain(d.value)
  {
    WalkCheckIsRest(fs, actual, es, "", decode);
    if Verify(fs, actual, es, decode) == None {
      forall path | LeafPath(fs, path) && Requested(fs, es, path).Some?
        ensures var d := decode(KindAt(fs, path), Requested(fs, es, path).value);
          d.Some? && At(fs, actual, path) == Plain(d.value)
      {
        WalkAt(fs, actual, es, "", decode, path);
      }
    }
  }

  // ---------------------------------------------------------------- the walk

  /** One walk for both uses: it looks up each key's field, descends into structs, and sets the
      field or compares with it. */
  method WalkPatch(fs: seq<Field>, dst: seq<Value>, es: seq<Entry>, prefix: string, verify: bool, decode: Decoder)
    returns (r: Result<seq<Value>, Problem>)
    requires Shaped(fs, dst)
    ensures !verify ==> r == Walk(fs, dst, es, prefix, decode)
    ensures verify ==>
              var p := WalkCheck(fs, dst, es, prefix, decode);
              r == if p.None? then Success(dst) else Failure(p.value)
    decreases es
  {
    hide Check, NewValue;
    var vals := dst;
    var n := 0;
    assert es[0..] == es;
    while n < |es|
      invariant 0 <= n <= |es| && Shaped(fs, vals)
      invariant !verify ==> Walk(fs, vals, es[n..], prefix, decode) == Walk(fs, dst, es, prefix, decode)
      invariant verify ==> vals == dst
      invariant verify ==> WalkCheck(fs, dst, es[n..], prefix, decode) == WalkCheck(fs, dst, es, prefix, decode)
    {
      var key := es[n].key;
      var path := prefix + key;
      assert es[n..][1..] == es[n + 1..];
      var index := FindField(fs, key);
      if index < 0 { return Failure(Unknown(path)); }
      assert index == FieldAt(fs, key);
      var f, data := fs[index], es[n].data;
      assert ShapedAs(f.ty, vals[index]);
      OneField(f, vals[index], data, path, decode);
      if f.readOnly { return Failure(ReadOnly(path)); }
      n := n + 1;
      if f.ty.Struct? {
        if !data.Object? { return Failure(NotObject(path)); }
        var nested := WalkPatch(f.ty.fields, vals[index].vals, data.entries, path + ".", verify, decode);
        if nested.Failure? { return nested; }
        if verify {
          assert vals[index := Fields(nested.value)] == vals;
        } else {
          NewShaped(f, vals[index], data, path, decode);
        }
        vals := vals[index := Fields(nested.value)];
        continue;
      }
      if data == Null { return Failure(NullValue(path)); }
      var value := decode(f.ty.kind, data);
      if value.None? { return Failure(Invalid(path)); }
      if verify {
        if vals[index] != Plain(value.value) { return Failure(NotPersisted(path)); }
      } else {
        NewShaped(f, vals[index], data, path, decode);
        vals := vals[index := Plain(value.value)];
      }
    }
    return Success(vals);
  }

  /** A request is applied exactly when it is an object, every entry of it is acceptable, and each of
      the two sections it names is valid afterwards; the first of these that fails is the answer. */
  method ApplyPatch(fs: seq<Field>, base: seq<Value>, d: Data, decode: Decoder)
    returns (r: Result<seq<Value>, Problem>)
    requires Shaped(fs, base)
    ensures r == if Parse(d).Failure? then Failure(Parse(d).error) else Apply(fs, base, Parse(d).value, decode)
    ensures var walked := if d.Object? then Walk(fs, base, d.entries, "", decode) else Failure(NotObject("changes"));
      && (walked.Success? <==> d.Object? && Acceptable(fs, d.entries, decode))
      && (r.Success? <==>
            && walked.Success?
            && (Mentions(d.entries, "lanes") ==> LanesOk(fs, walked.value))
            && (Mentions(d.entries, "ai") ==> HarnessOk(fs, walked.value)))
      && (r == Failure(BadLanes) <==>
            walked.Success? && Mentions(d.entries, "lanes") && !LanesOk(fs, walked.value))
      && (r == Failure(BadHarness) <==>
            && walked.Success? && (Mentions(d.entries, "lanes") ==> LanesOk(fs, walked.value))
            && Mentions(d.entries, "ai") && !HarnessOk(fs, walked.value))
      && (r.Success? || walked.Failure? ==> r == walked)
    ensures r.Success? && Mentions(d.entries, "lanes") ==>
      Setting(fs, r.value, "lanes", "approval") in {Some("prompt"), Some("never")}
  {
    hide Walk, Shaped, Acceptable, Setting, HarnessOk;
    var parsed := Parse(d);
    if parsed.Failure? { return Failure(parsed.error); }
    var es := parsed.value;
    WalkAccepts(fs, base, es, "", decode);
    r := WalkPatch(fs, base, es, "", false, decode);
    if r.Failure? { return; }
    var lanes := HasKey(es, "lanes");
    if lanes && !LanesOk(fs, r.value) { return Failure(BadLanes); }
    var ai := HasKey(es, "ai");
    if ai && !HarnessOk(fs, r.value) { return Failure(BadHarness); }
  }

  method HasKey(es: seq<Entry>, key: string) returns (found: bool)
    ensures found <==> Mentions(es, key)
  {
    var n := 0;
    while n < |es|
      invariant 0 <= n <= |es| && forall j :: 0 <= j < n ==> es[j].key != key
    {
      if es[n].key == key { return true; }
      n := n + 1;
    }
    return false;
  }

  /** The scan for a key's field. */
  method FindField(fs: seq<Field>, key: string) returns (index: int)
    ensures index == if FieldAt(fs, key) < |fs| then FieldAt(fs, key) else -1
  {
    var i := 0;
    while i < |fs|
      invariant 0 <= i <= |fs| && forall j :: 0 <= j < i ==> fs[j].json != key || key == "-"
    {
      if fs[i].json == key && key != "-" {
        assert FieldAt(fs, key) == i;
        return i;
      }
      i := i + 1;
    }
    return -1;
  }

  /** What setting and checking one field come to. */
  lemma OneField(f: Field, v: Value, d: Data, path: string, decode: Decoder)
    requires ShapedAs(f.ty, v)
    ensures f.readOnly ==>
      && NewValue(f, v, d, path, decode) == Failure(ReadOnly(path))
      && Check(f, v, d, path, decode) == Some(ReadOnly(path))
    ensures !f.readOnly && f.ty.Struct? && !d.Object? ==>
      && NewValue(f, v, d, path, decode) == Failure(NotObject(path))
      && Check(f, v, d, path, decode) == Some(NotObject(path))
    ensures !f.readOnly && f.ty.Struct? && d.Object? ==>
      && Check(f, v, d, path, decode) == WalkCheck(f.ty.fields, v.vals, d.entries, path + ".", decode)
      && NewValue(f, v, d, path, decode) ==
           (var r := Walk(f.ty.fields, v.vals, d.entries, path + ".", decode);
             if r.Failure? then Failure(r.error) else Success(Fields(r.value)))
    ensures !f.readOnly && f.ty.Leaf? && d == Null ==>
      && NewValue(f, v, d, path, decode) == Failure(NullValue(path))
      && Check(f, v, d, path, decode) == Some(NullValue(path))
    ensures !f.readOnly && f.ty.Leaf? && d != Null && decode(f.ty.kind, d).None? ==>
      NewValue(f, v, d, path, decode) == Failure(Invalid(path)) && Check(f, v, d, path, decode) == Some(Invalid(path))
    ensures !f.readOnly && f.ty.Leaf? && d != Null && decode(f.ty.kind, d).Some? ==>
      && NewValue(f, v, d, path, decode) == Success(Plain(decode(f.ty.kind, d).value))
      && Check(f, v, d, path, decode) ==
           if v == Plain(decode(f.ty.kind, d).value) then None else Some(NotPersisted(path))
  {
  }
}
