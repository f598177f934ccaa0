/** The token store: authorization codes and access tokens in memory, the whole of it written to one
    file after each change. A save may fail, and a restart reads back whatever the file holds. */
module TokenStore {
  import opened Prelude

  datatype Token = Token(code: string, access: string, info: string)

  datatype File = Missing | Corrupt | Saved(codes: map<string, Token>, access: map<string, Token>)

  datatype State = State(codes: map<string, Token>, access: map<string, Token>, file: File)

  /** `saves` says whether writing the file, where the call gets that far, succeeds. */
  datatype Call =
    | Create(token: Token, saves: bool)
    | GetByCode(code: string, saves: bool)
    | RemoveByCode(code: string, saves: bool)
    | GetByAccess(access: string)
    | RemoveByAccess(access: string, saves: bool)
    | Restart
    | Damage                                    // the file is replaced by something unreadable

  /** What a call returns: its error, or the token it found. */
  datatype Reply = Failed | Nothing | Found(token: Token)

  const START := State(map[], map[], Missing)

  function Save(s: State, saves: bool): State {
    if saves then s.(file := Saved(s.codes, s.access)) else s
  }

  function Outcome(saves: bool): Reply {
    if saves then Nothing else Failed
  }

  function Next(s: State, c: Call): State {
    match c
    case Create(t, saves) =>
      Save(s.(codes := if t.code != "" then s.codes[t.code := t] else s.codes,
              access := if t.access != "" then s.access[t.access := t] else s.access), saves)
    case GetByCode(code, saves) => if code != "" && code in s.codes then Save(s.(codes := s.codes - {code}), saves)
      else s
    case RemoveByCode(code, saves) => if code in s.codes then Save(s.(codes := s.codes - {code}), saves) else s
    case GetByAccess(_) => s
    case RemoveByAccess(access, saves) => if access in s.access then Save(s.(access := s.access - {access}), saves)
      else s
    case Restart =>
      if s.file.Saved? then State(s.file.codes, s.file.access, s.file) else State(map[], map[], s.file)
    case Damage => s.(file := Corrupt)
  }

  function Returns(s: State, c: Call): Reply {
    match c
    case Create(_, saves) => Outcome(saves)
    case GetByCode(code, saves) =>
      if code == "" || code !in s.codes then Nothing else if saves then Found(s.codes[code]) else Failed
    case RemoveByCode(code, saves) => if code in s.codes then Outcome(saves) else Nothing
    case GetByAccess(access) => if access == "" || access !in s.access then Nothing else Found(s.access[access])
    case RemoveByAccess(access, saves) => if access in s.access then Outcome(saves) else Nothing
    case _ => Nothing
  }

  function After(calls: seq<Call>): State {
    if calls == [] then START else Next(After(calls[..|calls| - 1]), calls[|calls| - 1])
  }

  /** What call `i` of a run returned. */
  function Answer(calls: seq<Call>, i: nat): Reply
    requires i < |calls|
  {
    Returns(After(calls[..i]), calls[i])
  }

  lemma AfterStep(calls: seq<Call>, i: nat)
    requires i < |calls|
    ensures After(calls[..i + 1]) == Next(After(calls[..i]), calls[i])
  {
    assert calls[..i + 1][..i] == calls[..i];
  }

  // ---------------------------------------------------------------- codes are used once

  /** Neither memory nor the file holds the code. */
  predicate Spent(s: State, code: string) {
    code !in s.codes && !(s.file.Saved? && code in s.file.codes)
  }

  predicate Issues(c: Call, code: string) {
    c.Create? && c.token.code == code
  }

  lemma SpentStays(s: State, c: Call, code: string)
    requires Spent(s, code) && !Issues(c, code)
    ensures Spent(Next(s, c), code)
  {
  }

  lemma FoundSpends(s: State, c: Call)
    requires c.GetByCode? && Returns(s, c).Found?
    ensures Spent(Next(s, c), c.code)
  {
  }

  lemma {:induction false} SpentUntilIssued(calls: seq<Call>, i: nat, j: nat, code: string)
    requires i <= j <= |calls| && Spent(After(calls[..i]), code)
    requires forall k :: i <= k < j ==> !Issues(calls[k], code)
    ensures Spent(After(calls[..j]), code)
  {
    if i < j {
      SpentUntilIssued(calls, i, j - 1, code);
      AfterStep(calls, j - 1);
      SpentStays(After(calls[..j - 1]), calls[j - 1], code);
    }
  }

  /** Over any run of calls, failed saves, damage and restarts: between two successful returns of a
      code some `Create` named it again. */
  lemma CodeUsedOnce(calls: seq<Call>, i: nat, j: nat, code: string)
    requires i < j < |calls| && calls[i].GetByCode? && calls[j].GetByCode? && calls[i].code == calls[j].code == code
    requires Answer(calls, i).Found? && Answer(calls, j).Found?
    ensures exists k :: i < k < j && Issues(calls[k], code)
  {
    if forall k :: i < k < j ==> !Issues(calls[k], code) {
      FoundSpends(After(calls[..i]), calls[i]);
      AfterStep(calls, i);
      SpentUntilIssued(calls, i + 1, j, code);
      assert false;
    }
  }

  /** A code found is the token some `Create` of that code put there. */
  ghost predicate FromCreate(calls: seq<Call>, t: Token) {
    exists k :: 0 <= k < |calls| && calls[k].Create? && calls[k].token == t
  }

  ghost predicate Keyed(calls: seq<Call>, s: State) {
    && (forall x :: x in s.codes ==> s.codes[x].code == x && FromCreate(calls, s.codes[x]))
    && (forall x :: x in s.access ==> s.access[x].access == x && FromCreate(calls, s.access[x]))
  }

  ghost predicate Rooted(calls: seq<Call>, s: State) {
    Keyed(calls, s) && (s.file.Saved? ==> Keyed(calls, State(s.file.codes, s.file.access, s.file)))
  }

  lemma FromCreateLater(calls: seq<Call>, c: Call, t: Token)
    requires FromCreate(calls, t)
    ensures FromCreate(calls + [c], t)
  {
    var k :| 0 <= k < |calls| && calls[k].Create? && calls[k].token == t;
    assert (calls + [c])[k] == calls[k];
  }

  lemma KeyedLater(calls: seq<Call>, c: Call, s: State)
    requires Keyed(calls, s)
    ensures Keyed(calls + [c], s)
  {
    hide FromCreate;
    forall x | x in s.codes ensures FromCreate(calls + [c], s.codes[x]) { FromCreateLater(calls, c, s.codes[x]); }
    forall x | x in s.access ensures FromCreate(calls + [c], s.access[x]) { FromCreateLater(calls, c, s.access[x]); }
  }

  lemma CreateIsThere(calls: seq<Call>, c: Call)
    requires c.Create?
    ensures FromCreate(calls + [c], c.token)
  {
    assert (calls + [c])[|calls|] == c;
  }

  lemma NextRooted(calls: seq<Call>, c: Call, s: State)
    requires Rooted(calls, s) && (c.Create? ==> FromCreate(calls, c.token))
    ensures Rooted(calls, Next(s, c))
  {
    hide FromCreate;
  }

  lemma {:induction false} RunIsRooted(calls: seq<Call>)
    ensures Rooted(calls, After(calls))
  {
    if calls != [] {
      hide FromCreate, Keyed, Next;
      var n := |calls| - 1;
      var before, c, s := calls[..n], calls[n], After(calls[..n]);
      RunIsRooted(before);
      assert calls == before + [c];
      KeyedLater(before, c, s);
      if s.file.Saved? { KeyedLater(before, c, State(s.file.codes, s.file.access, s.file)); }
      if c.Create? { CreateIsThere(before, c); }
      NextRooted(calls, c, s);
    }
  }

  /** Whatever a code or an access token finds was created under that very code or token. */
  lemma FoundWasCreated(calls: seq<Call>, i: nat)
    requires i < |calls| && Answer(calls, i).Found?
    ensures var t := Answer(calls, i).token;
      FromCreate(calls[..i], t) && (calls[i].GetByCode? ==> t.code == calls[i].code)
        && (calls[i].GetByAccess? ==> t.access == calls[i].access)
  {
    RunIsRooted(calls[..i]);
  }

  // ---------------------------------------------------------------- revocation

  predicate OnDisk(s: State, access: string) {
    s.file.Saved? && access in s.file.access
  }

  /** No file and no memory holds the token. */
  predicate Revoked(s: State, access: string) {
    access !in s.access && !OnDisk(s, access)
  }

  /** A revocation that reports success has removed the token for good exactly when, before the call,
      memory held the token or the file did not. */
  lemma RevocationDurable(s: State, access: string, saves: bool)
    requires Returns(s, RemoveByAccess(access, saves)) == Nothing
    ensures Revoked(Next(s, RemoveByAccess(access, saves)), access) <==> access in s.access || !OnDisk(s, access)
  {
  }

  lemma {:induction false} RevokedUntilCreated(calls: seq<Call>, i: nat, j: nat, access: string)
    requires i <= j < |calls| && Revoked(After(calls[..i]), access) && calls[j] == GetByAccess(access)
    requires forall k :: i <= k < j ==> !(calls[k].Create? && calls[k].token.access == access)
    ensures Answer(calls, j) == Nothing && Revoked(After(calls[..j]), access)
    decreases j
  {
    RevokedStays(calls, i, j, access);
  }

  lemma {:induction false} RevokedStays(calls: seq<Call>, i: nat, j: nat, access: string)
    requires i <= j <= |calls| && Revoked(After(calls[..i]), access)
    requires forall k :: i <= k < j ==> !(calls[k].Create? && calls[k].token.access == access)
    ensures Revoked(After(calls[..j]), access)
  {
    if i < j {
      RevokedStays(calls, i, j - 1, access);
      AfterStep(calls, j - 1);
    }
  }

  /** Memory and file agree. */
  predicate InStep(s: State) {
    if s.file.Saved? then s.file == Saved(s.codes, s.access) else s.codes == map[] && s.access == map[]
  }

  /** As long as no save fails and nobody damages the file, memory and file agree, so every reported
      revocation is durable; a restart makes them agree again. */
  lemma {:induction false} InStepWithoutFailure(calls: seq<Call>, i: nat, j: nat)
    requires i <= j <= |calls| && InStep(After(calls[..i]))
    requires forall k :: i <= k < j ==> Answer(calls, k) != Failed && calls[k] != Damage
    ensures InStep(After(calls[..j]))
    ensures forall a :: a in After(calls[..j]).access || !OnDisk(After(calls[..j]), a)
  {
    if i < j {
      InStepWithoutFailure(calls, i, j - 1);
      AfterStep(calls, j - 1);
      assert Answer(calls, j - 1) != Failed;
    }
  }

  lemma RestartInStep(s: State)
    ensures InStep(Next(s, Restart))
  {
  }

  /** The case the condition excludes: a revocation whose save fails reports the failure, the next
      attempt reports success, and after a restart the token is accepted again. */
  lemma RepeatedRevocation(t: Token) returns (calls: seq<Call>)
    requires t.access != ""
    ensures |calls| == 5 && calls[2] == RemoveByAccess(t.access, true) && Answer(calls, 2) == Nothing
    ensures calls[3] == Restart && calls[4] == GetByAccess(t.access) && Answer(calls, 4) == Found(t)
    ensures forall k :: 1 <= k < 5 ==> !calls[k].Create?
  {
    calls := [Create(t, true), RemoveByAccess(t.access, false), RemoveByAccess(t.access, true), Restart,
      GetByAccess(t.access)];
    assert calls[..0] == [];
    AfterStep(calls, 0);
    AfterStep(calls, 1);
    AfterStep(calls, 2);
    AfterStep(calls, 3);
    var s1 := After(calls[..1]);
    assert s1.access == map[t.access := t] && s1.file == Saved(s1.codes, s1.access);
  }

  // ---------------------------------------------------------------- the store

  lemma AfterCall(calls: seq<Call>, c: Call)
    ensures After(calls + [c]) == Next(After(calls), c)
  {
    assert (calls + [c])[..|calls|] == calls;
  }

  /** The store object. `calls` records every call since the file was first written, so that what is
      proved of runs of calls holds of it. */
  class Store {
    var codes: map<string, Token>
    var access: map<string, Token>
    var file: File
    ghost var calls: seq<Call>

    ghost function Now(): State
      reads this
    {
      State(codes, access, file)
    }

    /** The store stands where its calls lead, and every token is under its own name. */
    ghost predicate Valid()
      reads this
    {
      Now() == After(calls) && Rooted(calls, Now())
    }

    /** A store opened on what earlier calls left in the file: it holds exactly that. */
    constructor (file: File, ghost history: seq<Call>)
      requires file == After(history).file
      ensures Valid() && calls == history + [Restart] && this.file == file && InStep(Now())
    {
      this.file := file;
      codes, access := map[], map[];
      calls := history;
      new;
      Load();
      Record(Restart);
    }

    method Load()
      modifies `codes, `access
      ensures Now() == if file.Saved? then State(file.codes, file.access, file) else old(Now())
    {
      match file {
        case Missing =>
        case Corrupt =>
        case Saved(c, a) => codes, access := c, a;
      }
    }

    method SaveLocked(saves: bool)
      modifies `file
      ensures Now() == Save(old(Now()), saves)
    {
      if saves { file := Saved(codes, access); }
    }

    /** Notes a call that has been carried out. */
    ghost method Record(c: Call)
      requires Now() == Next(After(calls), c)
      modifies `calls
      ensures Valid() && calls == old(calls) + [c]
    {
      AfterCall(calls, c);
      calls := calls + [c];
      RunIsRooted(calls);
    }

    /** A token whose creation reports success is found by its access value, and by its code, now and
        after a restart. */
    method CreateToken(t: Token, saves: bool) returns (r: Reply)
      requires Valid()
      modifies this
      ensures Valid() && calls == old(calls) + [Create(t, saves)] && r == Returns(After(old(calls)), Create(t, saves))
      ensures t.access != "" ==> Returns(Now(), GetByAccess(t.access)) == Found(t)
      ensures r != Failed && t.access != "" ==> Returns(Next(Now(), Restart), GetByAccess(t.access)) == Found(t)
      ensures r != Failed && t.code != "" ==> Returns(Next(Now(), Restart), GetByCode(t.code, true)) == Found(t)
      ensures r != Failed ==> InStep(Now())
    {
      hide After, Rooted;
      if t.code != "" { codes := codes[t.code := t]; }
      if t.access != "" { access := access[t.access := t]; }
      SaveLocked(saves);
      Record(Create(t, saves));
      r := Outcome(saves);
    }

    /** A code that is found was issued under that name and is from then on in neither memory nor file. */
    method FindByCode(code: string, saves: bool) returns (r: Reply)
      requires Valid()
      modifies `codes, `file, `calls
      ensures Valid() && calls == old(calls) + [GetByCode(code, saves)]
      ensures r == Returns(After(old(calls)), GetByCode(code, saves))
      ensures r.Found? ==> r.token.code == code && FromCreate(old(calls), r.token) && Spent(Now(), code)
      ensures code !in codes || code == ""
    {
      hide After, FromCreate;
      if code == "" || code !in codes {
        Record(GetByCode(code, saves));
        return Nothing;
      }
      var t := codes[code];
      codes := codes - {code};
      SaveLocked(saves);
      Record(GetByCode(code, saves));
      r := if saves then Found(t) else Failed;
    }

    /** A removal that reports success has spent the code exactly when memory held it or the file did not. */
    method DeleteByCode(code: string, saves: bool) returns (r: Reply)
      requires Valid()
      modifies `codes, `file, `calls
      ensures Valid() && calls == old(calls) + [RemoveByCode(code, saves)]
      ensures r == Returns(After(old(calls)), RemoveByCode(code, saves))
      ensures code !in codes
      ensures r != Failed ==> (Spent(Now(), code) <==>
        code in old(codes) || !(old(file).Saved? && code in old(file).codes))
    {
      hide After, Rooted;
      if code !in codes {
        Record(RemoveByCode(code, saves));
        return Nothing;
      }
      codes := codes - {code};
      SaveLocked(saves);
      Record(RemoveByCode(code, saves));
      r := Outcome(saves);
    }

    /** A token that is found was created under that access value; one that is not is not in memory. */
    method FindByAccess(token: string) returns (r: Reply)
      requires Valid()
      modifies `calls
      ensures Valid() && calls == old(calls) + [GetByAccess(token)]
      ensures r == Returns(After(old(calls)), GetByAccess(token))
      ensures r.Found? ==> r.token.access == token && FromCreate(old(calls), r.token)
      ensures !r.Found? ==> r == Nothing && (token == "" || token !in access)
    {
      hide After, FromCreate;
      Record(GetByAccess(token));
      if token == "" || token !in access { return Nothing; }
      r := Found(access[token]);
    }

    /** A revocation that reports success is durable exactly when memory held the token or the file
        did not. */
    method DeleteByAccess(token: string, saves: bool) returns (r: Reply)
      requires Valid()
      modifies `access, `file, `calls
      ensures Valid() && calls == old(calls) + [RemoveByAccess(token, saves)]
      ensures r == Returns(After(old(calls)), RemoveByAccess(token, saves)) && token !in access
      ensures r != Failed ==> (Revoked(Now(), token) <==> token in old(access) || !OnDisk(old(Now()), token))
    {
      hide After, Rooted;
      if token !in access {
        Record(RemoveByAccess(token, saves));
        return Nothing;
      }
      access := access - {token};
      SaveLocked(saves);
      Record(RemoveByAccess(token, saves));
      r := Outcome(saves);
    }
  }
}
