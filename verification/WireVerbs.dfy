/** Every verb of the protocol: what its frame must say, and that a frame that says it is read as meant. */
module WireVerbs {
  import opened Base
  import opened Text
  import opened Scopes
  import opened Wire

  function OpOf(r: Request): string {
    match r
    case Hello(_) => "HELLO"
    case Register(_, _, _) => "REGISTER"
    case Unregister(_) => "UNREGISTER"
    case Get(_, _, _, _) => "GET"
    case RequestGrant(_, _, _, _) => "REQUEST"
    case Authorize(_, _, _) => "AUTHORIZE"
    case Redeem(_, _) => "REDEEM"
    case Grants => "GRANTS"
    case Deny(_) => "DENY"
    case Lock => "LOCK"
    case Subscribe => "SUBSCRIBE"
  }

  predicate IsVerb(op: string) {
    || op == "HELLO" || op == "REGISTER" || op == "UNREGISTER" || op == "GET" || op == "REQUEST" || op == "AUTHORIZE"
    || op == "REDEEM" || op == "GRANTS" || op == "DENY" || op == "LOCK" || op == "SUBSCRIBE"
  }

  /** The field is there and is this number, below the limit. */
  predicate SaysNumber(fields: seq<Field>, name: string, n: nat, limit: nat) {
    Lookup(fields, name).Some? && ParseUnsigned(Lookup(fields, name).value, limit) == Some(n)
  }

  /** The field is there and is this number, or neither is. */
  predicate SaysTtl(fields: seq<Field>, ttl: Option<nat>) {
    if ttl.None? then Lookup(fields, "ttl").None? else ttl.value > 0 && SaysNumber(fields, "ttl", ttl.value, U64_LIMIT)
  }

  /** The fields say what the request means. */
  predicate Says(fields: seq<Field>, r: Request) {
    match r
    case Hello(version) => SaysNumber(fields, "version", version, U32_LIMIT)
    case Register(credential, session, pid) =>
      && Lookup(fields, "token") == Some(credential) && Lookup(fields, "session") == Some(session)
      && Lookup(fields, "pid").Some? && ParseI32(Lookup(fields, "pid").value) == Some(pid)
    case Unregister(session) => Lookup(fields, "session") == Some(session)
    case Get(key, token, tty, ttl) =>
      && Lookup(fields, "key") == Some(key) && Lookup(fields, "token") == token && Lookup(fields, "tty") == tty
      && SaysTtl(fields, ttl)
    case RequestGrant(key, token, tty, ttl) =>
      && Lookup(fields, "key") == Some(key) && Lookup(fields, "token") == token && Lookup(fields, "tty") == tty
      && SaysTtl(fields, ttl)
    case Authorize(cap, token, tty) =>
      Lookup(fields, "cap") == Some(cap) && Lookup(fields, "token") == token && Lookup(fields, "tty") == tty
    case Redeem(receipt, cap) => Lookup(fields, "receipt") == Some(receipt) && Lookup(fields, "cap") == Some(cap)
    case Grants => true
    case Deny(id) => SaysNumber(fields, "id", id, U64_LIMIT)
    case Lock => true
    case Subscribe => fields == []
  }

  lemma ScopedIff(fields: seq<Field>, r: Request)
    ensures Scoped(fields, MakeGet()) == Ok(r) <==> r.Get? && Says(fields, r)
    ensures Scoped(fields, MakeRequest()) == Ok(r) <==> r.RequestGrant? && Says(fields, r)
  {
  }

  lemma ReadIff(op: string, fields: seq<Field>, r: Request)
    ensures Assemble(op, fields) == Ok(r) <==> op == OpOf(r) && Says(fields, r)
  {
    ScopedIff(fields, r);
  }

  lemma RefusedAs(op: string, fields: seq<Field>)
    ensures Assemble(op, fields).Err? ==> Assemble(op, fields).error == if IsVerb(op) then BadRequest else UnknownOp
  {
  }

  /** A request is read exactly when its verb is named and its fields say it; other verbs are unknown, the rest bad. */
  lemma AssembleIff(op: string, fields: seq<Field>, r: Request)
    ensures Assemble(op, fields) == Ok(r) <==> op == OpOf(r) && Says(fields, r)
    ensures Assemble(op, fields).Err? ==> Assemble(op, fields).error == if IsVerb(op) then BadRequest else UnknownOp
  {
    ReadIff(op, fields, r);
    RefusedAs(op, fields);
  }

  // ---- Printed and read back ----

  function Signed(n: int): string { if n < 0 then "-" + Decimal(-n) else Decimal(n) }

  /** The fields a request is printed with. */
  function FieldsOf(r: Request): seq<Field> {
    match r
    case Hello(version) => [Field("version", Decimal(version))]
    case Register(credential, session, pid) =>
      [Field("token", credential), Field("session", session), Field("pid", Signed(pid))]
    case Unregister(session) => [Field("session", session)]
    case Get(key, token, tty, ttl) => ScopedFields(key, token, tty, ttl)
    case RequestGrant(key, token, tty, ttl) => ScopedFields(key, token, tty, ttl)
    case Authorize(cap, token, tty) => [Field("cap", cap)] + Optional("token", token) + Optional("tty", tty)
    case Redeem(receipt, cap) => [Field("receipt", receipt), Field("cap", cap)]
    case Grants => []
    case Deny(id) => [Field("id", Decimal(id))]
    case Lock => []
    case Subscribe => []
  }

  predicate TtlFits(ttl: Option<nat>) { ttl.Some? ==> 0 < ttl.value < U64_LIMIT }

  /** Its numbers fit the types they are read into, and a lifetime that is asked for is not zero. */
  predicate Fits(r: Request) {
    match r
    case Hello(version) => version < U32_LIMIT
    case Register(_, _, pid) => -0x8000_0000 <= pid < 0x8000_0000
    case Get(_, _, _, ttl) => TtlFits(ttl)
    case RequestGrant(_, _, _, ttl) => TtlFits(ttl)
    case Deny(id) => id < U64_LIMIT
    case _ => true
  }

  lemma MinusIsRead(digits: string)
    requires digits != "" && AllDigits(digits) && Value(digits) <= 0x8000_0000
    ensures ParseI32("-" + digits) == Some(0 - Value(digits) as int)
  {
    assert ("-" + digits)[1..] == digits;
  }

  lemma PlainIsRead(digits: string, n: nat)
    requires digits != "" && AllDigits(digits) && ParseUnsigned(digits, 0x8000_0000) == Some(n)
    ensures ParseI32(digits) == Some(n)
  {
    assert IsDigit(digits[0]);
  }

  lemma SignedIsRead(n: int)
    requires -0x8000_0000 <= n < 0x8000_0000
    ensures ParseI32(Signed(n)) == Some(n)
  {
    if n < 0 {
      ValueOfDecimal(-n);
      MinusIsRead(Decimal(-n));
    } else {
      ParseOfDecimal(n, 0x8000_0000);
      PlainIsRead(Decimal(n), n);
    }
  }

  lemma TtlIsSaid(fields: seq<Field>, ttl: Option<nat>)
    requires Lookup(fields, "ttl") == Shown(ttl) && TtlFits(ttl)
    ensures SaysTtl(fields, ttl)
  {
    if ttl.Some? { ParseOfDecimal(ttl.value, U64_LIMIT); }
  }

  lemma ScopedSays(key: string, token: Option<string>, tty: Option<string>, ttl: Option<nat>)
    requires TtlFits(ttl)
    ensures Says(ScopedFields(key, token, tty, ttl), Get(key, token, tty, ttl))
    ensures Says(ScopedFields(key, token, tty, ttl), RequestGrant(key, token, tty, ttl))
  {
    var fields := ScopedFields(key, token, tty, ttl);
    assert Lookup(fields, "key") == Some(key) by { ScopedLookup(key, token, tty, ttl, "key"); }
    assert Lookup(fields, "token") == token by { ScopedLookup(key, token, tty, ttl, "token"); }
    assert Lookup(fields, "tty") == tty by { ScopedLookup(key, token, tty, ttl, "tty"); }
    assert Lookup(fields, "ttl") == Shown(ttl) by { ScopedLookup(key, token, tty, ttl, "ttl"); }
    TtlIsSaid(fields, ttl);
  }

  lemma TwoLookup(a: Field, b: Field, wanted: string)
    ensures Lookup([a, b], wanted) ==
            if a.name == wanted then Some(a.value) else if b.name == wanted then Some(b.value) else None
  {
    assert [a, b][1..] == [b] && [b][1..] == [];
    assert Lookup([b], wanted) == if b.name == wanted then Some(b.value) else None;
  }

  lemma ThreeLookup(a: Field, b: Field, c: Field, wanted: string)
    ensures Lookup([a, b, c], wanted) ==
            if a.name == wanted then Some(a.value) else if b.name == wanted then Some(b.value)
            else if c.name == wanted then Some(c.value) else None
  {
    assert [a, b, c][1..] == [b, c];
    TwoLookup(b, c, wanted);
  }

  lemma AuthorizeLookup(cap: string, token: Option<string>, tty: Option<string>, wanted: string)
    ensures Lookup(FieldsOf(Authorize(cap, token, tty)), wanted) ==
            if wanted == "cap" then Some(cap) else if wanted == "token" then token
            else if wanted == "tty" then tty else None
  {
    var first := [Field("cap", cap)];
    OptionalLookup(first, "token", token, wanted);
    OptionalLookup(first + Optional("token", token), "tty", tty, wanted);
  }

  lemma AuthorizeNamed(cap: string, token: Option<string>, tty: Option<string>)
    ensures WellNamed(FieldsOf(Authorize(cap, token, tty)))
  {
    var first := [Field("cap", cap)];
    assert Named(first[0]);
    NamedAppend(first, "token", token);
    OptionalLookup(first, "token", token, "tty");
    NamedAppend(first + Optional("token", token), "tty", tty);
  }

  lemma AuthorizeSays(cap: string, token: Option<string>, tty: Option<string>)
    ensures Says(FieldsOf(Authorize(cap, token, tty)), Authorize(cap, token, tty))
  {
    AuthorizeLookup(cap, token, tty, "cap");
    AuthorizeLookup(cap, token, tty, "token");
    AuthorizeLookup(cap, token, tty, "tty");
  }

  lemma RegisterSays(credential: string, session: string, pid: int)
    requires -0x8000_0000 <= pid < 0x8000_0000
    ensures Says(FieldsOf(Register(credential, session, pid)), Register(credential, session, pid))
  {
    var a, b, c := Field("token", credential), Field("session", session), Field("pid", Signed(pid));
    SignedIsRead(pid);
    ThreeLookup(a, b, c, "token");
    ThreeLookup(a, b, c, "session");
    ThreeLookup(a, b, c, "pid");
  }

  lemma ThreeNamed(a: Field, b: Field, c: Field)
    requires Named(a) && Named(b) && Named(c) && a.name != b.name && a.name != c.name && b.name != c.name
    ensures WellNamed([a, b, c])
  {
  }

  lemma RegisterNamed(credential: string, session: string, pid: int)
    ensures WellNamed(FieldsOf(Register(credential, session, pid)))
  {
    ThreeNamed(Field("token", credential), Field("session", session), Field("pid", Signed(pid)));
  }

  lemma RedeemSays(receipt: string, cap: string)
    ensures Says(FieldsOf(Redeem(receipt, cap)), Redeem(receipt, cap)) && WellNamed(FieldsOf(Redeem(receipt, cap)))
  {
    var a, b := Field("receipt", receipt), Field("cap", cap);
    TwoLookup(a, b, "receipt");
    TwoLookup(a, b, "cap");
    assert Named(a) && Named(b);
  }

  lemma NumberSays(name: string, n: nat, limit: nat)
    requires n < limit && Named(Field(name, Decimal(n)))
    ensures SaysNumber([Field(name, Decimal(n))], name, n, limit) && WellNamed([Field(name, Decimal(n))])
  {
    ParseOfDecimal(n, limit);
  }

  /** What is printed says what is meant, under distinct names. */
  lemma PrintedSays(r: Request)
    requires Fits(r)
    ensures Says(FieldsOf(r), r) && WellNamed(FieldsOf(r))
  {
    match r
    case Hello(version) => NumberSays("version", version, U32_LIMIT);
    case Register(credential, session, pid) =>
      RegisterSays(credential, session, pid);
      RegisterNamed(credential, session, pid);
    case Unregister(session) => assert Named(FieldsOf(r)[0]);
    case Get(key, token, tty, ttl) =>
      ScopedSays(key, token, tty, ttl);
      ScopedAreNamed(key, token, tty, ttl);
    case RequestGrant(key, token, tty, ttl) =>
      ScopedSays(key, token, tty, ttl);
      ScopedAreNamed(key, token, tty, ttl);
    case Authorize(cap, token, tty) =>
      AuthorizeSays(cap, token, tty);
      AuthorizeNamed(cap, token, tty);
    case Redeem(receipt, cap) => RedeemSays(receipt, cap);
    case Deny(id) => NumberSays("id", id, U64_LIMIT);
    case Grants | Lock | Subscribe =>
  }

  lemma VerbIsClean(r: Request)
    ensures Clean(OpOf(r), '\t') && OpOf(r) != ""
  {
  }

  /** Every request whose values hold no tab, printed, is read back as it was. */
  lemma RequestRoundTrip(r: Request)
    requires Fits(r) && CleanUpTo(FieldsOf(r), |FieldsOf(r)|)
    requires IsUtf8(Frame(OpOf(r), FieldsOf(r))) && |Frame(OpOf(r), FieldsOf(r))| <= MAX_FRAME_BYTES
    ensures Parsed(Frame(OpOf(r), FieldsOf(r))) == Ok(r)
  {
    PrintedSays(r);
    VerbIsClean(r);
    FieldsRoundTrip(OpOf(r), FieldsOf(r));
    AssembleIff(OpOf(r), FieldsOf(r), r);
  }

  // ---- Exactly the frames that are read ----

  function Joined(pieces: seq<string>): string
    requires pieces != []
  {
    if |pieces| == 1 then pieces[0] else pieces[0] + ['\t'] + Joined(pieces[1..])
  }

  lemma {:induction false} SplitJoins(s: string)
    ensures Joined(Split(s, '\t')) == s
    ensures forall i :: 0 <= i < |Split(s, '\t')| ==> Clean(Split(s, '\t')[i], '\t')
  {
    if s != "" {
      var pieces, rest := Split(s, '\t'), Split(s[1..], '\t');
      SplitJoins(s[1..]);
      assert s == [s[0]] + s[1..];
      if s[0] == '\t' {
        assert pieces[1..] == rest;
        assert Joined(pieces) == "" + ['\t'] + s[1..];
      } else {
        HeadJoins(s[0], rest);
      }
    }
  }

  lemma HeadJoins(c: char, rest: seq<string>)
    requires rest != []
    ensures Joined([[c] + rest[0]] + rest[1..]) == [c] + Joined(rest)
  {
    var pieces := [[c] + rest[0]] + rest[1..];
    if |rest| > 1 {
      assert pieces[1..] == rest[1..];
      assert [c] + rest[0] + ['\t'] + Joined(rest[1..]) == [c] + (rest[0] + ['\t'] + Joined(rest[1..]));
    }
  }

  lemma {:induction false} ItemsJoin(op: string, fields: seq<Field>)
    ensures Joined([op] + Items(fields)) == Frame(op, fields)
    decreases |fields|
  {
    if fields == [] {
      assert [op] + Items(fields) == [op] && op + "" == op;
    } else {
      var item, rest := Item(fields[0]), fields[1..];
      ItemsJoin(item, rest);
      assert ([op] + Items(fields))[1..] == [item] + Items(rest);
      assert op + ['\t'] + (item + Tail(rest)) == op + (['\t'] + (item + Tail(rest)));
    }
  }

  /** The field loop gathers exactly the pieces that are items, under distinct names. */
  lemma {:induction false} CollectIs(pieces: seq<string>, done: seq<Field>, fields: seq<Field>)
    requires Collect(pieces, done) == Ok(fields) && WellNamed(done)
    requires forall i :: 0 <= i < |pieces| ==> Clean(pieces[i], '\t')
    ensures done <= fields && WellNamed(fields) && Items(fields[|done|..]) == pieces
    decreases |pieces|
  {
    if pieces != [] {
      var pair := SplitOnce(pieces[0], '=').value;
      var f := Field(pair.0, pair.1);
      SplitOnceIff(pieces[0], '=', pair.0, pair.1);
      ItemIsNamed(pieces[0], f);
      NamedAppend(done, f.name, Some(f.value));
      assert done + Optional(f.name, Some(f.value)) == done + [f];
      CollectIs(pieces[1..], done + [f], fields);
      assert fields[|done|..][0] == f && fields[|done|..][1..] == fields[|done| + 1..];
    }
  }

  lemma ItemIsNamed(piece: string, f: Field)
    requires piece == f.name + ['='] + f.value && Clean(piece, '\t') && Clean(f.name, '=')
    ensures Named(f) && Clean(f.value, '\t') && piece == Item(f)
  {
    assert forall i :: 0 <= i < |f.name| ==> piece[i] == f.name[i];
    assert forall i :: 0 <= i < |f.value| ==> piece[|f.name| + 1 + i] == f.value[i];
  }

  lemma {:induction false} ItemAt(fields: seq<Field>, i: nat)
    requires i < |fields|
    ensures |Items(fields)| == |fields| && Items(fields)[i] == Item(fields[i])
    decreases |fields|
  {
    if |fields| > 1 { ItemAt(fields[1..], if i > 0 then i - 1 else 0); }
  }

  lemma ItemsAreClean(fields: seq<Field>)
    requires forall i :: 0 <= i < |Items(fields)| ==> Clean(Items(fields)[i], '\t')
    ensures CleanUpTo(fields, |fields|)
  {
    forall i | 0 <= i < |fields|
      ensures Clean(fields[i].value, '\t')
    {
      var f := fields[i];
      ItemAt(fields, i);
      var item := Items(fields)[i];
      assert forall j :: 0 <= j < |f.value| ==> item[|f.name| + 1 + j] == f.value[j];
    }
  }

  /** The line is the frame of this verb with these fields: distinctly named, and tab-free. */
  ghost predicate IsFrameOf(line: string, r: Request, fields: seq<Field>) {
    line == Frame(OpOf(r), fields) && WellNamed(fields) && CleanUpTo(fields, |fields|) && Says(fields, r)
  }

  lemma ReadLine(line: string, r: Request) returns (fields: seq<Field>)
    requires Parsed(line) == Ok(r)
    ensures IsFrameOf(line, r, fields)
  {
    var pieces := Split(line, '\t');
    fields := Collect(pieces[1..], []).value;
    SplitJoins(line);
    CollectIs(pieces[1..], [], fields);
    assert fields[0..] == fields;
    AssembleIff(pieces[0], fields, r);
    ItemsJoin(pieces[0], fields);
    assert [pieces[0]] + pieces[1..] == pieces;
    ItemsAreClean(fields);
  }

  /**
   A line is read as a request exactly when it is not empty, fits a frame, is UTF-8, and is the request's verb
   with tab-free, distinctly named fields that say what it means.
   */
  lemma ParsedIff(line: string, r: Request)
    ensures Parsed(line) == Ok(r) <==>
            0 < |line| <= 4096 && IsUtf8(line) && exists fields: seq<Field> :: IsFrameOf(line, r, fields)
  {
    if Parsed(line) == Ok(r) {
      var fields := ReadLine(line, r);
    }
    if fields: seq<Field> :| IsFrameOf(line, r, fields) {
      VerbIsClean(r);
      FieldsRoundTrip(OpOf(r), fields);
      AssembleIff(OpOf(r), fields, r);
    }
  }
}
