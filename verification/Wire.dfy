/** The broker's wire formats: request frames and authority events, printed and parsed back. */
module Wire {
  import opened Base
  import opened Text
  import opened Scopes

  const MAX_FRAME_BYTES: nat := 4096

  datatype Field = Field(name: string, value: string)

  // ---- Frames ----

  /** An operation, then each field after a tab. */
  function Item(f: Field): string { f.name + ['='] + f.value }

  function Tail(fields: seq<Field>): string {
    if fields == [] then "" else ['\t'] + (Item(fields[0]) + Tail(fields[1..]))
  }

  function Frame(op: string, fields: seq<Field>): string { op + Tail(fields) }

  /** The field loop of `parse_request`: each piece splits at its first `=`, and no name comes twice. */
  function Collect(pieces: seq<string>, fields: seq<Field>): Result<seq<Field>, ErrCode>
    decreases |pieces|
  {
    if pieces == [] then Ok(fields)
    else
      var pair := SplitOnce(pieces[0], '=');
      if pair.None? || Lookup(fields, pair.value.0).Some? then Err(BadRequest)
      else Collect(pieces[1..], fields + [Field(pair.value.0, pair.value.1)])
  }

  /** `field`: the value of the first field with that name. */
  function Lookup(fields: seq<Field>, name: string): Option<string> {
    if fields == [] then None
    else if fields[0].name == name then Some(fields[0].value)
    else Lookup(fields[1..], name)
  }

  datatype Request =
    | Hello(version: nat)
    | Register(credential: string, session: string, pid: int)
    | Unregister(session: string)
    | Get(key: string, token: Option<string>, tty: Option<string>, ttl: Option<nat>)
    | RequestGrant(key: string, token: Option<string>, tty: Option<string>, ttl: Option<nat>)
    | Authorize(cap: string, token: Option<string>, tty: Option<string>)
    | Redeem(receipt: string, cap: string)
    | Grants
    | Deny(id: nat)
    | Lock
    | Subscribe

  /** A `ttl` field that is present must be a number other than zero. */
  function TtlOf(fields: seq<Field>): Result<Option<nat>, ErrCode> {
    var raw := Lookup(fields, "ttl");
    if raw.None? then Ok(None)
    else
      var secs := ParseUnsigned(raw.value, U64_LIMIT);
      if secs.None? || secs.value == 0 then Err(BadRequest) else Ok(Some(secs.value))
  }

  /** The two operations that ask for a key under whichever scope the caller has. */
  function Scoped(fields: seq<Field>, make: (string, Option<string>, Option<string>, Option<nat>) -> Request)
    : Result<Request, ErrCode>
  {
    var key, ttl := Lookup(fields, "key"), TtlOf(fields);
    if key.None? || ttl.Err? then Err(BadRequest)
    else Ok(make(key.value, Lookup(fields, "token"), Lookup(fields, "tty"), ttl.value))
  }

  function MakeGet(): (string, Option<string>, Option<string>, Option<nat>) -> Request {
    (key, token, tty, ttl) => Get(key, token, tty, ttl)
  }

  function MakeRequest(): (string, Option<string>, Option<string>, Option<nat>) -> Request {
    (key, token, tty, ttl) => RequestGrant(key, token, tty, ttl)
  }

  function Assemble(op: string, fields: seq<Field>): Result<Request, ErrCode> {
    if op == "HELLO" then
      var version := Lookup(fields, "version");
      if version.None? || ParseUnsigned(version.value, U32_LIMIT).None? then Err(BadRequest)
      else Ok(Hello(ParseUnsigned(version.value, U32_LIMIT).value))
    else if op == "REGISTER" then
      var token, session, pid := Lookup(fields, "token"), Lookup(fields, "session"), Lookup(fields, "pid");
      if token.None? || session.None? || pid.None? || ParseI32(pid.value).None? then Err(BadRequest)
      else Ok(Register(token.value, session.value, ParseI32(pid.value).value))
    else if op == "UNREGISTER" then
      var session := Lookup(fields, "session");
      if session.None? then Err(BadRequest) else Ok(Unregister(session.value))
    else if op == "GET" then Scoped(fields, MakeGet())
    else if op == "REQUEST" then Scoped(fields, MakeRequest())
    else if op == "AUTHORIZE" then
      var cap := Lookup(fields, "cap");
      if cap.None? then Err(BadRequest) else Ok(Authorize(cap.value, Lookup(fields, "token"), Lookup(fields, "tty")))
    else if op == "REDEEM" then
      var receipt, cap := Lookup(fields, "receipt"), Lookup(fields, "cap");
      if receipt.None? || cap.None? then Err(BadRequest) else Ok(Redeem(receipt.value, cap.value))
    else if op == "GRANTS" then Ok(Grants)
    else if op == "DENY" then
      var id := Lookup(fields, "id");
      if id.None? || ParseUnsigned(id.value, U64_LIMIT).None? then Err(BadRequest)
      else Ok(Deny(ParseUnsigned(id.value, U64_LIMIT).value))
    else if op == "LOCK" then Ok(Lock)
    else if op == "SUBSCRIBE" then (if fields == [] then Ok(Subscribe) else Err(BadRequest))
    else Err(UnknownOp)
  }

  function Parsed(line: string): Result<Request, ErrCode> {
    if line == "" || |line| > MAX_FRAME_BYTES || !IsUtf8(line) then Err(BadRequest)
    else
      var pieces := Split(line, '\t');
      var fields := Collect(pieces[1..], []);
      if fields.Err? then Err(fields.error) else Assemble(pieces[0], fields.value)
  }

  /** The parser: fields are gathered one piece at a time, then the operation decides. */
  method ParseRequest(line: string) returns (r: Result<Request, ErrCode>)
    ensures r == Parsed(line)
  {
    if line == "" || |line| > MAX_FRAME_BYTES || !IsUtf8(line) { return Err(BadRequest); }
    var pieces := Split(line, '\t');
    var fields: seq<Field> := [];
    var i := 1;
    while i < |pieces|
      invariant 1 <= i <= |pieces|
      invariant Collect(pieces[1..], []) == Collect(pieces[i..], fields)
    {
      var pair := SplitOnce(pieces[i], '=');
      if pair.None? || Lookup(fields, pair.value.0).Some? { return Err(BadRequest); }
      fields := fields + [Field(pair.value.0, pair.value.1)];
      i := i + 1;
    }
    r := Assemble(pieces[0], fields);
  }

  // ---- Fields survive the round trip ----

  predicate Named(f: Field) { Clean(f.name, '\t') && Clean(f.name, '=') }

  ghost predicate WellNamed(fields: seq<Field>) {
    && (forall i :: 0 <= i < |fields| ==> Named(fields[i]))
    && (forall i, j :: 0 <= i < j < |fields| ==> fields[i].name != fields[j].name)
  }

  ghost predicate CleanUpTo(fields: seq<Field>, n: nat) {
    forall i :: 0 <= i < n && i < |fields| ==> Clean(fields[i].value, '\t')
  }

  function Items(fields: seq<Field>): seq<string> {
    if fields == [] then [] else [Item(fields[0])] + Items(fields[1..])
  }

  lemma {:induction false} FrameSplits(head: string, fields: seq<Field>)
    requires Clean(head, '\t') && (forall i :: 0 <= i < |fields| ==> Named(fields[i])) && CleanUpTo(fields, |fields|)
    ensures Split(head + Tail(fields), '\t') == [head] + Items(fields)
    decreases |fields|
  {
    if fields == [] {
      assert head + Tail(fields) == head;
      SplitClean(head, '\t');
    } else {
      var item := Item(fields[0]);
      assert Named(fields[0]) && Clean(fields[0].value, '\t');
      FrameSplits(item, fields[1..]);
      assert head + Tail(fields) == head + ['\t'] + (item + Tail(fields[1..]));
      SplitAfter(head, '\t', item + Tail(fields[1..]));
    }
  }

  /** A value with a tab comes back cut short at the tab, and everything before it intact. */
  lemma {:induction false} FrameCutsAt(head: string, fields: seq<Field>, i: nat)
    requires Clean(head, '\t') && (forall j :: 0 <= j < |fields| ==> Named(fields[j]))
    requires i < |fields| && CleanUpTo(fields, i) && !Clean(fields[i].value, '\t')
    ensures var pieces := Split(head + Tail(fields), '\t');
            && |pieces| > i + 1
            && pieces[i + 1] == fields[i].name + ['='] + Split(fields[i].value, '\t')[0]
            && forall j :: 0 <= j < i ==> pieces[j + 1] == Item(fields[j])
    decreases i
  {
    var item, rest := Item(fields[0]), fields[1..];
    assert head + Tail(fields) == head + ['\t'] + (item + Tail(rest));
    SplitAfter(head, '\t', item + Tail(rest));
    assert Named(fields[0]);
    if i == 0 {
      var prefix := fields[0].name + ['='];
      assert item + Tail(rest) == prefix + (fields[0].value + Tail(rest));
      SplitPrefix(prefix, '\t', fields[0].value + Tail(rest));
      SplitDirty(fields[0].value, '\t', Tail(rest));
    } else {
      assert Clean(fields[0].value, '\t');
      FrameCutsAt(item, rest, i - 1);
      var pieces := Split(head + Tail(fields), '\t');
      var after := Split(item + Tail(rest), '\t');
      assert after[0] == item by { CutHead(item, rest, i - 1); }
      forall j | 0 <= j < i
        ensures pieces[j + 1] == Item(fields[j])
      {
        if j > 0 { assert after[j - 1 + 1] == Item(rest[j - 1]); }
      }
    }
  }

  lemma CutHead(head: string, fields: seq<Field>, i: nat)
    requires Clean(head, '\t') && i < |fields|
    ensures Split(head + Tail(fields), '\t')[0] == head
  {
    assert head + Tail(fields) == head + ['\t'] + (Item(fields[0]) + Tail(fields[1..]));
    SplitAfter(head, '\t', Item(fields[0]) + Tail(fields[1..]));
  }

  lemma {:induction false} LookupAppend(fields: seq<Field>, f: Field, name: string)
    ensures Lookup(fields + [f], name) ==
            if Lookup(fields, name).Some? then Lookup(fields, name) else if f.name == name then Some(f.value) else None
  {
    if fields != [] {
      assert (fields + [f])[1..] == fields[1..] + [f];
      LookupAppend(fields[1..], f, name);
    }
  }

  lemma {:induction false} LookupAbsent(fields: seq<Field>, name: string)
    requires forall i :: 0 <= i < |fields| ==> fields[i].name != name
    ensures Lookup(fields, name).None?
  {
    if fields != [] { LookupAbsent(fields[1..], name); }
  }

  lemma {:induction false} LookupAt(fields: seq<Field>, i: nat)
    requires i < |fields| && forall j :: 0 <= j < i ==> fields[j].name != fields[i].name
    ensures Lookup(fields, fields[i].name) == Some(fields[i].value)
    decreases i
  {
    if i > 0 { LookupAt(fields[1..], i - 1); }
  }

  /** Items of distinct names are gathered back as they were. */
  lemma {:induction false} CollectItems(done: seq<Field>, fields: seq<Field>)
    requires WellNamed(done + fields)
    ensures Collect(Items(fields), done) == Ok(done + fields)
    decreases |fields|
  {
    if fields == [] {
      assert done + fields == done;
    } else {
      var f := fields[0];
      assert (done + fields)[|done|] == f && Named(f);
      SplitOnceFinds(f.name, '=', f.value);
      forall i | 0 <= i < |done|
        ensures done[i].name != f.name
      {
        assert (done + fields)[i] == done[i];
      }
      LookupAbsent(done, f.name);
      assert done + fields == (done + [f]) + fields[1..];
      CollectItems(done + [f], fields[1..]);
      assert Items(fields)[1..] == Items(fields[1..]);
    }
  }

  /** Every gathered field is its piece, in order. */
  lemma {:induction false} CollectedIs(pieces: seq<string>, done: seq<Field>, j: nat)
    requires Collect(pieces, done).Ok? && j < |done| + |pieces|
    ensures var fields := Collect(pieces, done).value;
            && |fields| == |done| + |pieces|
            && (j < |done| ==> fields[j] == done[j])
            && (j >= |done| ==> SplitOnce(pieces[j - |done|], '=') == Some((fields[j].name, fields[j].value)))
    decreases |pieces|
  {
    if pieces != [] {
      var pair := SplitOnce(pieces[0], '=').value;
      CollectedIs(pieces[1..], done + [Field(pair.0, pair.1)], j);
    }
  }

  // ---- `scoped_frame` ----

  function Optional(name: string, value: Option<string>): seq<Field> {
    if value.Some? then [Field(name, value.value)] else []
  }

  function Shown(ttl: Option<nat>): Option<string> { if ttl.Some? then Some(Decimal(ttl.value)) else None }

  function ScopedFields(key: string, token: Option<string>, tty: Option<string>, ttl: Option<nat>): seq<Field> {
    [Field("key", key)] + Optional("token", token) + Optional("tty", tty) + Optional("ttl", Shown(ttl))
  }

  function ScopedFrame(op: string, key: string, token: Option<string>, tty: Option<string>, ttl: Option<nat>): string {
    Frame(op, ScopedFields(key, token, tty, ttl))
  }

  lemma {:induction false} TailAppend(fields: seq<Field>, f: Field)
    ensures Tail(fields + [f]) == Tail(fields) + ['\t'] + Item(f)
  {
    if fields == [] {
      assert fields + [f] == [f] && Tail([]) == "";
    } else {
      TailAppend(fields[1..], f);
      assert (fields + [f])[0] == fields[0] && (fields + [f])[1..] == fields[1..] + [f];
      assert Item(fields[0]) + (Tail(fields[1..]) + ['\t'] + Item(f))
          == (Item(fields[0]) + Tail(fields[1..])) + ['\t'] + Item(f);
    }
  }

  /** Appending one optional field to the buffer. */
  method Push(op: string, fields: seq<Field>, buffer: string, name: string, value: Option<string>)
    returns (longer: string)
    requires buffer == Frame(op, fields)
    ensures longer == Frame(op, fields + Optional(name, value))
  {
    longer := buffer;
    if value.Some? {
      longer := longer + (['\t'] + name + ['=']) + value.value;
      TailAppend(fields, Field(name, value.value));
      assert longer == op + (Tail(fields) + ['\t'] + Item(Field(name, value.value)));
    } else {
      assert fields + Optional(name, value) == fields;
    }
  }

  /** The client's printer, a buffer appended to. */
  method BuildScopedFrame(op: string, key: string, token: Option<string>, tty: Option<string>, ttl: Option<nat>)
    returns (request: string)
    ensures request == ScopedFrame(op, key, token, tty, ttl)
  {
    var first := [Field("key", key)];
    request := op + "\tkey=" + key;
    assert request == Frame(op, first) by {
      assert Tail(first[1..]) == "";
      assert Tail(first) == ['\t'] + (Item(first[0]) + "") == "\tkey=" + key;
    }
    request := Push(op, first, request, "token", token);
    request := Push(op, first + Optional("token", token), request, "tty", tty);
    request := Push(op, first + Optional("token", token) + Optional("tty", tty), request, "ttl", Shown(ttl));
  }

  lemma OptionalLookup(fields: seq<Field>, name: string, value: Option<string>, wanted: string)
    ensures Lookup(fields + Optional(name, value), wanted) ==
            if Lookup(fields, wanted).Some? then Lookup(fields, wanted) else if name == wanted then value else None
  {
    if value.Some? {
      LookupAppend(fields, Field(name, value.value), wanted);
    } else {
      assert fields + Optional(name, value) == fields;
    }
  }

  lemma ScopedLookup(key: string, token: Option<string>, tty: Option<string>, ttl: Option<nat>, wanted: string)
    ensures Lookup(ScopedFields(key, token, tty, ttl), wanted) == Given(key, token, tty, ttl, wanted)
  {
    var first := [Field("key", key)];
    OptionalLookup(first, "token", token, wanted);
    OptionalLookup(first + Optional("token", token), "tty", tty, wanted);
    OptionalLookup(first + Optional("token", token) + Optional("tty", tty), "ttl", Shown(ttl), wanted);
  }

  function Given(key: string, token: Option<string>, tty: Option<string>, ttl: Option<nat>, wanted: string)
    : Option<string>
  {
    if wanted == "key" then Some(key)
    else if wanted == "token" then token
    else if wanted == "tty" then tty
    else if wanted == "ttl" then Shown(ttl)
    else None
  }

  /** What the broker is meant to read. */
  function Meant(op: string, key: string, token: Option<string>, tty: Option<string>, ttl: Option<nat>): Request {
    if op == "GET" then Get(key, token, tty, ttl) else RequestGrant(key, token, tty, ttl)
  }

  predicate CleanOption(value: Option<string>) { value.Some? ==> Clean(value.value, '\t') }

  lemma {:induction false} LookupPresent(fields: seq<Field>, i: nat)
    requires i < |fields|
    ensures Lookup(fields, fields[i].name).Some?
  {
    if i > 0 { LookupPresent(fields[1..], i - 1); }
  }

  lemma NamedAppend(fields: seq<Field>, name: string, value: Option<string>)
    requires WellNamed(fields) && Lookup(fields, name).None? && Clean(name, '\t') && Clean(name, '=')
    ensures WellNamed(fields + Optional(name, value))
  {
    forall i | 0 <= i < |fields|
      ensures fields[i].name != name
    {
      LookupPresent(fields, i);
    }
    var longer := fields + Optional(name, value);
    forall i | 0 <= i < |longer|
      ensures Named(longer[i])
    {
      assert i < |fields| ==> Named(fields[i]);
    }
  }

  lemma ScopedAreNamed(key: string, token: Option<string>, tty: Option<string>, ttl: Option<nat>)
    ensures WellNamed(ScopedFields(key, token, tty, ttl))
  {
    var first := [Field("key", key)];
    assert Named(first[0]);
    NamedAppend(first, "token", token);
    OptionalLookup(first, "token", token, "tty");
    NamedAppend(first + Optional("token", token), "tty", tty);
    OptionalLookup(first, "token", token, "ttl");
    OptionalLookup(first + Optional("token", token), "tty", tty, "ttl");
    NamedAppend(first + Optional("token", token) + Optional("tty", tty), "ttl", Shown(ttl));
  }

  lemma DecimalIsClean(n: nat)
    ensures Clean(Decimal(n), '\t')
  {
    var s := Decimal(n);
    assert forall i :: 0 <= i < |s| ==> IsDigit(s[i]);
  }

  /** The grammar of fields: any distinctly named, tab-free fields are read back as they were. */
  lemma FieldsRoundTrip(op: string, fields: seq<Field>)
    requires Clean(op, '\t') && WellNamed(fields) && CleanUpTo(fields, |fields|)
    ensures Split(Frame(op, fields), '\t')[0] == op
    ensures Collect(Split(Frame(op, fields), '\t')[1..], []) == Ok(fields)
  {
    FrameSplits(op, fields);
    assert ([op] + Items(fields))[1..] == Items(fields);
    assert [] + fields == fields;
    CollectItems([], fields);
  }

  lemma ScopedAreClean(key: string, token: Option<string>, tty: Option<string>, ttl: Option<nat>)
    requires Clean(key, '\t') && CleanOption(token) && CleanOption(tty)
    ensures CleanUpTo(ScopedFields(key, token, tty, ttl), |ScopedFields(key, token, tty, ttl)|)
  {
    if ttl.Some? { DecimalIsClean(ttl.value); }
  }

  lemma TtlIsRead(fields: seq<Field>, ttl: Option<nat>)
    requires Lookup(fields, "ttl") == Shown(ttl) && (ttl.Some? ==> ttl.value < U64_LIMIT)
    ensures TtlOf(fields) == if ttl == Some(0) then Err(BadRequest) else Ok(ttl)
  {
    if ttl.Some? { ParseOfDecimal(ttl.value, U64_LIMIT); }
  }

  lemma ScopedAssembles(op: string, key: string, token: Option<string>, tty: Option<string>, ttl: Option<nat>)
    requires (op == "GET" || op == "REQUEST") && (ttl.Some? ==> ttl.value < U64_LIMIT)
    ensures Assemble(op, ScopedFields(key, token, tty, ttl)) ==
            if ttl == Some(0) then Err(BadRequest) else Ok(Meant(op, key, token, tty, ttl))
  {
    var fields := ScopedFields(key, token, tty, ttl);
    assert Lookup(fields, "key") == Some(key) by { ScopedLookup(key, token, tty, ttl, "key"); }
    assert Lookup(fields, "token") == token by { ScopedLookup(key, token, tty, ttl, "token"); }
    assert Lookup(fields, "tty") == tty by { ScopedLookup(key, token, tty, ttl, "tty"); }
    assert Lookup(fields, "ttl") == Shown(ttl) by { ScopedLookup(key, token, tty, ttl, "ttl"); }
    TtlIsRead(fields, ttl);
    if op == "GET" {
      assert Assemble(op, fields) == Scoped(fields, MakeGet());
    } else {
      assert Assemble(op, fields) == Scoped(fields, MakeRequest());
    }
  }

  predicate Utf8Option(value: Option<string>) { value.Some? ==> IsUtf8(value.value) }

  predicate Utf8Field(f: Field) { IsUtf8(f.name) && IsUtf8(f.value) }

  predicate Utf8Fields(fields: seq<Field>) { forall i :: 0 <= i < |fields| ==> Utf8Field(fields[i]) }

  lemma ItemIsUtf8(f: Field)
    requires Utf8Field(f)
    ensures IsUtf8(Item(f))
  {
    AsciiIsUtf8("=");
    Utf8Append(f.name, ['=']);
    Utf8Append(f.name + ['='], f.value);
  }

  lemma {:induction false} TailIsUtf8(fields: seq<Field>)
    requires Utf8Fields(fields)
    ensures IsUtf8(Tail(fields))
  {
    if fields != [] {
      var f, rest := fields[0], fields[1..];
      assert Utf8Field(f);
      forall i | 0 <= i < |rest|
        ensures Utf8Field(rest[i])
      {
        assert Utf8Field(fields[i + 1]);
      }
      TailIsUtf8(rest);
      ItemIsUtf8(f);
      AsciiIsUtf8("\t");
      Utf8Append(Item(f), Tail(rest));
      Utf8Append(['\t'], Item(f) + Tail(rest));
    }
  }

  lemma OptionalIsUtf8(fields: seq<Field>, name: string, value: Option<string>)
    requires Utf8Fields(fields) && IsUtf8(name) && Utf8Option(value)
    ensures Utf8Fields(fields + Optional(name, value))
  {
    var longer := fields + Optional(name, value);
    forall i | 0 <= i < |longer|
      ensures Utf8Field(longer[i])
    {
      assert i < |fields| ==> Utf8Field(fields[i]);
    }
  }

  lemma ShownIsUtf8(ttl: Option<nat>)
    ensures Utf8Option(Shown(ttl))
  {
    if ttl.Some? {
      var s := Decimal(ttl.value);
      assert forall i :: 0 <= i < |s| ==> IsDigit(s[i]);
      AsciiIsUtf8(s);
    }
  }

  lemma FourFieldsAreUtf8(first: Field, b: string, c: string, d: string, vb: Option<string>, vc: Option<string>,
                          vd: Option<string>)
    requires Utf8Field(first) && IsUtf8(b) && IsUtf8(c) && IsUtf8(d) && Utf8Option(vb) && Utf8Option(vc)
             && Utf8Option(vd)
    ensures Utf8Fields([first] + Optional(b, vb) + Optional(c, vc) + Optional(d, vd))
  {
    OptionalIsUtf8([first], b, vb);
    OptionalIsUtf8([first] + Optional(b, vb), c, vc);
    OptionalIsUtf8([first] + Optional(b, vb) + Optional(c, vc), d, vd);
  }

  lemma NamesAreUtf8()
    ensures IsUtf8("key") && IsUtf8("token") && IsUtf8("tty") && IsUtf8("ttl")
  {
    AsciiIsUtf8("key");
    AsciiIsUtf8("token");
    AsciiIsUtf8("tty");
    AsciiIsUtf8("ttl");
  }

  lemma ScopedFieldsAreUtf8(key: string, token: Option<string>, tty: Option<string>, ttl: Option<nat>)
    requires IsUtf8(key) && Utf8Option(token) && Utf8Option(tty)
    ensures Utf8Fields(ScopedFields(key, token, tty, ttl))
  {
    NamesAreUtf8();
    ShownIsUtf8(ttl);
    FourFieldsAreUtf8(Field("key", key), "token", "tty", "ttl", token, tty, Shown(ttl));
  }

  lemma ScopedIsUtf8(op: string, key: string, token: Option<string>, tty: Option<string>, ttl: Option<nat>)
    requires (op == "GET" || op == "REQUEST") && IsUtf8(key) && Utf8Option(token) && Utf8Option(tty)
    ensures IsUtf8(ScopedFrame(op, key, token, tty, ttl))
  {
    AsciiIsUtf8(op);
    ScopedFieldsAreUtf8(key, token, tty, ttl);
    TailIsUtf8(ScopedFields(key, token, tty, ttl));
    Utf8Append(op, Tail(ScopedFields(key, token, tty, ttl)));
  }

  lemma CleanFrameParses(op: string, key: string, token: Option<string>, tty: Option<string>, ttl: Option<nat>)
    requires (op == "GET" || op == "REQUEST") && Clean(key, '\t') && CleanOption(token) && CleanOption(tty)
    requires IsUtf8(key) && Utf8Option(token) && Utf8Option(tty) && (ttl.Some? ==> ttl.value < U64_LIMIT)
    requires |ScopedFrame(op, key, token, tty, ttl)| <= MAX_FRAME_BYTES
    ensures Parsed(ScopedFrame(op, key, token, tty, ttl)) ==
            if ttl == Some(0) then Err(BadRequest) else Ok(Meant(op, key, token, tty, ttl))
  {
    var fields := ScopedFields(key, token, tty, ttl);
    ScopedAreNamed(key, token, tty, ttl);
    ScopedAreClean(key, token, tty, ttl);
    ScopedIsUtf8(op, key, token, tty, ttl);
    FieldsRoundTrip(op, fields);
    ScopedAssembles(op, key, token, tty, ttl);
  }

  /** A field whose value holds a tab is read back shorter, if the frame is read at all. */
  lemma DirtyFieldIsCut(op: string, fields: seq<Field>, i: nat)
    requires Clean(op, '\t') && WellNamed(fields) && i < |fields|
    requires CleanUpTo(fields, i) && !Clean(fields[i].value, '\t')
    requires Collect(Split(Frame(op, fields), '\t')[1..], []).Ok?
    ensures Lookup(Collect(Split(Frame(op, fields), '\t')[1..], []).value, fields[i].name) != Some(fields[i].value)
  {
    var pieces := Split(Frame(op, fields), '\t');
    var read := Collect(pieces[1..], []).value;
    FrameCutsAt(op, fields, i);
    SplitDirty(fields[i].value, '\t', "");
    assert fields[i].value + "" == fields[i].value;
    forall j | 0 <= j <= i
      ensures j < |read| && read[j].name == fields[j].name
      ensures j == i ==> read[j].value == Split(fields[i].value, '\t')[0]
    {
      assert pieces[1..][j] == pieces[j + 1] && Named(fields[j]);
      CollectedIs(pieces[1..], [], j);
      SplitOnceFinds(fields[j].name, '=', if j == i then Split(fields[i].value, '\t')[0] else fields[j].value);
    }
    LookupAt(read, i);
  }

  /** The first dirty one of a frame's two free-text fields. */
  lemma FirstDirty(key: string, token: Option<string>, tty: Option<string>, ttl: Option<nat>) returns (i: nat)
    requires Clean(key, '\t') && !(CleanOption(token) && CleanOption(tty))
    ensures var fields := ScopedFields(key, token, tty, ttl);
            && i < |fields| && CleanUpTo(fields, i) && !Clean(fields[i].value, '\t')
            && (fields[i] == Field("token", if token.Some? then token.value else "")
                || fields[i] == Field("tty", if tty.Some? then tty.value else ""))
            && (fields[i].name == "token" ==> token == Some(fields[i].value))
            && (fields[i].name == "tty" ==> tty == Some(fields[i].value))
  {
    i := if !CleanOption(token) || token.None? then 1 else 2;
  }

  lemma DirtyFrameDiffers(op: string, key: string, token: Option<string>, tty: Option<string>, ttl: Option<nat>)
    requires (op == "GET" || op == "REQUEST") && Clean(key, '\t') && !(CleanOption(token) && CleanOption(tty))
    ensures Parsed(ScopedFrame(op, key, token, tty, ttl)) != Ok(Meant(op, key, token, tty, ttl))
  {
    var fields := ScopedFields(key, token, tty, ttl);
    var pieces := Split(ScopedFrame(op, key, token, tty, ttl), '\t');
    if Collect(pieces[1..], []).Ok? {
      var i := FirstDirty(key, token, tty, ttl);
      ScopedAreNamed(key, token, tty, ttl);
      DirtyFieldIsCut(op, fields, i);
      CutHead(op, fields, 0);
    }
  }

  /**
   `parse_request` recovers exactly what `scoped_frame` was given, if and only if
   the frame fits, the free-text fields hold no tab, and the ttl is not zero.
   The client's strings are UTF-8 by their type.
   */
  lemma ScopedRoundTripIff(op: string, key: string, token: Option<string>, tty: Option<string>, ttl: Option<nat>)
    requires (op == "GET" || op == "REQUEST") && Clean(key, '\t') && (ttl.Some? ==> ttl.value < U64_LIMIT)
    requires IsUtf8(key) && Utf8Option(token) && Utf8Option(tty)
    ensures Parsed(ScopedFrame(op, key, token, tty, ttl)) == Ok(Meant(op, key, token, tty, ttl)) <==>
            && |ScopedFrame(op, key, token, tty, ttl)| <= MAX_FRAME_BYTES
            && CleanOption(token) && CleanOption(tty) && ttl != Some(0)
  {
    var frame := ScopedFrame(op, key, token, tty, ttl);
    if |frame| <= MAX_FRAME_BYTES {
      if CleanOption(token) && CleanOption(tty) {
        CleanFrameParses(op, key, token, tty, ttl);
      } else {
        DirtyFrameDiffers(op, key, token, tty, ttl);
      }
    }
  }

  // ---- The broker's reader ----

  /**
   What the broker takes from a connection: one byte more than a frame at most, and
   nothing past the first line break.
   */
  function FrameOf(sent: string): string {
    var head := if |sent| <= MAX_FRAME_BYTES + 1 then sent else sent[..MAX_FRAME_BYTES + 1];
    Split(head, '\n')[0] + (if Clean(head, '\n') then "" else ['\n'])
  }

  /** A frame must end in its line break and fit; then it is parsed. */
  function Received(sent: string): Result<Request, ErrCode> {
    var line := StripSuffix(FrameOf(sent), "\n");
    if line.None? || |line.value| > MAX_FRAME_BYTES then Err(BadRequest) else Parsed(line.value)
  }

  lemma {:induction false} SplitHead(s: string, sep: char)
    ensures Clean(Split(s, sep)[0], sep) && |Split(s, sep)[0]| <= |s|
  {
    if s != "" && s[0] != sep { SplitHead(s[1..], sep); }
  }

  lemma FrameGrows(kept: string, chunk: string, rest: string)
    requires Clean(kept, '\n') && |kept| + |chunk| <= MAX_FRAME_BYTES + 1
    ensures !Clean(chunk, '\n') ==> FrameOf(kept + chunk + rest) == kept + Split(chunk, '\n')[0] + ['\n']
  {
    if !Clean(chunk, '\n') {
      var sent := kept + chunk + rest;
      var head := if |sent| <= MAX_FRAME_BYTES + 1 then sent else sent[..MAX_FRAME_BYTES + 1];
      var tail := head[|kept| + |chunk|..];
      assert head == kept + (chunk + tail);
      SplitPrefix(kept, '\n', chunk + tail);
      SplitDirty(chunk, '\n', tail);
      var i :| 0 <= i < |chunk| && chunk[i] == '\n';
      assert head[|kept| + i] == '\n';
    }
  }

  /** The read loop, with whatever chunks the socket returns: the frame does not depend on how it was chopped up. */
  method ReadFrame(sent: string, chunks: nat -> nat) returns (frame: string)
    ensures frame == FrameOf(sent)
  {
    frame := "";
    var read, turn := 0, 0;
    while |frame| < MAX_FRAME_BYTES + 1 && read < |sent|
      invariant read <= |sent| && |frame| <= MAX_FRAME_BYTES + 1 && frame == sent[..read] && Clean(frame, '\n')
      decreases |sent| - read
    {
      var bytes := Max(1, Min(chunks(turn), Min(MAX_FRAME_BYTES + 1 - |frame|, |sent| - read)));
      var chunk := sent[read..read + bytes];
      assert sent == frame + chunk + sent[read + bytes..];
      FrameGrows(frame, chunk, sent[read + bytes..]);
      if '\n' in chunk {
        return frame + Split(chunk, '\n')[0] + ['\n'];
      }
      frame := frame + chunk;
      read, turn := read + bytes, turn + 1;
      assert frame == sent[..read];
    }
    SplitClean(frame, '\n');
    assert frame == if |sent| <= MAX_FRAME_BYTES + 1 then sent else sent[..MAX_FRAME_BYTES + 1];
    assert frame + "" == frame;
  }

  // ---- Nothing read from a line holds what the line does not ----

  lemma {:induction false} PiecesStayClean(s: string, sep: char, c: char, i: nat)
    requires Clean(s, c) && i < |Split(s, sep)|
    ensures Clean(Split(s, sep)[i], c)
    decreases s
  {
    if s != "" {
      assert s[0] in s && s[0] != c;
      if s[0] == sep {
        if i > 0 { PiecesStayClean(s[1..], sep, c, i - 1); }
      } else {
        PiecesStayClean(s[1..], sep, c, i);
      }
    }
  }

  lemma {:induction false} PairStaysClean(s: string, sep: char, c: char)
    requires Clean(s, c) && SplitOnce(s, sep).Some?
    ensures Clean(SplitOnce(s, sep).value.1, c)
  {
    if s[0] != sep { PairStaysClean(s[1..], sep, c); }
  }

  lemma {:induction false} LookedUp(fields: seq<Field>, name: string) returns (i: nat)
    requires Lookup(fields, name).Some?
    ensures i < |fields| && fields[i].value == Lookup(fields, name).value
  {
    i := 0;
    if fields[0].name != name {
      i := LookedUp(fields[1..], name);
      i := i + 1;
    }
  }

  lemma ValuesStayClean(line: string, c: char, name: string)
    requires Clean(line, c) && Collect(Split(line, '\t')[1..], []).Ok?
    requires Lookup(Collect(Split(line, '\t')[1..], []).value, name).Some?
    ensures Clean(Lookup(Collect(Split(line, '\t')[1..], []).value, name).value, c)
  {
    var pieces := Split(line, '\t');
    var fields := Collect(pieces[1..], []).value;
    CollectedIs(pieces[1..], [], 0);
    var i := LookedUp(fields, name);
    CollectedIs(pieces[1..], [], i);
    PiecesStayClean(line, '\t', c, i + 1);
    assert pieces[1..][i] == pieces[i + 1];
    PairStaysClean(pieces[i + 1], '=', c);
  }

  predicate UnbrokenOption(value: Option<string>) { value.Some? ==> Clean(value.value, '\n') }

  /** A line without a break never yields a token or terminal with one. */
  lemma BrokenIsNotRead(line: string, op: string, key: string, token: Option<string>, tty: Option<string>,
                        ttl: Option<nat>)
    requires Clean(line, '\n') && (op == "GET" || op == "REQUEST")
    requires Parsed(line) == Ok(Meant(op, key, token, tty, ttl))
    ensures UnbrokenOption(token) && UnbrokenOption(tty)
  {
    var fields := Collect(Split(line, '\t')[1..], []).value;
    assert Lookup(fields, "token") == token && Lookup(fields, "tty") == tty;
    if token.Some? { ValuesStayClean(line, '\n', "token"); }
    if tty.Some? { ValuesStayClean(line, '\n', "tty"); }
  }

  lemma UnbrokenFrame(op: string, key: string, token: Option<string>, tty: Option<string>, ttl: Option<nat>)
    requires Clean(op, '\n') && Clean(key, '\n') && UnbrokenOption(token) && UnbrokenOption(tty)
    ensures Clean(ScopedFrame(op, key, token, tty, ttl), '\n')
  {
    var fields := ScopedFields(key, token, tty, ttl);
    if ttl.Some? { assert forall i :: 0 <= i < |Decimal(ttl.value)| ==> IsDigit(Decimal(ttl.value)[i]); }
    UnbrokenTail(fields);
  }

  lemma {:induction false} UnbrokenTail(fields: seq<Field>)
    requires forall i :: 0 <= i < |fields| ==> Clean(fields[i].name, '\n') && Clean(fields[i].value, '\n')
    ensures Clean(Tail(fields), '\n')
  {
    if fields != [] { UnbrokenTail(fields[1..]); }
  }

  /**
   From the client's printer through the broker's reader: every field arrives as
   it was given if and only if the frame fits, the free-text fields hold neither
   tab nor line break, and the ttl is not zero.
   */
  lemma SentIsReceivedIff(op: string, key: string, token: Option<string>, tty: Option<string>, ttl: Option<nat>)
    requires (op == "GET" || op == "REQUEST") && Clean(key, '\t') && Clean(key, '\n')
    requires IsUtf8(key) && Utf8Option(token) && Utf8Option(tty) && (ttl.Some? ==> ttl.value < U64_LIMIT)
    ensures Received(ScopedFrame(op, key, token, tty, ttl) + "\n") == Ok(Meant(op, key, token, tty, ttl)) <==>
            && |ScopedFrame(op, key, token, tty, ttl)| <= MAX_FRAME_BYTES
            && CleanOption(token) && CleanOption(tty) && UnbrokenOption(token) && UnbrokenOption(tty) && ttl != Some(0)
  {
    var frame := ScopedFrame(op, key, token, tty, ttl);
    ScopedRoundTripIff(op, key, token, tty, ttl);
    if UnbrokenOption(token) && UnbrokenOption(tty) {
      UnbrokenFrame(op, key, token, tty, ttl);
      UnbrokenIsRead(frame);
    } else if Received(frame + "\n") == Ok(Meant(op, key, token, tty, ttl)) {
      ReceivedLineIsClean(frame + "\n");
      BrokenIsNotRead(StripSuffix(FrameOf(frame + "\n"), "\n").value, op, key, token, tty, ttl);
    }
  }

  lemma UnbrokenIsRead(frame: string)
    requires Clean(frame, '\n')
    ensures Received(frame + "\n") == if |frame| <= MAX_FRAME_BYTES then Parsed(frame) else Err(BadRequest)
  {
    var sent := frame + "\n";
    if |frame| <= MAX_FRAME_BYTES {
      assert sent == frame + ['\n'] + "";
      SplitAfter(frame, '\n', "");
      assert sent[|frame|] == '\n';
      assert FrameOf(sent) == frame + "\n";
    } else {
      var head := sent[..MAX_FRAME_BYTES + 1];
      assert head == frame[..MAX_FRAME_BYTES + 1];
      SplitClean(head, '\n');
      assert FrameOf(sent) == head;
      assert head[|head| - 1] in frame;
    }
  }

  lemma ReceivedLineIsClean(sent: string)
    requires StripSuffix(FrameOf(sent), "\n").Some?
    ensures Clean(StripSuffix(FrameOf(sent), "\n").value, '\n')
  {
    var head := if |sent| <= MAX_FRAME_BYTES + 1 then sent else sent[..MAX_FRAME_BYTES + 1];
    SplitHead(head, '\n');
  }

  // ---- Authority events ----

  const EVENT_PREFIX := "EPOCH "
  const INSTANCE_MARK := " instance="

  function AuthorityEvent(instance: string, epoch: nat): string {
    EVENT_PREFIX + (Decimal(epoch) + INSTANCE_MARK + (instance + "\n"))
  }

  predicate IsGraphic(c: char) { '!' <= c <= '~' }

  predicate AllGraphic(s: string) { forall i :: 0 <= i < |s| ==> IsGraphic(s[i]) }

  function ParseAuthorityEvent(line: string): Option<(string, nat)> {
    if !(EVENT_PREFIX <= line) then None
    else
      var parts := SplitOnceAt(line[|EVENT_PREFIX|..], INSTANCE_MARK);
      if parts.None? then None
      else
        var (epoch, rest) := parts.value;
        var instance := StripSuffix(rest, "\n");
        if instance.None? || epoch == "" || !AllDigits(epoch) then None
        else if instance.value == "" || !AllGraphic(instance.value) then None
        else
          var n := ParseUnsigned(epoch, U64_LIMIT);
          if n.None? then None else Some((instance.value, n.value))
  }

  lemma EventBody(instance: string, epoch: nat)
    ensures EVENT_PREFIX <= AuthorityEvent(instance, epoch)
    ensures SplitOnceAt(AuthorityEvent(instance, epoch)[|EVENT_PREFIX|..], INSTANCE_MARK)
            == Some((Decimal(epoch), instance + "\n"))
  {
    var body := Decimal(epoch) + INSTANCE_MARK + (instance + "\n");
    assert AuthorityEvent(instance, epoch)[|EVENT_PREFIX|..] == body;
    assert Clean(Decimal(epoch), ' ') by {
      var s := Decimal(epoch);
      assert forall i :: 0 <= i < |s| ==> IsDigit(s[i]);
    }
    SplitOnceAtFinds(Decimal(epoch), INSTANCE_MARK, instance + "\n");
  }

  /** An event is read back exactly when its instance is visible text; anything else is refused, never misread. */
  lemma EventRoundTrip(instance: string, epoch: nat)
    requires epoch < U64_LIMIT
    ensures ParseAuthorityEvent(AuthorityEvent(instance, epoch)) ==
            if instance != "" && AllGraphic(instance) then Some((instance, epoch)) else None
  {
    EventBody(instance, epoch);
    ParseOfDecimal(epoch, U64_LIMIT);
    assert StripSuffix(instance + "\n", "\n") == Some(instance);
  }

  const MAX_EPOCH_LINE: nat := 64

  /** The reader takes at most sixty-four bytes of a line. */
  function FirstBytes(line: string): string { if |line| <= MAX_EPOCH_LINE then line else line[..MAX_EPOCH_LINE] }

  lemma EventFitsIff(instance: string, epoch: nat)
    requires |instance| == 32
    ensures |AuthorityEvent(instance, epoch)| <= MAX_EPOCH_LINE <==> epoch < 1_000_000_000_000_000
  {
    DecimalLength(epoch, 15);
    assert PowerOfTen(15) == 1_000_000_000_000_000 by { TenToFifteen(); }
  }

  lemma TenToFifteen()
    ensures PowerOfTen(15) == 1_000_000_000_000_000
  {
    assert PowerOfTen(3) == 1000;
    assert PowerOfTen(6) == 1_000_000;
    assert PowerOfTen(9) == 1_000_000_000;
    assert PowerOfTen(12) == 1_000_000_000_000;
  }

  lemma ParsedEndsInNewline(line: string)
    requires ParseAuthorityEvent(line).Some?
    ensures line != "" && line[|line| - 1] == '\n'
  {
    SplitOnceAtJoins(line[|EVENT_PREFIX|..], INSTANCE_MARK);
    var rest := SplitOnceAt(line[|EVENT_PREFIX|..], INSTANCE_MARK).value.1;
    assert rest[|rest| - 1..] == "\n";
    assert rest[|rest| - 1] == '\n' && line[|line| - 1] == rest[|rest| - 1];
  }

  lemma OnlyNewlineIsLast(instance: string, epoch: nat, i: nat)
    requires AllGraphic(instance) && i < |AuthorityEvent(instance, epoch)| - 1
    ensures AuthorityEvent(instance, epoch)[i] != '\n'
  {
    var digits := Decimal(epoch);
    var d := i - |EVENT_PREFIX|;
    var event := AuthorityEvent(instance, epoch);
    if 0 <= d < |digits| {
      assert event[i] == digits[d] && IsDigit(digits[d]);
    } else if d >= |digits| + |INSTANCE_MARK| {
      assert event[i] == instance[d - |digits| - |INSTANCE_MARK|];
    }
  }

  /**
   The forward's bounded reader recovers a broker's event exactly when it fits: with a
   32-character instance, below ten to the fifteen.
   */
  lemma ReaderRecoversIff(instance: string, epoch: nat)
    requires |instance| == 32 && AllGraphic(instance) && epoch < U64_LIMIT
    ensures ParseAuthorityEvent(FirstBytes(AuthorityEvent(instance, epoch))) ==
            if epoch < 1_000_000_000_000_000 then Some((instance, epoch)) else None
  {
    EventFitsIff(instance, epoch);
    EventRoundTrip(instance, epoch);
    var line := FirstBytes(AuthorityEvent(instance, epoch));
    if epoch >= 1_000_000_000_000_000 && ParseAuthorityEvent(line).Some? {
      ParsedEndsInNewline(line);
      OnlyNewlineIsLast(instance, epoch, MAX_EPOCH_LINE - 1);
      assert false;
    }
  }
}
