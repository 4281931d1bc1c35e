/** Secret names, the files they occupy, and the decrypted assignment read back for one. */
module SecretNames {
  import opened Base
  import opened Text
  import opened Scopes

  const MAX_NAME_LEN: nat := 128

  predicate IsAlpha(c: char) { 'a' <= c <= 'z' || 'A' <= c <= 'Z' }

  predicate IsNameChar(c: char) { IsAlpha(c) || IsDigit(c) || c == '_' }

  predicate IsName(raw: string) {
    && 0 < |raw| <= MAX_NAME_LEN
    && (IsAlpha(raw[0]) || raw[0] == '_')
    && forall i :: 1 <= i < |raw| ==> IsNameChar(raw[i])
  }

  // ---- File names ----

  datatype HumanFileName = Ignored | Key(name: string, local: bool) | Invalid

  function FileName(name: string, local: bool): string { name + (if local then ".local.env" else ".env") }

  function ParseHumanFileName(file: string): HumanFileName {
    var stem := StripSuffix(file, ".env");
    if stem.None? then Ignored
    else
      var raw := StripSuffix(stem.value, ".local");
      var name := if raw.Some? then raw.value else stem.value;
      if IsName(name) then Key(name, raw.Some?) else Invalid
  }

  lemma StripAppended(s: string, suffix: string)
    ensures StripSuffix(s + suffix, suffix) == Some(s)
  {
    assert (s + suffix)[|s|..] == suffix && (s + suffix)[..|s|] == s;
  }

  /** Every name has its own two files, and each is classified back to it. */
  lemma NamesRoundTrip(name: string, local: bool)
    requires IsName(name)
    ensures ParseHumanFileName(FileName(name, local)) == Key(name, local)
  {
    if local {
      assert FileName(name, local) == (name + ".local") + ".env";
      StripAppended(name + ".local", ".env");
      StripAppended(name, ".local");
    } else {
      StripAppended(name, ".env");
      assert |name| >= 6 ==> name[|name| - 6..][0] == name[|name| - 6] != '.';
    }
  }

  /** And no other file name is classified as that key: files and (key, local) pairs correspond one to one. */
  lemma FilesRoundTrip(file: string)
    requires ParseHumanFileName(file).Key?
    ensures IsName(ParseHumanFileName(file).name)
    ensures file == FileName(ParseHumanFileName(file).name, ParseHumanFileName(file).local)
  {
    var stem := StripSuffix(file, ".env").value;
    assert file == stem + ".env";
    if StripSuffix(stem, ".local").Some? {
      var name := StripSuffix(stem, ".local").value;
      assert stem == name + ".local";
      assert file == name + ".local.env";
    }
  }

  /** A file is a key's exactly when it has that key's name for it; it is passed over exactly when it is no `.env`. */
  lemma ClassifiedIff(file: string, name: string, local: bool)
    ensures ParseHumanFileName(file) == Key(name, local) <==> IsName(name) && file == FileName(name, local)
    ensures ParseHumanFileName(file).Ignored? <==> !(exists stem: string :: file == stem + ".env")
  {
    if IsName(name) && file == FileName(name, local) { NamesRoundTrip(name, local); }
    if ParseHumanFileName(file) == Key(name, local) { FilesRoundTrip(file); }
    if !ParseHumanFileName(file).Ignored? {
      assert file == StripSuffix(file, ".env").value + ".env";
    }
    if stem: string :| file == stem + ".env" { StripAppended(stem, ".env"); }
  }

  // ---- Decrypted assignments ----

  /** A carriage return before the line break belongs to the break. */
  function Trimmed(line: string): string {
    if line != "" && line[|line| - 1] == '\r' then line[..|line| - 1] else line
  }

  predicate Skipped(line: string) { line == "" || line[0] == '#' }

  /** What a line assigns to the expected name, if it is a proper assignment of it. */
  function Assigned(line: string, expected: string): Option<string> {
    var pair := SplitOnce(line, '=');
    if pair.Some? && pair.value.0 == expected && Clean(pair.value.1, '\0') then Some(pair.value.1) else None
  }

  /** The lines that say anything. */
  function Significant(lines: seq<string>, n: nat): seq<string>
    requires n <= |lines|
  {
    if n == 0 then []
    else
      var before, line := Significant(lines, n - 1), Trimmed(lines[n - 1]);
      if Skipped(line) then before else before + [line]
  }

  /** Exactly one line says anything, and it assigns the expected name. */
  function SingleAssignment(plaintext: string, expected: string): Result<string, ErrCode> {
    var lines := Split(plaintext, '\n');
    var said := Significant(lines, |lines|);
    if |said| == 1 && Assigned(said[0], expected).Some? then Ok(Assigned(said[0], expected).value) else Err(Internal)
  }

  lemma {:induction false} SignificantGrows(lines: seq<string>, i: nat, n: nat)
    requires i <= n <= |lines|
    ensures |Significant(lines, i)| <= |Significant(lines, n)|
    ensures Significant(lines, n)[..|Significant(lines, i)|] == Significant(lines, i)
  {
    if i < n { SignificantGrows(lines, i, n - 1); }
  }

  /** Two lines say something, or one says something else. */
  predicate Hopeless(said: seq<string>, expected: string) {
    |said| > 1 || (|said| == 1 && Assigned(said[0], expected).None?)
  }

  /** Nothing that follows can help. */
  lemma Refused(plaintext: string, expected: string, i: nat)
    requires i <= |Split(plaintext, '\n')| && Hopeless(Significant(Split(plaintext, '\n'), i), expected)
    ensures SingleAssignment(plaintext, expected) == Err(Internal)
  {
    var lines := Split(plaintext, '\n');
    SignificantGrows(lines, i, |lines|);
    assert Significant(lines, |lines|)[0] == Significant(lines, i)[0];
  }

  /** Either nothing was said, or one line that assigns this. */
  predicate IsFound(said: seq<string>, expected: string, found: Option<string>) {
    match found
    case None => said == []
    case Some(_) => |said| == 1 && Assigned(said[0], expected) == found
  }

  lemma NextLine(said: seq<string>, line: string, expected: string, found: Option<string>)
    requires IsFound(said, expected, found)
    ensures if found.None? && Assigned(line, expected).Some?
            then IsFound(said + [line], expected, Assigned(line, expected)) else Hopeless(said + [line], expected)
  {
    assert found.None? ==> (said + [line])[0] == line;
  }

  lemma Concluded(plaintext: string, expected: string, found: Option<string>)
    requires IsFound(Significant(Split(plaintext, '\n'), |Split(plaintext, '\n')|), expected, found)
    ensures SingleAssignment(plaintext, expected) == if found.Some? then Ok(found.value) else Err(Internal)
  {
  }

  method ParseSingleAssignment(plaintext: string, expected: string) returns (r: Result<string, ErrCode>)
    ensures r == SingleAssignment(plaintext, expected)
  {
    var lines := Split(plaintext, '\n');
    var found: Option<string> := None;
    ghost var said := [];
    var i := 0;
    while i < |lines|
      invariant i <= |lines|
      invariant said == Significant(lines, i) && IsFound(said, expected, found)
    {
      var line := Trimmed(lines[i]);
      i := i + 1;
      if Skipped(line) { continue; }
      NextLine(said, line, expected, found);
      said := said + [line];
      var pair := SplitOnce(line, '=');
      if pair.None? || pair.value.0 != expected || found.Some? || !Clean(pair.value.1, '\0') {
        Refused(plaintext, expected, i);
        return Err(Internal);
      }
      found := Some(pair.value.1);
    }
    Concluded(plaintext, expected, found);
    r := if found.Some? then Ok(found.value) else Err(Internal);
  }

  /** Line `i` says something, and this is what. */
  predicate SaysAt(lines: seq<string>, i: nat, line: string) {
    i < |lines| && Trimmed(lines[i]) == line && line != "" && line[0] != '#'
  }

  predicate IsSilent(lines: seq<string>, i: nat)
    requires i < |lines|
  {
    Trimmed(lines[i]) == "" || Trimmed(lines[i])[0] == '#'
  }

  /** Of the first `n` lines only line `i` says anything. */
  ghost predicate OnlySays(lines: seq<string>, n: nat, i: nat, line: string)
    requires n <= |lines|
  {
    i < n && SaysAt(lines, i, line) && forall j :: 0 <= j < n && j != i ==> IsSilent(lines, j)
  }

  lemma {:induction false} SilentIff(lines: seq<string>, n: nat)
    requires n <= |lines|
    ensures Significant(lines, n) == [] <==> forall j :: 0 <= j < n ==> IsSilent(lines, j)
  {
    if n > 0 {
      SilentIff(lines, n - 1);
      assert IsSilent(lines, n - 1) <==> Skipped(Trimmed(lines[n - 1]));
      if !IsSilent(lines, n - 1) { assert |Significant(lines, n)| > 0; }
    }
  }

  lemma {:induction false} OneSays(lines: seq<string>, n: nat, line: string) returns (i: nat)
    requires n <= |lines| && Significant(lines, n) == [line]
    ensures OnlySays(lines, n, i, line)
  {
    assert |Significant(lines, n)| == 1;
    var before, last := Significant(lines, n - 1), Trimmed(lines[n - 1]);
    if IsSilent(lines, n - 1) {
      i := OneSays(lines, n - 1, line);
    } else {
      assert before + [last] == [line] && |before + [last]| == |before| + 1;
      SilentIff(lines, n - 1);
      assert (before + [last])[0] == last;
      i := n - 1;
    }
  }

  lemma {:induction false} SaidAlone(lines: seq<string>, n: nat, i: nat, line: string)
    requires n <= |lines| && OnlySays(lines, n, i, line)
    ensures Significant(lines, n) == [line]
  {
    if i < n - 1 {
      assert IsSilent(lines, n - 1);
      SaidAlone(lines, n - 1, i, line);
    } else {
      SilentIff(lines, n - 1);
    }
  }

  /** Line `i` is the only one of the text that says anything. */
  ghost predicate OnlyLine(plaintext: string, i: nat, line: string) {
    OnlySays(Split(plaintext, '\n'), |Split(plaintext, '\n')|, i, line)
  }

  lemma AssignedIs(line: string, expected: string, value: string)
    ensures Assigned(line, expected) == Some(value) <==>
            Clean(expected, '=') && Clean(value, '\0') && line == expected + ['='] + value
  {
    SplitOnceIff(line, '=', expected, value);
  }

  lemma SaidIff(lines: seq<string>, expected: string, value: string)
    ensures |Significant(lines, |lines|)| == 1 && Assigned(Significant(lines, |lines|)[0], expected) == Some(value) <==>
            && Clean(expected, '=') && Clean(value, '\0')
            && exists i: nat :: OnlySays(lines, |lines|, i, expected + ['='] + value)
  {
    var said, line := Significant(lines, |lines|), expected + ['='] + value;
    AssignedIs(line, expected, value);
    if i: nat :| OnlySays(lines, |lines|, i, line) { SaidAlone(lines, |lines|, i, line); }
    if |said| == 1 && Assigned(said[0], expected) == Some(value) {
      AssignedIs(said[0], expected, value);
      assert said == [line];
      var i := OneSays(lines, |lines|, line);
    }
  }

  /**
   A decrypted file assigns a value exactly when one line, and no other, says anything (is not empty, nor
   a comment, a carriage return at its end aside), and that line is the name, an equals sign and the value.
   */
  lemma AssignsIff(plaintext: string, expected: string, value: string)
    ensures SingleAssignment(plaintext, expected) == Ok(value) <==>
            && Clean(expected, '=') && Clean(value, '\0')
            && exists i: nat :: OnlyLine(plaintext, i, expected + ['='] + value)
  {
    var lines := Split(plaintext, '\n');
    var said := Significant(lines, |lines|);
    SaidIff(lines, expected, value);
    assert SingleAssignment(plaintext, expected) == Ok(value) <==>
      |said| == 1 && Assigned(said[0], expected) == Some(value);
    assert forall i: nat, line :: OnlyLine(plaintext, i, line) <==> OnlySays(lines, |lines|, i, line);
  }

  lemma NameIsPlain(name: string)
    requires IsName(name)
    ensures Clean(name, '\n') && Clean(name, '=') && Clean(name, '\0') && name[0] != '#'
  {
    assert forall i :: 0 <= i < |name| ==> IsNameChar(name[i]);
  }

  function Written(name: string, value: string): string { name + ['='] + value + ['\n'] }

  lemma CleanValueLines(name: string, value: string)
    requires IsName(name) && Clean(value, '\n')
    ensures Split(Written(name, value), '\n') == [name + ['='] + value, ""]
  {
    NameIsPlain(name);
    var line := name + ['='] + value;
    assert Written(name, value) == line + ['\n'] + "";
    SplitAfter(line, '\n', "");
  }

  /** A written value is read back exactly unless it holds a line break or a NUL, or ends in a carriage return. */
  lemma AssignmentRoundTripIff(name: string, value: string)
    requires IsName(name)
    ensures SingleAssignment(Written(name, value), name) == Ok(value) <==>
            Clean(value, '\n') && Clean(value, '\0') && (value == "" || value[|value| - 1] != '\r')
  {
    NameIsPlain(name);
    var lines := Split(Written(name, value), '\n');
    if Clean(value, '\n') {
      CleanValueLines(name, value);
      WrittenLineReads(name, value);
    } else {
      BrokenValueIsCut(name, value);
    }
  }

  lemma WrittenLineReads(name: string, value: string)
    requires IsName(name)
    ensures var line := name + ['='] + value; var lines := [line, ""];
            && Significant(lines, 2) == [Trimmed(line)]
            && Assigned(Trimmed(line), name) ==
               (if Clean(Trimmed(value), '\0') then Some(Trimmed(value)) else None)
  {
    NameIsPlain(name);
    var line := name + ['='] + value;
    var lines := [line, ""];
    assert Trimmed(line) == name + ['='] + Trimmed(value);
    SplitOnceFinds(name, '=', Trimmed(value));
    assert Significant(lines, 1) == Significant(lines, 0) + [Trimmed(line)];
    assert Significant(lines, 2) == Significant(lines, 1) + [];
  }

  /** Whatever is read first ends at the first line break, so a value with one never comes back whole. */
  lemma BrokenValueIsCut(name: string, value: string)
    requires IsName(name) && !Clean(value, '\n')
    ensures SingleAssignment(Written(name, value), name) != Ok(value)
  {
    NameIsPlain(name);
    var lines := Split(Written(name, value), '\n');
    var prefix := name + ['='];
    assert Written(name, value) == prefix + (value + ['\n']);
    SplitPrefix(prefix, '\n', value + ['\n']);
    SplitDirty(value, '\n', ['\n']);
    var short := Split(value + ['\n'], '\n')[0];
    assert lines[0] == name + ['='] + short;
    assert Trimmed(lines[0]) == name + ['='] + Trimmed(short);
    SplitOnceFinds(name, '=', Trimmed(short));
    assert Significant(lines, 1) == Significant(lines, 0) + [Trimmed(lines[0])];
    SignificantGrows(lines, 1, |lines|);
    assert Significant(lines, |lines|)[0] == Significant(lines, 1)[0];
  }

  // ---- Writing a piped value ----

  /** One line break at the end of what was piped is not part of the value. */
  function WithoutLineBreak(raw: string): string {
    if raw == "" || raw[|raw| - 1] != '\n' then raw
    else Trimmed(raw[..|raw| - 1])
  }

  /** What is written for a piped value, or nothing when the value is refused. */
  function Piped(name: string, raw: string): Option<string> {
    var value := WithoutLineBreak(raw);
    if value == "" || !Clean(value, '\n') || !Clean(value, '\r') then None
    else if SingleAssignment(Written(name, value), name).Err? then None
    else Some(Written(name, value))
  }

  /** The writer: the value trimmed and refused byte by byte, the assignment appended, then read back once. */
  method PrepareAssignment(name: string, raw: string) returns (written: Option<string>)
    ensures written == Piped(name, raw)
  {
    var value := raw;
    if value != "" && value[|value| - 1] == '\n' {
      value := value[..|value| - 1];
      if value != "" && value[|value| - 1] == '\r' {
        value := value[..|value| - 1];
      }
    }
    if value == "" { return None; }
    if '\n' in value || '\r' in value { return None; }
    var assignment := name;
    assignment := assignment + ['='];
    assignment := assignment + value;
    assignment := assignment + ['\n'];
    var back := ParseSingleAssignment(assignment, name);
    written := if back.Err? then None else Some(assignment);
  }

  /**
   A piped value is accepted exactly when it is not empty and holds no line break,
   carriage return or NUL; then it reads back.
   */
  lemma PipedRoundTripIff(name: string, raw: string)
    requires IsName(name)
    ensures var value := WithoutLineBreak(raw);
            && (Piped(name, raw).Some? <==>
                value != "" && Clean(value, '\n') && Clean(value, '\r') && Clean(value, '\0'))
            && (Piped(name, raw).Some? ==> SingleAssignment(Piped(name, raw).value, name) == Ok(value))
  {
    var value := WithoutLineBreak(raw);
    if value != "" && Clean(value, '\n') && Clean(value, '\r') {
      assert value[|value| - 1] in value;
      CleanValueLines(name, value);
      WrittenLineReads(name, value);
    }
  }
}
