/**
 * A log record (`Message`) and its rendering (`Message::formatMsg`), with a
 * parser for rendered lines that serves as the rendering's inverse.
 */
module Messages {
  import opened Wrappers
  import opened Levels
  import opened Decimal

  /** Where a record was emitted: the part of `LocationInfo` that is rendered. */
  datatype Location = Location(file: string, func: string, line: nat)

  /**
   * A record. `time` is what `getCurrentTime()` yields for it; that string depends
   * only on the record's production time, so it is a field of the record here.
   */
  datatype Message = Message(level: LogLevel, text: string, loc: Location, time: string)

  /** `Message::formatMsg`: `[time][LEVEL][file:function:line:text]`. */
  function FormatMsg(m: Message): string {
    "[" + m.time + "]"
    + "[" + GetLevelFlag(m.level) + "]"
    + "[" + m.loc.file + ":" + m.loc.func + ":" + ToDecimal(m.loc.line) + ":" + m.text + "]"
  }

  /**
   * A rendered record is bracketed, starts with its time, and is as long as its
   * fields plus the nine bracket and separator characters.
   */
  lemma FormatShape(m: Message)
    ensures var r := FormatMsg(m);
            && |r| == |m.time| + |GetLevelFlag(m.level)| + |m.loc.file| + |m.loc.func|
                      + |ToDecimal(m.loc.line)| + |m.text| + 9
            && r[0] == '[' && r[|r| - 1] == ']'
            && r[1..1 + |m.time|] == m.time
  {
    var flag, digits := GetLevelFlag(m.level), ToDecimal(m.loc.line);
    var tail := "]" + ("[" + (flag + ("]" + ("[" + (m.loc.file + ":" + m.loc.func + ":" + digits + ":" + m.text)))));
    FormatRegroup(m.time, flag, m.loc.file, m.loc.func, digits, m.text);
    var r := FormatMsg(m);
    assert r == "[" + (m.time + tail) + "]";
    assert forall j :: 0 <= j < |m.time| ==> r[1 + j] == m.time[j];
  }

  /** What `writeMsgbuffer` appends to the file buffer for one record. */
  function FileLine(m: Message): string {
    FormatMsg(m) + "\n"
  }

  /**
   * What `writeMsgbuffer` appends to the console buffer for one record: the
   * colour code, the line and the reset code when colour is on, else the plain line.
   */
  function ConsoleLine(m: Message, color: bool): string {
    if color then GetLevelColor(m.level) + FormatMsg(m) + GetColorReset() + "\n"
    else FormatMsg(m) + "\n"
  }

  /**
   * Without colour the console shows exactly the file line; with colour it shows
   * the file line wrapped in the level's colour code and the reset code. Either
   * way the line ends the record with a newline.
   */
  lemma ConsoleShape(m: Message, color: bool)
    ensures !color ==> ConsoleLine(m, color) == FileLine(m)
    ensures color ==> ConsoleLine(m, color) == GetLevelColor(m.level) + FormatMsg(m) + GetColorReset() + "\n"
    ensures color ==> ConsoleLine(m, color)[5..|ConsoleLine(m, color)| - 5] == FormatMsg(m)
    ensures FileLine(m)[|FileLine(m)| - 1] == '\n'
    ensures ConsoleLine(m, color)[|ConsoleLine(m, color)| - 1] == '\n'
  {
    ColorShape(m.level);
  }

  /** Splits `s` at the first occurrence of `c`. */
  function SplitAt(s: string, c: char): (r: Option<(string, string)>)
    ensures r.None? <==> c !in s
    ensures r.Some? ==> c !in r.value.0 && s == r.value.0 + [c] + r.value.1
  {
    if s == [] then None
    else if s[0] == c then Some(([], s[1..]))
    else match SplitAt(s[1..], c)
      case None => None
      case Some(p) => Some(([s[0]] + p.0, p.1))
  }

  /** The split at the first `c` is the only split whose left part is free of `c`. */
  lemma {:induction false} SplitAtUnique(a: string, c: char, b: string)
    requires c !in a
    ensures SplitAt(a + [c] + b, c) == Some((a, b))
  {
    if a != [] {
      assert (a + [c] + b)[0] == a[0] && (a + [c] + b)[1..] == a[1..] + [c] + b;
      SplitAtUnique(a[1..], c, b);
      assert [a[0]] + a[1..] == a;
    } else {
      assert (a + [c] + b)[1..] == b;
    }
  }

  predicate Canonical(digits: string) {
    digits != [] && AllDigits(digits) && (|digits| > 1 ==> digits[0] != '0')
  }

  /** Reads `file:function:line:text` back into a location and a text. */
  function ParseBody(s: string): (r: Option<(Location, string)>)
  {
    match SplitAt(s, ':')
    case None => None
    case Some(p1) =>
      var (file, r1) := p1;
      match SplitAt(r1, ':')
      case None => None
      case Some(p2) =>
        var (func, r2) := p2;
        match SplitAt(r2, ':')
        case None => None
        case Some(p3) =>
          var (digits, text) := p3;
          if Canonical(digits) then Some((Location(file, func, ParseDecimal(digits)), text))
          else None
  }

  /** Reads `time][LEVEL][body` back, `body` being read by `ParseBody`. */
  function ParseFields(s: string): (r: Option<Message>)
  {
    match SplitAt(s, ']')
    case None => None
    case Some(p1) =>
      var (time, r1) := p1;
      if r1 == [] || r1[0] != '[' then None
      else match SplitAt(r1[1..], ']')
      case None => None
      case Some(p2) =>
        var (flag, r2) := p2;
        if r2 == [] || r2[0] != '[' then None
        else match (LevelOfFlag(flag), ParseBody(r2[1..]))
        case (Some(level), Some(body)) => Some(Message(level, body.1, body.0, time))
        case _ => None
  }

  /** Reads a rendered line back into the record it shows, if it has that shape. */
  function ParseLine(s: string): (r: Option<Message>)
  {
    if |s| < 2 || s[0] != '[' || s[|s| - 1] != ']' then None
    else ParseFields(s[1..|s| - 1])
  }

  lemma BodyRoundTrip(loc: Location, text: string)
    requires ':' !in loc.file && ':' !in loc.func
    ensures ParseBody(loc.file + ":" + loc.func + ":" + ToDecimal(loc.line) + ":" + text)
            == Some((loc, text))
  {
    var digits := ToDecimal(loc.line);
    var r2 := digits + ":" + text;
    var r1 := loc.func + ":" + r2;
    assert loc.file + ":" + loc.func + ":" + digits + ":" + text == loc.file + ":" + r1;
    SplitAtUnique(loc.file, ':', r1);
    SplitAtUnique(loc.func, ':', r2);
    assert ':' !in digits;
    SplitAtUnique(digits, ':', text);
    DecimalRoundTrip(loc.line);
  }

  lemma FieldsRoundTrip(time: string, level: LogLevel, body: string, loc: Location, text: string)
    requires ']' !in time
    requires ParseBody(body) == Some((loc, text))
    ensures ParseFields(time + ("]" + ("[" + (GetLevelFlag(level) + ("]" + ("[" + body))))))
            == Some(Message(level, text, loc, time))
  {
    var flag := GetLevelFlag(level);
    var r2 := "[" + body;
    var r1 := "[" + (flag + ("]" + r2));
    var full := time + ("]" + r1);
    assert full == time + [']'] + r1;
    SplitAtUnique(time, ']', r1);
    assert SplitAt(full, ']') == Some((time, r1));
    assert r1[0] == '[';
    assert r1[1..] == flag + [']'] + r2;
    FlagShape(level);
    assert ']' !in flag;
    SplitAtUnique(flag, ']', r2);
    assert SplitAt(r1[1..], ']') == Some((flag, r2));
    FlagRoundTrip(level);
    assert r2[0] == '[' && r2[1..] == body;
  }

  /** `FormatMsg` regrouped the way `ParseLine` takes it apart. */
  lemma FormatRegroup(time: string, flag: string, file: string, func: string, digits: string, text: string)
    ensures "[" + time + "]" + "[" + flag + "]" + "[" + file + ":" + func + ":" + digits + ":" + text + "]"
            == "[" + (time + ("]" + ("[" + (flag + ("]" + ("[" + (file + ":" + func + ":" + digits + ":" + text))))))) + "]"
  {
  }

  lemma ParseBracketed(inner: string)
    ensures ParseLine("[" + inner + "]") == ParseFields(inner)
  {
    var s := "[" + inner + "]";
    assert s[1..|s| - 1] == inner;
  }

  /**
   * Rendering loses nothing: a record whose time holds no `]` and whose file and
   * function names hold no `:` is read back from its line unchanged.
   */
  lemma FormatParseRoundTrip(m: Message)
    requires ']' !in m.time && ':' !in m.loc.file && ':' !in m.loc.func
    ensures ParseLine(FormatMsg(m)) == Some(m)
  {
    var time, flag, loc, text := m.time, GetLevelFlag(m.level), m.loc, m.text;
    var body := loc.file + ":" + loc.func + ":" + ToDecimal(loc.line) + ":" + text;
    var inner := time + ("]" + ("[" + (flag + ("]" + ("[" + body)))));
    FormatRegroup(time, flag, loc.file, loc.func, ToDecimal(loc.line), text);
    ParseBracketed(inner);
    BodyRoundTrip(loc, text);
    FieldsRoundTrip(time, m.level, body, loc, text);
  }

  lemma BodyInverse(b: string, loc: Location, text: string)
    requires ParseBody(b) == Some((loc, text))
    ensures b == loc.file + ":" + loc.func + ":" + ToDecimal(loc.line) + ":" + text
  {
    var digits := BodyPieces(b, loc, text);
    CanonicalRoundTrip(digits);
  }

  /** The three cuts `ParseBody` makes, with the line number still in digits. */
  lemma BodyPieces(b: string, loc: Location, text: string) returns (digits: string)
    requires ParseBody(b) == Some((loc, text))
    ensures Canonical(digits) && loc.line == ParseDecimal(digits)
    ensures b == loc.file + ":" + loc.func + ":" + digits + ":" + text
  {
    var p1 := SplitAt(b, ':').value;
    var p2 := SplitAt(p1.1, ':').value;
    var p3 := SplitAt(p2.1, ':').value;
    digits := p3.0;
    assert loc == Location(p1.0, p2.0, ParseDecimal(p3.0)) && text == p3.1;
    JoinFields(p1.0, p2.0, p3.0, p3.1);
  }

  /** Regrouping of four colon-separated fields. */
  lemma JoinFields(f: string, g: string, d: string, t: string)
    ensures f + ":" + (g + ":" + (d + ":" + t)) == f + ":" + g + ":" + d + ":" + t
  {
  }

  lemma BodyFieldsFree(b: string, loc: Location, text: string)
    requires ParseBody(b) == Some((loc, text))
    ensures ':' !in loc.file && ':' !in loc.func
  {
  }

  /** The pieces `ParseFields` cuts its input into. */
  lemma FieldsPieces(x: string, m: Message) returns (r1: string, r2: string)
    requires ParseFields(x) == Some(m)
    ensures x == m.time + [']'] + r1
    ensures r1 != [] && r1[0] == '[' && r1[1..] == GetLevelFlag(m.level) + [']'] + r2
    ensures r2 != [] && r2[0] == '[' && ParseBody(r2[1..]) == Some((m.loc, m.text))
  {
    var p1 := SplitAt(x, ']').value;
    r1 := p1.1;
    var p2 := SplitAt(r1[1..], ']').value;
    r2 := p2.1;
    assert p2.0 == GetLevelFlag(m.level);
  }

  lemma Reassemble(x: string, time: string, r1: string, flag: string, r2: string)
    requires x == time + [']'] + r1
    requires r1 != [] && r1[0] == '[' && r1[1..] == flag + [']'] + r2
    requires r2 != [] && r2[0] == '['
    ensures x == time + ("]" + ("[" + (flag + ("]" + ("[" + r2[1..])))))
  {
    assert r1 == ['['] + r1[1..];
    assert r2 == ['['] + r2[1..];
  }

  lemma FieldsInverse(x: string, m: Message) returns (body: string)
    requires ParseFields(x) == Some(m)
    ensures ParseBody(body) == Some((m.loc, m.text))
    ensures x == m.time + ("]" + ("[" + (GetLevelFlag(m.level) + ("]" + ("[" + body)))))
  {
    var r1, r2 := FieldsPieces(x, m);
    Reassemble(x, m.time, r1, GetLevelFlag(m.level), r2);
    body := r2[1..];
  }

  lemma FieldsTimeFree(x: string, m: Message)
    requires ParseFields(x) == Some(m)
    ensures ']' !in m.time
  {
  }

  lemma Unbracket(s: string)
    requires |s| >= 2 && s[0] == '[' && s[|s| - 1] == ']'
    ensures s == "[" + s[1..|s| - 1] + "]"
  {
  }

  lemma LineInverse(s: string, m: Message)
    requires ParseLine(s) == Some(m)
    ensures s == FormatMsg(m)
  {
    var inner := s[1..|s| - 1];
    Unbracket(s);
    var body := FieldsInverse(inner, m);
    BodyInverse(body, m.loc, m.text);
    FormatRegroup(m.time, GetLevelFlag(m.level), m.loc.file, m.loc.func, ToDecimal(m.loc.line), m.text);
  }

  lemma LineFieldsFree(s: string, m: Message)
    requires ParseLine(s) == Some(m)
    ensures ']' !in m.time && ':' !in m.loc.file && ':' !in m.loc.func
  {
    var inner := s[1..|s| - 1];
    FieldsTimeFree(inner, m);
    var body := FieldsInverse(inner, m);
    BodyFieldsFree(body, m.loc, m.text);
  }

  /**
   * A line parses to a record exactly when it is that record's rendering and the
   * record's time holds no `]` and its file and function names hold no `:`.
   */
  lemma ParseLineCharacterization(s: string, m: Message)
    ensures ParseLine(s) == Some(m)
            <==> s == FormatMsg(m) && ']' !in m.time && ':' !in m.loc.file && ':' !in m.loc.func
  {
    if ParseLine(s) == Some(m) {
      LineInverse(s, m);
      LineFieldsFree(s, m);
    }
    if s == FormatMsg(m) && ']' !in m.time && ':' !in m.loc.file && ':' !in m.loc.func {
      FormatParseRoundTrip(m);
    }
  }

  /**
   * Rendering is not injective once names hold `:`: a colon can move from the
   * file name to the function name without changing the line.
   */
  lemma FormatCollision()
    ensures var m1 := Message(INFO, "x", Location("f:a", "b", 1), "t");
            var m2 := Message(INFO, "x", Location("f", "a:b", 1), "t");
            m1 != m2 && FormatMsg(m1) == FormatMsg(m2)
  {
    var m1 := Message(INFO, "x", Location("f:a", "b", 1), "t");
    var m2 := Message(INFO, "x", Location("f", "a:b", 1), "t");
    assert m1.loc.file != m2.loc.file;
    assert "f:a" + ":" + "b" == "f" + ":" + "a:b";
  }

  /**
   * A record whose file or function name holds `:` (as a qualified C++ function
   * name does) is not read back from its rendering.
   */
  lemma ColonNamesNotRecovered(m: Message)
    requires ':' in m.loc.file || ':' in m.loc.func
    ensures ParseLine(FormatMsg(m)) != Some(m)
  {
    ParseLineCharacterization(FormatMsg(m), m);
  }
}
