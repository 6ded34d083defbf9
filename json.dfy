/**
 * The small JSON subset the payload's nested "s" and "l" values use:
 * objects, strings without escape sequences, and numbers kept as their
 * text. Anything outside it does not decode, which the payload decoder
 * treats like any other malformed nested value.
 */
module Json {
  import opened Wrappers
  import opened Digits
  import opened Sequences

  datatype Value =
    | JString(text: string)
    | JNumber(numeral: string)
    | JObject(members: Members)

  /** The members of an object, in the order they are written. */
  datatype Members = Empty | Member(key: string, value: Value, rest: Members)

  predicate IsWhitespace(c: char) {
    c == ' ' || c == '\t' || c == '\n' || c == '\r'
  }

  predicate IsNumberChar(c: char) {
    IsDigit(c) || c == '-' || c == '+' || c == '.' || c == 'e' || c == 'E'
  }

  /** A character a string may hold without an escape sequence. */
  predicate IsPlainChar(c: char) {
    c != '"' && c != '\\'
  }

  predicate IsPlain(s: string) {
    forall i :: 0 <= i < |s| ==> IsPlainChar(s[i])
  }

  /**
   * The lexer's notion of a number: a run of characters that may occur in
   * one. It is deliberately loose (it takes "1-2"); whether a numeral is a
   * well-formed decimal is decided where a number is used, by
   * ParcelableNotification.IsDecimal.
   */
  predicate IsNumeral(s: string) {
    s != [] && forall i :: 0 <= i < |s| ==> IsNumberChar(s[i])
  }

  /** Values whose text this subset can write and read back. */
  predicate WellFormed(v: Value)
    decreases v
  {
    match v
    case JString(x) => IsPlain(x)
    case JNumber(n) => IsNumeral(n)
    case JObject(ms) => WellFormedMembers(ms)
  }

  predicate WellFormedMembers(ms: Members)
    decreases ms
  {
    match ms
    case Empty => true
    case Member(k, v, rest) => IsPlain(k) && WellFormed(v) && WellFormedMembers(rest)
  }

  function Keys(ms: Members): set<string>
  {
    match ms
    case Empty => {}
    case Member(k, _, rest) => {k} + Keys(rest)
  }

  /** The key-value pairs of an object, in the order they are written. */
  function Pairs(ms: Members): (ps: seq<(string, Value)>)
    ensures forall i :: 0 <= i < |ps| ==> ps[i].0 in Keys(ms)
  {
    match ms
    case Empty => []
    case Member(k, v, rest) => [(k, v)] + Pairs(rest)
  }

  /** The pair at i is the last one written under key. */
  predicate LastWrittenAt(ps: seq<(string, Value)>, i: int, key: string, v: Value) {
    && 0 <= i < |ps| && ps[i] == (key, v)
    && forall j :: i < j < |ps| ==> ps[j].0 != key
  }

  /** The value of a key; when a key is written twice the later member wins. */
  function Lookup(ms: Members, key: string): (r: Option<Value>)
    ensures r.Some? <==> key in Keys(ms)
    ensures r.Some? ==> exists i :: LastWrittenAt(Pairs(ms), i, key, r.value)
  {
    match ms
    case Empty => None
    case Member(k, v, rest) =>
      var later := Lookup(rest, key);
      if later.Some? then
        LaterWritten(k, v, rest, key, later.value);
        later
      else if k == key then
        assert LastWrittenAt(Pairs(ms), 0, key, v);
        Some(v)
      else None
  }

  /** At most one value is the last written under a key, so Lookup's contract fixes its result. */
  lemma LastWrittenUnique(ps: seq<(string, Value)>, i: int, j: int, key: string, v: Value, w: Value)
    requires LastWrittenAt(ps, i, key, v) && LastWrittenAt(ps, j, key, w)
    ensures i == j && v == w
  {
  }

  /** A pair that is last in the rest of an object is last in the whole object. */
  lemma LaterWritten(k: string, v: Value, rest: Members, key: string, w: Value)
    requires exists i :: LastWrittenAt(Pairs(rest), i, key, w)
    ensures exists i :: LastWrittenAt(Pairs(Member(k, v, rest)), i, key, w)
  {
    var i :| LastWrittenAt(Pairs(rest), i, key, w);
    assert LastWrittenAt(Pairs(Member(k, v, rest)), i + 1, key, w);
  }

  // ----- writing -----

  function Quote(x: string): string
  {
    ['"'] + x + ['"']
  }

  function Render(v: Value): string
    decreases v
  {
    match v
    case JString(x) => Quote(x)
    case JNumber(n) => n
    case JObject(ms) => ['{'] + RenderMembers(ms) + ['}']
  }

  function RenderMembers(ms: Members): string
    decreases ms
  {
    match ms
    case Empty => []
    case Member(k, v, Empty) => Quote(k) + [':'] + Render(v)
    case Member(k, v, rest) => Quote(k) + [':'] + Render(v) + [','] + RenderMembers(rest)
  }

  // ----- reading -----

  function SkipWhitespace(s: string): (r: string)
    ensures |r| <= |s| && r == s[|s| - |r|..]
    ensures r == [] || !IsWhitespace(r[0])
  {
    if s != [] && IsWhitespace(s[0]) then SkipWhitespace(s[1..]) else s
  }

  /** The characters up to the closing quote, and what follows it. */
  function ScanString(s: string): (r: Option<(string, string)>)
    ensures r.Some? ==> IsPlain(r.value.0) && s == r.value.0 + ['"'] + r.value.1
  {
    if s == [] || s[0] == '\\' then None
    else if s[0] == '"' then Some(([], s[1..]))
    else
      match ScanString(s[1..])
      case None => None
      case Some((x, rest)) => Some(([s[0]] + x, rest))
  }

  /** The longest prefix of number characters, and what follows it. */
  function ScanNumber(s: string): (r: (string, string))
    ensures s == r.0 + r.1 && (r.0 == [] || IsNumeral(r.0))
    ensures r.1 == [] || !IsNumberChar(r.1[0])
  {
    if s != [] && IsNumberChar(s[0]) then
      var (n, rest) := ScanNumber(s[1..]);
      ([s[0]] + n, rest)
    else ([], s)
  }

  function ParseValue(s: string): (r: Option<(Value, string)>)
    ensures r.Some? ==> |r.value.1| < |s|
    decreases |s|, 2
  {
    var t := SkipWhitespace(s);
    if t == [] then None
    else if t[0] == '"' then
      match ScanString(t[1..])
      case None => None
      case Some((x, rest)) => Some((JString(x), rest))
    else if t[0] == '{' then
      match ParseObjectBody(t[1..])
      case None => None
      case Some((ms, rest)) => Some((JObject(ms), rest))
    else if IsNumberChar(t[0]) then
      var (n, rest) := ScanNumber(t);
      Some((JNumber(n), rest))
    else None
  }

  /** The members after an opening brace, through the closing brace. */
  function ParseObjectBody(s: string): (r: Option<(Members, string)>)
    ensures r.Some? ==> |r.value.1| < |s|
    decreases |s|, 1
  {
    var t := SkipWhitespace(s);
    if t != [] && t[0] == '}' then Some((Empty, t[1..])) else ParseMembers(t)
  }

  /** A quoted key and its colon. */
  function ParseKey(s: string): (r: Option<(string, string)>)
    ensures r.Some? ==> |r.value.1| < |s|
  {
    var t := SkipWhitespace(s);
    if t == [] || t[0] != '"' then None
    else
      match ScanString(t[1..])
      case None => None
      case Some((key, r1)) =>
        var r2 := SkipWhitespace(r1);
        if r2 == [] || r2[0] != ':' then None else Some((key, r2[1..]))
  }

  /** Comma-separated members, through the closing brace. */
  function ParseMembers(s: string): (r: Option<(Members, string)>)
    ensures r.Some? ==> |r.value.1| < |s|
    decreases |s|, 0
  {
    match ParseKey(s)
    case None => None
    case Some((key, r1)) =>
      match ParseValue(r1)
      case None => None
      case Some((v, r2)) => MembersAfter(key, v, r2)
  }

  /** What follows a member's value: the closing brace, or a comma and more members. */
  function MembersAfter(key: string, v: Value, s: string): (r: Option<(Members, string)>)
    ensures r.Some? ==> |r.value.1| < |s|
    decreases |s|, 3
  {
    var t := SkipWhitespace(s);
    if t == [] then None
    else if t[0] == '}' then Some((Member(key, v, Empty), t[1..]))
    else if t[0] == ',' then
      match ParseMembers(t[1..])
      case None => None
      case Some((ms, rest)) => Some((Member(key, v, ms), rest))
    else None
  }

  /** A whole JSON text: one value, surrounded by nothing but whitespace. */
  function Decode(text: string): Option<Value>
  {
    match ParseValue(text)
    case None => None
    case Some((v, rest)) => if SkipWhitespace(rest) == [] then Some(v) else None
  }

  // ----- writing, then reading back -----

  lemma SkipNothing(s: string)
    requires s != [] && !IsWhitespace(s[0])
    ensures SkipWhitespace(s) == s
  {
  }

  lemma {:induction false} ScanQuoted(x: string, rest: string)
    requires IsPlain(x)
    ensures ScanString(x + ['"'] + rest) == Some((x, rest))
  {
    if x != [] {
      ScanQuoted(x[1..], rest);
      assert (x + ['"'] + rest)[1..] == x[1..] + ['"'] + rest;
      assert [x[0]] + x[1..] == x;
    }
  }

  lemma {:induction false} ScanNumeral(n: string, rest: string)
    requires forall i :: 0 <= i < |n| ==> IsNumberChar(n[i])
    requires rest == [] || !IsNumberChar(rest[0])
    ensures ScanNumber(n + rest) == (n, rest)
  {
    if n != [] {
      ScanNumeral(n[1..], rest);
      assert (n + rest)[1..] == n[1..] + rest;
      assert [n[0]] + n[1..] == n;
    } else {
      assert n + rest == rest;
    }
  }

  lemma ParseQuoted(x: string, rest: string)
    requires IsPlain(x)
    ensures ParseValue(Quote(x) + rest) == Some((JString(x), rest))
  {
    var s := Quote(x) + rest;
    SkipNothing(s);
    ScanQuoted(x, rest);
    assert s[1..] == x + ['"'] + rest;
  }

  lemma ParseNumeral(n: string, rest: string)
    requires IsNumeral(n) && (rest == [] || !IsNumberChar(rest[0]))
    ensures ParseValue(n + rest) == Some((JNumber(n), rest))
  {
    var s := n + rest;
    assert s[0] == n[0];
    SkipNothing(s);
    assert SkipWhitespace(s) == s && s[0] != '"' && s[0] != '{' && IsNumberChar(s[0]);
    ScanNumeral(n, rest);
  }

  /** Reading back a written value leaves exactly the text after it. */
  lemma {:induction false} ParseRendered(v: Value, rest: string)
    requires WellFormed(v) && (rest == [] || !IsNumberChar(rest[0]))
    ensures ParseValue(Render(v) + rest) == Some((v, rest))
    decreases v, 1
  {
    match v
    case JString(x) =>
      ParseQuoted(x, rest);
    case JNumber(n) =>
      ParseNumeral(n, rest);
    case JObject(ms) =>
      var s := Render(v) + rest;
      var body := RenderMembers(ms) + ['}'] + rest;
      assert s == ['{'] + body;
      SkipNothing(s);
      assert s[1..] == body;
      ParseRenderedBody(ms, rest);
  }

  lemma {:induction false} ParseRenderedBody(ms: Members, rest: string)
    requires WellFormedMembers(ms)
    ensures ParseObjectBody(RenderMembers(ms) + ['}'] + rest) == Some((ms, rest))
    decreases ms, 1
  {
    var body := RenderMembers(ms) + ['}'] + rest;
    SkipNothing(body);
    if ms != Empty {
      ParseRenderedMembers(ms, rest);
    }
  }

  lemma {:induction false} ParseRenderedMembers(ms: Members, rest: string)
    requires WellFormedMembers(ms) && ms != Empty
    ensures ParseMembers(RenderMembers(ms) + ['}'] + rest) == Some((ms, rest))
    decreases ms, 0
  {
    var Member(k, v, more) := ms;
    var head := Quote(k) + [':'] + Render(v);
    if more == Empty {
      var after := ['}'] + rest;
      assert RenderMembers(ms) + ['}'] + rest == head + after;
      ParseMember(k, v, after);
      SkipNothing(after);
      assert after[1..] == rest;
    } else {
      var tail := RenderMembers(more) + ['}'] + rest;
      var after := [','] + tail;
      assert RenderMembers(ms) + ['}'] + rest == head + after;
      ParseMember(k, v, after);
      ParseRenderedMembers(more, rest);
      SkipNothing(after);
      assert after[1..] == tail;
    }
  }

  /** A written member is read back up to what follows its value. */
  lemma ParseMember(k: string, v: Value, after: string)
    requires IsPlain(k) && WellFormed(v) && after != [] && !IsNumberChar(after[0])
    ensures ParseMembers(Quote(k) + [':'] + Render(v) + after) == MembersAfter(k, v, after)
    decreases v, 2
  {
    var rv := Render(v) + after;
    ParseRendered(v, after);
    ParseQuotedKey(k, rv);
    Associate(Quote(k) + [':'], Render(v), after);
  }

  lemma ParseQuotedKey(k: string, rest: string)
    requires IsPlain(k)
    ensures ParseKey(Quote(k) + [':'] + rest) == Some((k, rest))
  {
    var s := Quote(k) + [':'] + rest;
    var r1 := [':'] + rest;
    assert s == ['"'] + (k + ['"'] + r1);
    SkipNothing(s);
    assert s[1..] == k + ['"'] + r1;
    ScanQuoted(k, r1);
    SkipNothing(r1);
    assert r1[1..] == rest;
  }

  /** Decode reads back every well-formed value Render writes. */
  lemma {:induction false} DecodeRendered(v: Value)
    requires WellFormed(v)
    ensures Decode(Render(v)) == Some(v)
  {
    ParseRendered(v, []);
    assert Render(v) + [] == Render(v);
  }
}
