/** A parser for the part of JSON that avprobe writes: objects, arrays, strings and integers,
    by the grammar of RFC 8259 (sections 2 to 7). */
module JsonText {
  import opened Wrappers

  datatype Json = Int(n: int) | Str(s: string) | Arr(values: seq<Json>) | Obj(members: seq<Member>)

  datatype Member = Member(name: string, value: Json)

  predicate IsWhite(c: char) {
    c == ' ' || c == '\n' || c == '\r' || c == '\t'
  }

  /** The first position from i on that holds no white space. */
  function Skip(s: string, i: nat): (j: nat)
    ensures i <= j
    decreases |s| - i
  {
    if i < |s| && IsWhite(s[i]) then Skip(s, i + 1) else i
  }

  /** The character at position i is c. */
  predicate Is(s: string, i: nat, c: char) {
    i < |s| && s[i] == c
  }

  // ---------- numbers ----------

  predicate IsDigit(c: char) {
    '0' <= c <= '9'
  }

  function DigitEnd(s: string, i: nat): (j: nat)
    ensures i <= j && (i <= |s| ==> j <= |s|)
    decreases |s| - i
  {
    if i < |s| && IsDigit(s[i]) then DigitEnd(s, i + 1) else i
  }

  function DigitValue(c: char): (d: nat)
    requires IsDigit(c)
    ensures d < 10
  {
    c as int - '0' as int
  }

  /** The value of a string of decimal digits. */
  function Decimal(t: string): nat
    requires forall k :: 0 <= k < |t| ==> IsDigit(t[k])
  {
    if t == "" then 0 else 10 * Decimal(t[..|t| - 1]) + DigitValue(t[|t| - 1])
  }

  lemma {:induction false} DigitsBefore(s: string, i: nat)
    requires i <= |s|
    ensures forall k :: i <= k < DigitEnd(s, i) ==> IsDigit(s[k])
    decreases |s| - i
  {
    if i < |s| && IsDigit(s[i]) {
      DigitsBefore(s, i + 1);
    }
  }

  /** int = zero / ( digit1-9 *DIGIT ), without fraction and exponent. */
  function ParseDigits(s: string, i: nat): (r: Result<nat>)
    requires i <= |s|
    ensures r.Ok? ==> i < r.pos <= |s|
  {
    var j := DigitEnd(s, i);
    DigitsBefore(s, i);
    if i == j || (s[i] == '0' && j > i + 1) then Err
    else if Is(s, j, '.') || Is(s, j, 'e') || Is(s, j, 'E') then Err
    else Ok(Decimal(s[i..j]), j)
  }

  function ParseNumber(s: string, i: nat): (r: Result<int>)
    requires i <= |s|
    ensures r.Ok? ==> i < r.pos <= |s|
  {
    if Is(s, i, '-') then
      match ParseDigits(s, i + 1)
      case Err => Err
      case Ok(n, j) => var m: int := n; Ok(-m, j)
    else
      match ParseDigits(s, i)
      case Err => Err
      case Ok(n, j) => Ok(n, j)
  }

  // ---------- strings ----------

  function HexDigit(c: char): int {
    if '0' <= c <= '9' then c as int - '0' as int
    else if 'a' <= c <= 'f' then c as int - 'a' as int + 10
    else if 'A' <= c <= 'F' then c as int - 'A' as int + 10
    else -1
  }

  /** One character of a string and the position after it. */
  function ParseChar(s: string, i: nat): (r: Result<char>)
    ensures r.Ok? ==> i < r.pos <= |s|
  {
    if i >= |s| || s[i] == '\"' || s[i] < ' ' then Err
    else if s[i] != '\\' then Ok(s[i], i + 1)
    else if i + 1 >= |s| then Err
    else
      var e := s[i + 1];
      if e == '\"' || e == '\\' || e == '/' then Ok(e, i + 2)
      else if e == 'b' then Ok(8 as char, i + 2)
      else if e == 'f' then Ok(12 as char, i + 2)
      else if e == 'n' then Ok('\n', i + 2)
      else if e == 'r' then Ok('\r', i + 2)
      else if e == 't' then Ok('\t', i + 2)
      else if e == 'u' && i + 5 < |s| then
        var a, b, c, d := HexDigit(s[i + 2]), HexDigit(s[i + 3]), HexDigit(s[i + 4]), HexDigit(s[i + 5]);
        if a < 0 || b < 0 || c < 0 || d < 0 then Err
        else
          var v := a * 4096 + b * 256 + c * 16 + d;
          if v < 0xD800 then Ok(v as char, i + 6) else Err // no surrogates
      else Err
  }

  /** The rest of a string whose opening quote is before i. */
  function ParseString(s: string, i: nat): (r: Result<string>)
    ensures r.Ok? ==> i < r.pos <= |s|
    decreases |s| - i
  {
    if Is(s, i, '\"') then Ok("", i + 1)
    else
      match ParseChar(s, i)
      case Err => Err
      case Ok(c, j) =>
        match ParseString(s, j)
        case Err => Err
        case Ok(t, k) => Ok([c] + t, k)
  }

  // ---------- values ----------

  /** A value, with white space before it. */
  function ParseValue(s: string, i: nat): (r: Result<Json>)
    ensures r.Ok? ==> i < r.pos <= |s|
    decreases |s| - i, 0
  {
    var j := Skip(s, i);
    if j >= |s| then Err
    else if s[j] == '\"' then
      match ParseString(s, j + 1)
      case Err => Err
      case Ok(t, k) => Ok(Str(t), k)
    else if s[j] == '[' then
      if Is(s, Skip(s, j + 1), ']') then Ok(Arr([]), Skip(s, j + 1) + 1)
      else
        match ParseValues(s, j + 1)
        case Err => Err
        case Ok(vs, k) => Ok(Arr(vs), k)
    else if s[j] == '{' then
      if Is(s, Skip(s, j + 1), '}') then Ok(Obj([]), Skip(s, j + 1) + 1)
      else
        match ParseMembers(s, j + 1)
        case Err => Err
        case Ok(ms, k) => Ok(Obj(ms), k)
    else
      match ParseNumber(s, j)
      case Err => Err
      case Ok(n, k) => Ok(Int(n), k)
  }

  /** value *( , value ) ] */
  function ParseValues(s: string, i: nat): (r: Result<seq<Json>>)
    ensures r.Ok? ==> i < r.pos <= |s| && |r.value| > 0
    decreases |s| - i, 1
  {
    match ParseValue(s, i)
    case Err => Err
    case Ok(v, j) =>
      var k := Skip(s, j);
      if Is(s, k, ']') then Ok([v], k + 1)
      else if Is(s, k, ',') then
        match ParseValues(s, k + 1)
        case Err => Err
        case Ok(vs, m) => Ok([v] + vs, m)
      else Err
  }

  /** A name, a colon and a value. */
  function ParseMember(s: string, i: nat): (r: Result<Member>)
    ensures r.Ok? ==> i < r.pos <= |s|
    decreases |s| - i, 1
  {
    var j := Skip(s, i);
    if !Is(s, j, '\"') then Err
    else
      match ParseString(s, j + 1)
      case Err => Err
      case Ok(name, k) =>
        if !Is(s, Skip(s, k), ':') then Err
        else
          match ParseValue(s, Skip(s, k) + 1)
          case Err => Err
          case Ok(v, m) => Ok(Member(name, v), m)
  }

  /** member *( , member ) } */
  function ParseMembers(s: string, i: nat): (r: Result<seq<Member>>)
    ensures r.Ok? ==> i < r.pos <= |s| && |r.value| > 0
    decreases |s| - i, 2
  {
    match ParseMember(s, i)
    case Err => Err
    case Ok(v, j) =>
      var k := Skip(s, j);
      if Is(s, k, '}') then Ok([v], k + 1)
      else if Is(s, k, ',') then
        match ParseMembers(s, k + 1)
        case Err => Err
        case Ok(vs, m) => Ok([v] + vs, m)
      else Err
  }

  /** A JSON text: one value with white space around it. */
  function Parse(s: string): Result<Json> {
    match ParseValue(s, 0)
    case Err => Err
    case Ok(v, j) => if Skip(s, j) >= |s| then Ok(v, |s|) else Err
  }

  // ---------- strings that read back ----------

  /** The text stands at position i. */
  predicate Holds(s: string, i: nat, t: string) {
    i + |t| <= |s| && s[i..i + |t|] == t
  }

  lemma HoldsAt(s: string, i: nat, t: string, k: nat)
    requires Holds(s, i, t) && k < |t|
    ensures s[i + k] == t[k]
  {
    assert s[i..i + |t|][k] == t[k];
  }

  lemma HoldsParts(s: string, i: nat, a: string, b: string)
    requires Holds(s, i, a + b)
    ensures Holds(s, i, a) && Holds(s, i + |a|, b)
  {
    var w := s[i..i + |a| + |b|];
    assert w[..|a|] == a && w[|a|..] == b;
    assert s[i..i + |a|] == w[..|a|];
    assert s[i + |a|..i + |a| + |b|] == w[|a|..];
  }

  /** A character that stands for itself inside a string. */
  predicate PlainChar(c: char) {
    c >= ' ' && c != '\"' && c != '\\'
  }

  predicate Plain(t: string) {
    forall k :: 0 <= k < |t| ==> PlainChar(t[k])
  }

  lemma {:induction false} PlainReads(s: string, i: nat, t: string, k: nat)
    requires Holds(s, i, t) && Plain(t) && Is(s, i + |t|, '\"') && k <= |t|
    ensures ParseString(s, i + k) == Ok(t[k..], i + |t| + 1)
    decreases |t| - k
  {
    if k < |t| {
      HoldsAt(s, i, t, k);
      PlainReads(s, i, t, k + 1);
      assert t[k..] == [t[k]] + t[k + 1..];
    }
  }

  /** A string is never longer than its text, and shorter if a character is escaped. */
  lemma {:induction false} StringShrinks(s: string, i: nat)
    ensures var r := ParseString(s, i);
      r.Ok? ==> i + |r.value| < r.pos
                && (i + |r.value| + 1 == r.pos ==> Holds(s, i, r.value) && Plain(r.value))
    decreases |s| - i
  {
    if i < |s| && s[i] != '\"' {
      var c := ParseChar(s, i);
      if c.Ok? {
        StringShrinks(s, c.pos);
        var t := ParseString(s, c.pos);
        if t.Ok? && i + |t.value| + 2 == t.pos {
          assert Holds(s, i + 1, t.value);
          assert s[i..i + 1 + |t.value|] == [s[i]] + s[i + 1..i + 1 + |t.value|];
        }
      }
    }
  }

  /** A quote inside a string's text is escaped, so the string has a quote, further left. */
  lemma {:induction false} QuoteMovesLeft(s: string, i: nat, p: nat) returns (q: nat)
    requires ParseString(s, i).Ok? && i <= p < ParseString(s, i).pos - 1 && s[p] == '\"'
    ensures var r := ParseString(s, i).value; i + q < p && q < |r| && r[q] == '\"'
    decreases |s| - i
  {
    var c := ParseChar(s, i);
    if p < c.pos {
      q := 0;
    } else {
      var q' := QuoteMovesLeft(s, c.pos, p);
      q := q' + 1;
    }
  }

  /** So a string that is its own text and has a quote would have quotes ever further left. */
  lemma {:induction false} NoQuoteInside(s: string, i: nat, t: string, p: nat)
    requires Holds(s, i, t) && ParseString(s, i).Ok? && ParseString(s, i).value == t
    requires p <= |t| && i + p < ParseString(s, i).pos - 1 && s[i + p] == '\"'
    ensures false
    decreases p
  {
    var q := QuoteMovesLeft(s, i, i + p);
    HoldsAt(s, i, t, q);
    NoQuoteInside(s, i, t, q);
  }

  /** A name written between quotes as it is reads back if and only if it holds neither quotes
      nor backslashes nor control characters. */
  lemma RawReadsBackIffPlain(s: string, i: nat, t: string)
    requires Holds(s, i, t) && Is(s, i + |t|, '\"')
    ensures (ParseString(s, i).Ok? && ParseString(s, i).value == t) <==> Plain(t)
    ensures Plain(t) ==> ParseString(s, i) == Ok(t, i + |t| + 1)
  {
    if Plain(t) {
      PlainReads(s, i, t, 0);
    } else {
      var r := ParseString(s, i);
      if r.Ok? && r.value == t {
        StringShrinks(s, i);
        NoQuoteInside(s, i, t, |t|);
      }
    }
  }
}
