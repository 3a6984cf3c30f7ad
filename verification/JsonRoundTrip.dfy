/** What avprobe prints as JSON, read back (avtools/avprobe.c, RFC 8259). */
module JsonRoundTrip {
  import opened Wrappers
  import opened JsonText
  import opened ProbeJson

  // ---------- what the calls mean ----------

  /** The JSON value of an element; the elements of an array have no names. */
  function Meaning(node: Node): Json
    decreases node, KidCount(node) + 1
  {
    match node
    case NInt(_, n) => Int(n)
    case NStr(_, s) => Str(s)
    case NArr(_, kids) => Arr(Values(node, 0))
    case NObj(_, kids) => Obj(Members(node, 0))
  }

  function Values(node: Node, k: nat): seq<Json>
    requires (node.NArr? || node.NObj?) && k <= |node.kids|
    decreases node, |node.kids| - k
  {
    if k == |node.kids| then [] else [Meaning(node.kids[k])] + Values(node, k + 1)
  }

  function Members(node: Node, k: nat): seq<Member>
    requires (node.NArr? || node.NObj?) && k <= |node.kids|
    decreases node, |node.kids| - k
  {
    if k == |node.kids| then [] else [Member(node.kids[k].name, Meaning(node.kids[k]))] + Members(node, k + 1)
  }

  /** No array directly inside an array, and no special character in a name that is printed as
      it is; the keys of strings are escaped. */
  predicate Printable(node: Node)
    decreases node, KidCount(node) + 1
  {
    if node.NArr? || node.NObj? then KidsPrintable(node, 0) else true
  }

  predicate KidsPrintable(node: Node, k: nat)
    requires (node.NArr? || node.NObj?) && k <= |node.kids|
    decreases node, |node.kids| - k
  {
    k == |node.kids|
    || (KidPrintable(node.kids[k], KindOf(node)) && Printable(node.kids[k]) && KidsPrintable(node, k + 1))
  }

  predicate KidPrintable(kid: Node, kind: Kind) {
    if kind == ARRAY then !kid.NArr? else kid.NStr? || Plain(kid.name)
  }

  // ---------- characters, strings, numbers ----------

  predicate AllWhite(w: string) {
    forall k :: 0 <= k < |w| ==> IsWhite(w[k])
  }

  lemma {:induction false} SkipsWhite(s: string, i: nat, w: string, k: nat)
    requires Holds(s, i, w) && AllWhite(w) && k <= |w| && (i + |w| < |s| ==> !IsWhite(s[i + |w|]))
    ensures Skip(s, i + k) == i + |w|
    decreases |w| - k
  {
    if k < |w| {
      HoldsAt(s, i, w, k);
      SkipsWhite(s, i, w, k + 1);
    }
  }

  lemma EscapedCharReads(s: string, i: nat, c: char)
    requires Holds(s, i, EscChar(c))
    ensures ParseChar(s, i) == Ok(c, i + |EscChar(c)|) && !Is(s, i, '\"')
  {
    var t := EscChar(c);
    forall k | 0 <= k < |t| ensures s[i + k] == t[k] {
      HoldsAt(s, i, t, k);
    }
    assert |t| > 0 && s[i] == t[0];
    if |t| > 1 {
      assert s[i + 1] == t[1];
    }
    if |t| == 6 {
      assert s[i + 2] == t[2] && s[i + 3] == t[3] && s[i + 4] == t[4] && s[i + 5] == t[5];
    }
  }

  /** json_escape_print is undone by the string rules of RFC 8259, section 7. */
  lemma {:induction false} EscapedReads(s: string, i: nat, t: string, k: nat)
    requires k <= |t| && Holds(s, i, Escape(t, k)) && Is(s, i + |Escape(t, k)|, '\"')
    ensures ParseString(s, i) == Ok(t[k..], i + |Escape(t, k)| + 1)
    decreases |t| - k
  {
    hide ParseChar, EscChar;
    if k < |t| {
      var c := EscChar(t[k]);
      HoldsParts(s, i, c, Escape(t, k + 1));
      EscapedCharReads(s, i, t[k]);
      EscapedReads(s, i + |c|, t, k + 1);
      assert t[k..] == [t[k]] + t[k + 1..];
    } else {
      assert t[k..] == "";
    }
  }

  lemma {:induction false} DigitsAreDecimal(n: nat)
    ensures Decimal(Digits(n)) == n
    ensures |Digits(n)| > 1 ==> Digits(n)[0] != '0'
    ensures n > 0 ==> Digits(n)[0] != '0'
  {
    if n >= 10 {
      DigitsAreDecimal(n / 10);
      assert Digits(n)[..|Digits(n)| - 1] == Digits(n / 10);
    } else {
      assert Digits(n)[..0] == "";
      assert Decimal("") == 0;
    }
  }

  lemma {:induction false} DigitsEnd(s: string, i: nat, t: string, k: nat)
    requires Holds(s, i, t) && (forall m :: 0 <= m < |t| ==> IsDigit(t[m])) && k <= |t|
    requires i + |t| < |s| ==> !IsDigit(s[i + |t|])
    ensures DigitEnd(s, i + k) == i + |t|
    decreases |t| - k
  {
    if k < |t| {
      HoldsAt(s, i, t, k);
      DigitsEnd(s, i, t, k + 1);
    }
  }

  /** What may follow a value: nothing that would continue a number. */
  predicate Ends(s: string, i: nat) {
    i < |s| ==> !IsDigit(s[i]) && s[i] != '.' && s[i] != 'e' && s[i] != 'E'
  }

  lemma DigitsRead(s: string, i: nat, n: nat)
    requires Holds(s, i, Digits(n)) && Ends(s, i + |Digits(n)|)
    ensures ParseDigits(s, i) == Ok(n, i + |Digits(n)|)
  {
    var t := Digits(n);
    DigitsAreDecimal(n);
    DigitsEnd(s, i, t, 0);
    HoldsAt(s, i, t, 0);
  }

  lemma NumberReads(s: string, i: nat, n: int)
    requires Holds(s, i, Number(n)) && Ends(s, i + |Number(n)|)
    ensures ParseNumber(s, i) == Ok(n, i + |Number(n)|)
    ensures i < |s| && s[i] == Number(n)[0] && (s[i] == '-' || IsDigit(s[i]))
  {
    HoldsAt(s, i, Number(n), 0);
    if n < 0 {
      HoldsParts(s, i, "-", Digits(-n));
      DigitsRead(s, i + 1, -n);
    } else {
      DigitsRead(s, i, n);
    }
  }

  lemma QuotedReads(s: string, i: nat, t: string)
    requires Holds(s, i, Quoted(t))
    ensures Is(s, i, '\"') && ParseString(s, i + 1) == Ok(t, i + |Quoted(t)|)
  {
    hide Holds, Escape, ParseString;
    HoldsParts(s, i, "\"" + Escape(t, 0), "\"");
    HoldsParts(s, i, "\"", Escape(t, 0));
    HoldsAt(s, i, "\"", 0);
    HoldsAt(s, i + 1 + |Escape(t, 0)|, "\"", 0);
    EscapedReads(s, i + 1, t, 0);
  }

  lemma NameReads(s: string, i: nat, name: string)
    requires Holds(s, i, Named(name))
    ensures Is(s, i, '\"') && i + |name| + 5 <= |s|
    ensures Holds(s, i + |name| + 2, " : ")
    ensures (ParseString(s, i + 1).Ok? && ParseString(s, i + 1).value == name) <==> Plain(name)
    ensures Plain(name) ==> ParseString(s, i + 1) == Ok(name, i + |name| + 2)
  {
    HoldsParts(s, i, "\"" + name, "\" : ");
    HoldsParts(s, i, "\"", name);
    HoldsAt(s, i, "\"", 0);
    assert "\" : " == "\"" + " : ";
    HoldsParts(s, i + 1 + |name|, "\"", " : ");
    HoldsAt(s, i + 1 + |name|, "\"", 0);
    RawReadsBackIffPlain(s, i + 1, name);
  }

  // ---------- elements ----------

  lemma BodyStarts(node: Node, level: nat)
    ensures Body(node, level) != "" && !IsWhite(Body(node, level)[0]) && Body(node, level)[0] !in ":,]}"
    ensures var c := Body(node, level)[0];
      && (node.NStr? ==> c == '\"') && (node.NArr? ==> c == '[') && (node.NObj? ==> c == '{')
      && (node.NInt? ==> c == '-' || IsDigit(c))
  {
    if node.NInt? && node.n >= 0 {
      assert IsDigit(Digits(node.n)[0]);
    }
  }

  /** The element of a group from its name on. */
  function Core(kid: Node, kind: Kind, level: nat): string {
    NameText(kid, kind) + Body(kid, level)
  }

  lemma CoreStarts(kid: Node, kind: Kind, level: nat)
    ensures Core(kid, kind, level) != "" && !IsWhite(Core(kid, kind, level)[0]) && Core(kid, kind, level)[0] !in ":,]}"
  {
    BodyStarts(kid, level);
    if NameText(kid, kind) != "" {
      assert NameText(kid, kind)[0] == '\"';
    }
  }

  lemma WhiteIsWhite(kid: Node, kind: Kind, level: nat, k: nat)
    ensures AllWhite(White(kid, kind, level, k)) && AllWhite(Indent(level))
  {
  }

  /** The elements from number k on, without the comma before the first of them, then the end
      of the group. */
  function Tail(node: Node, k: nat, level: nat, close: string): string
    requires (node.NArr? || node.NObj?) && k < |node.kids|
  {
    White(node.kids[k], KindOf(node), level, k)
      + (Core(node.kids[k], KindOf(node), level) + (KidsText(node, k + 1, level) + close))
  }

  lemma KidsTextIsTail(node: Node, k: nat, level: nat, close: string)
    requires (node.NArr? || node.NObj?) && k < |node.kids|
    ensures KidsText(node, k, level) + close == FirstComma(k) + Tail(node, k, level, close)
  {
    hide White, NameText, Body;
    var a, b, c, d, e := FirstComma(k), White(node.kids[k], KindOf(node), level, k),
      NameText(node.kids[k], KindOf(node)),
      Body(node.kids[k], level), KidsText(node, k + 1, level);
    assert (a + (b + (c + (d + e)))) + close == a + (b + ((c + d) + (e + close)));
  }

  /** The text after element k: a comma and the next one, or the end of the group. */
  ghost predicate Closes(close: string, bracket: char) {
    (bracket == ']' || bracket == '}') && exists w :: AllWhite(w) && close == w + [bracket]
  }

  lemma SkipsTo(s: string, i: nat, w: string, rest: string)
    requires Holds(s, i, w + rest) && AllWhite(w) && rest != "" && !IsWhite(rest[0])
    ensures Skip(s, i) == i + |w| && Holds(s, i + |w|, rest) && i + |w| < |s| && s[i + |w|] == rest[0]
  {
    HoldsParts(s, i, w, rest);
    HoldsAt(s, i + |w|, rest, 0);
    SkipsWhite(s, i, w, 0);
  }

  lemma CloseReached(s: string, i: nat, close: string, bracket: char)
    requires Holds(s, i, close) && Closes(close, bracket)
    ensures Is(s, Skip(s, i), bracket) && Skip(s, i) + 1 == i + |close| && Ends(s, i)
  {
    var w :| AllWhite(w) && close == w + [bracket];
    SkipsTo(s, i, w, [bracket]);
    HoldsAt(s, i, close, 0);
  }

  /** A value is the same with white space skipped before it. */
  lemma SameAfterSkip(s: string, i: nat, j: nat)
    requires Skip(s, i) == Skip(s, j)
    ensures ParseValue(s, i) == ParseValue(s, j) && ParseMember(s, i) == ParseMember(s, j)
  {
    hide Skip, ParseString, ParseValue;
    SameValue(s, i, j);
  }

  lemma SameValue(s: string, i: nat, j: nat)
    requires Skip(s, i) == Skip(s, j)
    ensures ParseValue(s, i) == ParseValue(s, j)
  {
    hide Skip, ParseString, ParseNumber, ParseValues, ParseMembers, ParseMember;
  }

  lemma SkipNothing(s: string, i: nat)
    requires i < |s| && !IsWhite(s[i])
    ensures Skip(s, i) == i
  {
  }

  /** What comes after an element ends a number. */
  lemma RestEnds(node: Node, k: nat, level: nat, close: string, bracket: char, s: string, i: nat)
    requires (node.NArr? || node.NObj?) && k < |node.kids| && Closes(close, bracket)
    requires Holds(s, i, KidsText(node, k + 1, level) + close)
    ensures Ends(s, i)
    ensures k + 1 == |node.kids| ==> Is(s, Skip(s, i), bracket) && Skip(s, i) + 1 == i + |close|
    ensures k + 1 < |node.kids| ==>
      Skip(s, i) == i && Is(s, i, ',') && Holds(s, i + 1, Tail(node, k + 1, level, close))
  {
    hide *;
    if k + 1 < |node.kids| {
      KidsTextIsTail(node, k + 1, level, close);
      AfterComma(s, i, k + 1, Tail(node, k + 1, level, close));
    } else {
      NoMoreKids(node, level, close);
      CloseReached(s, i, close, bracket);
    }
  }

  lemma AfterComma(s: string, i: nat, k: nat, t: string)
    requires k > 0 && Holds(s, i, FirstComma(k) + t)
    ensures Is(s, i, ',') && Holds(s, i + 1, t) && Skip(s, i) == i && Ends(s, i)
  {
    HoldsParts(s, i, ",", t);
    HoldsAt(s, i, ",", 0);
  }

  lemma NoMoreKids(node: Node, level: nat, close: string)
    requires node.NArr? || node.NObj?
    ensures KidsText(node, |node.kids|, level) + close == close
  {
  }

  /** Reading yields the value and stops after its text. */
  ghost predicate Reads<T>(r: Result<T>, value: T, end: nat, good: bool) {
    if good then r == Ok(value, end) else r.Err? || r.value != value
  }

  // ---------- round trip ----------

  /** The value of an element, wherever its text stands. */
  lemma {:induction false} BodyReads(node: Node, level: nat, s: string, i: nat)
    requires Holds(s, i, Body(node, level)) && Ends(s, i + |Body(node, level)|)
    ensures Reads(ParseValue(s, i), Meaning(node), i + |Body(node, level)|, Printable(node))
    decreases node, KidCount(node) + 2
  {
    hide ParseString, ParseNumber, ParseValues, ParseMembers, Number, Quoted, KidsText, Indent, Values, Members;
    BodyStarts(node, level);
    HoldsAt(s, i, Body(node, level), 0);
    SkipNothing(s, i);
    match node
    case NInt(_, n) => NumberReads(s, i, n);
    case NStr(_, t) => QuotedReads(s, i, t);
    case NArr(_, kids) => ArrayReads(node, level, s, i);
    case NObj(_, kids) => ObjectReads(node, level, s, i);
  }

  lemma InnerClose(level: nat, bracket: char)
    requires bracket == ']' || bracket == '}'
    ensures Closes("\n" + Indent(level) + [bracket], bracket)
  {
    var w := "\n" + Indent(level);
    assert AllWhite(w);
    assert "\n" + Indent(level) + [bracket] == w + [bracket];
  }

  /** Inside a group without elements there is only white space. */
  lemma EmptyGroup(node: Node, level: nat, close: string, bracket: char, s: string, i: nat)
    requires (node.NArr? || node.NObj?) && node.kids == [] && Closes(close, bracket)
    requires Holds(s, i, "\n" + (KidsText(node, 0, level) + close))
    ensures Is(s, Skip(s, i), bracket) && Skip(s, i) + 1 == i + 1 + |close|
  {
    hide *;
    NoMoreKids(node, level, close);
    HoldsParts(s, i, "\n", close);
    NewlineSkipped(s, i);
    CloseReached(s, i + 1, close, bracket);
  }

  lemma NewlineSkipped(s: string, i: nat)
    requires Holds(s, i, "\n")
    ensures Skip(s, i) == Skip(s, i + 1)
  {
    HoldsAt(s, i, "\n", 0);
  }

  /** Inside a group with elements the first one follows. */
  lemma FirstKid(node: Node, level: nat, close: string, s: string, i: nat)
    requires (node.NArr? || node.NObj?) && node.kids != []
    requires Holds(s, i, "\n" + (KidsText(node, 0, level) + close))
    ensures Holds(s, i + 1, Tail(node, 0, level, close)) && Skip(s, i) == Skip(s, i + 1)
    ensures Skip(s, i) < |s| && s[Skip(s, i)] !in ":,]}"
    ensures |Tail(node, 0, level, close)| == |KidsText(node, 0, level) + close|
  {
    hide *;
    KidsTextIsTail(node, 0, level, close);
    NoComma(Tail(node, 0, level, close));
    HoldsParts(s, i, "\n", Tail(node, 0, level, close));
    NewlineSkipped(s, i);
    TailStarts(node, 0, level, close, s, i + 1);
  }

  lemma NoComma(t: string)
    ensures FirstComma(0) + t == t
  {
  }

  /** The tail's first element stands after white space. */
  lemma TailStarts(node: Node, k: nat, level: nat, close: string, s: string, i: nat)
    requires (node.NArr? || node.NObj?) && k < |node.kids| && Holds(s, i, Tail(node, k, level, close))
    ensures var j := Skip(s, i); var core := Core(node.kids[k], KindOf(node), level);
      && j == i + |White(node.kids[k], KindOf(node), level, k)| && j < |s| && s[j] !in ":,]}"
      && Holds(s, j, core) && Holds(s, j + |core|, KidsText(node, k + 1, level) + close)
      && Skip(s, j) == j
    ensures i + |Tail(node, k, level, close)| == Skip(s, i) + |Core(node.kids[k], KindOf(node), level)|
              + |KidsText(node, k + 1, level) + close|
  {
    hide Core, KidsText, White;
    var w, core, rest := White(node.kids[k], KindOf(node), level, k), Core(node.kids[k], KindOf(node), level),
      KidsText(node, k + 1, level) + close;
    WhiteIsWhite(node.kids[k], KindOf(node), level, k);
    CoreStarts(node.kids[k], KindOf(node), level);
    SkipsTo(s, i, w, core + rest);
    HoldsParts(s, i + |w|, core, rest);
  }

  lemma {:induction false} ArrayReads(node: Node, level: nat, s: string, i: nat)
    requires node.NArr? && Holds(s, i, Body(node, level)) && Skip(s, i) == i && Is(s, i, '[')
    ensures Reads(ParseValue(s, i), Meaning(node), i + |Body(node, level)|, Printable(node))
    decreases node, KidCount(node) + 1
  {
    hide ParseString, ParseNumber, ParseValues, ParseMembers, KidsText, Indent, Tail, Closes, Holds, Skip;
    var close := "\n" + Indent(level) + "]";
    InnerClose(level, ']');
    assert Body(node, level) == "[" + ("\n" + (KidsText(node, 0, level + 1) + close));
    HoldsParts(s, i, "[", "\n" + (KidsText(node, 0, level + 1) + close));
    if node.kids == [] {
      NoMoreKids(node, level + 1, close);
      EmptyGroup(node, level + 1, close, ']', s, i + 1);
    } else {
      FirstKid(node, level + 1, close, s, i + 1);
      ValuesRead(node, 0, level + 1, close, s, i + 1, i + 2);
    }
  }

  lemma {:induction false} ObjectReads(node: Node, level: nat, s: string, i: nat)
    requires node.NObj? && Holds(s, i, Body(node, level)) && Skip(s, i) == i && Is(s, i, '{')
    ensures Reads(ParseValue(s, i), Meaning(node), i + |Body(node, level)|, Printable(node))
    decreases node, KidCount(node) + 1
  {
    hide ParseString, ParseNumber, ParseValues, ParseMembers, KidsText, Indent, Tail, Closes, Holds, Skip;
    var close := "\n" + Indent(level) + "}";
    InnerClose(level, '}');
    assert Body(node, level) == "{" + ("\n" + (KidsText(node, 0, level + 1) + close));
    HoldsParts(s, i, "{", "\n" + (KidsText(node, 0, level + 1) + close));
    if node.kids == [] {
      NoMoreKids(node, level + 1, close);
      EmptyGroup(node, level + 1, close, '}', s, i + 1);
    } else {
      FirstKid(node, level + 1, close, s, i + 1);
      MembersRead(node, 0, level + 1, close, s, i + 1, i + 2);
    }
  }

  lemma ElementCore(kid: Node, level: nat)
    ensures Core(kid, ARRAY, level) == (if kid.NArr? then Named(kid.name) + Body(kid, level) else Body(kid, level))
  {
    hide Body, Named;
    assert "" + Body(kid, level) == Body(kid, level);
  }

  /** The name before an array in an array reads as a string, if at all. */
  lemma NamedArray(kid: Node, level: nat, s: string, i: nat)
    requires kid.NArr? && Holds(s, i, Named(kid.name)) && Skip(s, i) == i
    ensures Reads(ParseValue(s, i), Meaning(kid), i + |Core(kid, ARRAY, level)|, false)
  {
    hide Holds, ParseString, Values, Core, Named, Skip;
    NameReads(s, i, kid.name);
  }

  /** One element of an array: an array in it is preceded by a name, which reads as a string. */
  lemma {:induction false} ElementReads(kid: Node, level: nat, s: string, i: nat)
    requires Holds(s, i, Core(kid, ARRAY, level)) && Ends(s, i + |Core(kid, ARRAY, level)|) && Skip(s, i) == i
    ensures Reads(ParseValue(s, i), Meaning(kid), i + |Core(kid, ARRAY, level)|,
                  KidPrintable(kid, ARRAY) && Printable(kid))
    decreases kid, KidCount(kid) + 3
  {
    hide Holds, Ends, Skip, ParseValue, Body, Core, Meaning, Printable, Named;
    ElementCore(kid, level);
    if kid.NArr? {
      HoldsParts(s, i, Named(kid.name), Body(kid, level));
      NamedArray(kid, level, s, i);
    } else {
      BodyReads(kid, level, s, i);
    }
  }

  /** The key of a member: escaped for a string, as it is for all others. */
  lemma KeyReads(kid: Node, s: string, i: nat)
    requires Holds(s, i, NameText(kid, OBJECT))
    ensures Is(s, i, '\"')
    ensures var r := ParseString(s, i + 1);
      && ((r.Ok? && r.value == kid.name) <==> KidPrintable(kid, OBJECT))
      && (KidPrintable(kid, OBJECT) ==>
            r.pos + 3 == i + |NameText(kid, OBJECT)| && Holds(s, r.pos, " : "))
  {
    if kid.NStr? {
      HoldsParts(s, i, Quoted(kid.name), " : ");
      QuotedReads(s, i, kid.name);
    } else {
      NameReads(s, i, kid.name);
    }
  }

  lemma ColonSkipped(s: string, k: nat)
    requires Holds(s, k, " : ") && k + 3 < |s| && !IsWhite(s[k + 3])
    ensures Is(s, Skip(s, k), ':') && Skip(s, k) == k + 1 && Skip(s, k + 2) == k + 3
  {
    HoldsAt(s, k, " : ", 0);
    HoldsAt(s, k, " : ", 1);
    HoldsAt(s, k, " : ", 2);
  }

  lemma {:induction false} MemberReads(kid: Node, level: nat, s: string, i: nat)
    requires Holds(s, i, Core(kid, OBJECT, level)) && Ends(s, i + |Core(kid, OBJECT, level)|) && Skip(s, i) == i
    ensures Reads(ParseMember(s, i), Member(kid.name, Meaning(kid)), i + |Core(kid, OBJECT, level)|,
                  KidPrintable(kid, OBJECT) && Printable(kid))
    decreases kid, KidCount(kid) + 3
  {
    hide Holds, NameText, Body, ParseString, ParseValue, Meaning, Printable, Ends;
    CoreIs(kid, level);
    HoldsParts(s, i, NameText(kid, OBJECT), Body(kid, level));
    KeyReads(kid, s, i);
    if KidPrintable(kid, OBJECT) {
      var k := ParseString(s, i + 1).pos;
      BodyStarts(kid, level);
      HoldsAt(s, k + 3, Body(kid, level), 0);
      InText(s, k + 3, Body(kid, level));
      ColonSkipped(s, k);
      SkipNothing(s, k + 3);
      SameAfterSkip(s, k + 2, k + 3);
      BodyReads(kid, level, s, k + 3);
    }
  }

  lemma CoreIs(kid: Node, level: nat)
    ensures Core(kid, OBJECT, level) == NameText(kid, OBJECT) + Body(kid, level)
  {
  }

  lemma InText(s: string, i: nat, t: string)
    requires Holds(s, i, t)
    ensures i + |t| <= |s|
  {
  }

  /** The elements of an array from number k on. */
  lemma {:induction false} ValuesRead(node: Node, k: nat, level: nat, close: string, s: string, i0: nat, i: nat)
    requires node.NArr? && k < |node.kids| && Closes(close, ']') && Holds(s, i, Tail(node, k, level, close))
    requires Skip(s, i0) == Skip(s, i)
    ensures Reads(ParseValues(s, i0), Values(node, k), i + |Tail(node, k, level, close)|, KidsPrintable(node, k))
    decreases node, |node.kids| - k
  {
    hide Holds, Tail, Closes, KidsText, Core, White, ParseValue, ParseMember, Skip, Meaning, Printable, KidPrintable,
      Ends;
    var kid, j := node.kids[k], Skip(s, i);
    TailStarts(node, k, level, close, s, i);
    var e := j + |Core(kid, ARRAY, level)|;
    RestEnds(node, k, level, close, ']', s, e);
    SameAfterSkip(s, i0, j);
    ElementReads(kid, level, s, j);
    if k + 1 < |node.kids| {
      KidsTextIsTail(node, k + 1, level, close);
      CommaLength(k + 1, Tail(node, k + 1, level, close));
      ValuesRead(node, k + 1, level, close, s, e + 1, e + 1);
      ValuesStep(node, k, s, i0, e, e + 1 + |Tail(node, k + 1, level, close)|);
    } else {
      NoMoreKids(node, level, close);
      LastValue(node, k, s, i0, e);
    }
  }

  lemma ConsDiffers<T>(a: T, s: seq<T>, b: T, t: seq<T>)
    ensures [a] + s == [b] + t <==> a == b && s == t
  {
    if [a] + s == [b] + t {
      assert ([a] + s)[0] == ([b] + t)[0];
      assert ([a] + s)[1..] == s && ([b] + t)[1..] == t;
    }
  }

  lemma ValuesStep(node: Node, k: nat, s: string, i: nat, e: nat, end: nat)
    requires node.NArr? && k + 1 < |node.kids|
    requires Reads(ParseValue(s, i), Meaning(node.kids[k]), e,
                   KidPrintable(node.kids[k], ARRAY) && Printable(node.kids[k]))
    requires Skip(s, e) == e && Is(s, e, ',')
    requires Reads(ParseValues(s, e + 1), Values(node, k + 1), end, KidsPrintable(node, k + 1))
    ensures Reads(ParseValues(s, i), Values(node, k), end, KidsPrintable(node, k))
  {
    hide ParseValue, Meaning, Printable, KidPrintable;
    var r := ParseValue(s, i);
    if r.Ok? {
      var q := Skip(s, r.pos);
      if Is(s, q, ',') && ParseValues(s, q + 1).Ok? {
        ConsDiffers(r.value, ParseValues(s, q + 1).value, Meaning(node.kids[k]), Values(node, k + 1));
      }
      ValuesLonger(node, k, r.value);
    }
  }

  /** A list of one value is not the values of two or more elements. */
  lemma ValuesLonger(node: Node, k: nat, v: Json)
    requires node.NArr? && k + 1 < |node.kids|
    ensures [v] != Values(node, k)
  {
    assert |Values(node, k)| == 1 + (1 + |Values(node, k + 2)|);
  }

  lemma LastValue(node: Node, k: nat, s: string, i: nat, e: nat)
    requires node.NArr? && k + 1 == |node.kids|
    requires Reads(ParseValue(s, i), Meaning(node.kids[k]), e,
                   KidPrintable(node.kids[k], ARRAY) && Printable(node.kids[k]))
    requires Is(s, Skip(s, e), ']')
    ensures Reads(ParseValues(s, i), Values(node, k), Skip(s, e) + 1, KidsPrintable(node, k))
  {
    hide ParseValue, Meaning, Printable, KidPrintable;
    assert Values(node, k + 1) == [];
    assert Values(node, k) == [Meaning(node.kids[k])];
    var r := ParseValue(s, i);
    if r.Ok? {
      var q := Skip(s, r.pos);
      if Is(s, q, ',') && ParseValues(s, q + 1).Ok? {
        ConsDiffers(r.value, ParseValues(s, q + 1).value, Meaning(node.kids[k]), Values(node, k + 1));
      }
    }
  }

  lemma CommaLength(k: nat, t: string)
    requires k > 0
    ensures |FirstComma(k) + t| == 1 + |t|
  {
  }

  /** The members of an object from number k on. */
  lemma {:induction false} MembersRead(node: Node, k: nat, level: nat, close: string, s: string, i0: nat, i: nat)
    requires node.NObj? && k < |node.kids| && Closes(close, '}') && Holds(s, i, Tail(node, k, level, close))
    requires Skip(s, i0) == Skip(s, i)
    ensures Reads(ParseMembers(s, i0), Members(node, k), i + |Tail(node, k, level, close)|, KidsPrintable(node, k))
    decreases node, |node.kids| - k
  {
    hide Holds, Tail, Closes, KidsText, Core, White, ParseValue, ParseMember, Skip, Meaning, Printable, KidPrintable,
      Ends;
    var kid, j := node.kids[k], Skip(s, i);
    TailStarts(node, k, level, close, s, i);
    var e := j + |Core(kid, OBJECT, level)|;
    RestEnds(node, k, level, close, '}', s, e);
    SameAfterSkip(s, i0, j);
    MemberReads(kid, level, s, j);
    if k + 1 < |node.kids| {
      KidsTextIsTail(node, k + 1, level, close);
      CommaLength(k + 1, Tail(node, k + 1, level, close));
      MembersRead(node, k + 1, level, close, s, e + 1, e + 1);
      MembersStep(node, k, s, i0, e, e + 1 + |Tail(node, k + 1, level, close)|);
    } else {
      NoMoreKids(node, level, close);
      LastMember(node, k, s, i0, e);
    }
  }

  function MemberOf(kid: Node): Member {
    Member(kid.name, Meaning(kid))
  }

  lemma MembersStep(node: Node, k: nat, s: string, i: nat, e: nat, end: nat)
    requires node.NObj? && k + 1 < |node.kids|
    requires Reads(ParseMember(s, i), MemberOf(node.kids[k]), e,
                   KidPrintable(node.kids[k], OBJECT) && Printable(node.kids[k]))
    requires Skip(s, e) == e && Is(s, e, ',')
    requires Reads(ParseMembers(s, e + 1), Members(node, k + 1), end, KidsPrintable(node, k + 1))
    ensures Reads(ParseMembers(s, i), Members(node, k), end, KidsPrintable(node, k))
  {
    hide ParseMember, Meaning, Printable, KidPrintable;
    var r := ParseMember(s, i);
    if r.Ok? {
      var q := Skip(s, r.pos);
      if Is(s, q, ',') && ParseMembers(s, q + 1).Ok? {
        ConsDiffers(r.value, ParseMembers(s, q + 1).value, MemberOf(node.kids[k]), Members(node, k + 1));
      }
      MembersLonger(node, k, r.value);
    }
  }

  lemma MembersLonger(node: Node, k: nat, v: Member)
    requires node.NObj? && k + 1 < |node.kids|
    ensures [v] != Members(node, k)
  {
    assert |Members(node, k)| == 1 + (1 + |Members(node, k + 2)|);
  }

  lemma LastMember(node: Node, k: nat, s: string, i: nat, e: nat)
    requires node.NObj? && k + 1 == |node.kids|
    requires Reads(ParseMember(s, i), MemberOf(node.kids[k]), e,
                   KidPrintable(node.kids[k], OBJECT) && Printable(node.kids[k]))
    requires Is(s, Skip(s, e), '}')
    ensures Reads(ParseMembers(s, i), Members(node, k), Skip(s, e) + 1, KidsPrintable(node, k))
  {
    hide ParseMember, Meaning, Printable, KidPrintable;
    assert Members(node, k + 1) == [];
    assert Members(node, k) == [MemberOf(node.kids[k])];
    var r := ParseMember(s, i);
    if r.Ok? {
      var q := Skip(s, r.pos);
      if Is(s, q, ',') && ParseMembers(s, q + 1).Ok? {
        ConsDiffers(r.value, ParseMembers(s, q + 1).value, MemberOf(node.kids[k]), Members(node, k + 1));
      }
    }
  }

  /** Where things are in the whole output. */
  lemma WholeText(root: Node)
    requires root.NObj?
    ensures var s := Output(root);
      && Is(s, 0, '{') && Skip(s, 0) == 0 && Holds(s, 1, KidsText(root, 0, 1) + "}")
      && |s| == 1 + |KidsText(root, 0, 1) + "}"| + 1 && Skip(s, |s| - 1) == |s|
  {
    hide KidsText;
    var s, body := Output(root), KidsText(root, 0, 1) + "}";
    assert KidsText(root, 0, 1) + "}\n" == body + "\n";
    assert s == "{" + (body + "\n");
    assert Holds(s, 0, s);
    HoldsParts(s, 0, "{", body + "\n");
    HoldsParts(s, 1, body, "\n");
    HoldsAt(s, 1 + |body|, "\n", 0);
  }

  lemma RootCloses()
    ensures Closes("}", '}')
  {
    assert AllWhite("") && "}" == "" + ['}'];
  }

  /** For every well-nested sequence of calls, what is printed is a JSON text that reads back as
      what the calls described if and only if no array stands directly in an array and every
      name that is printed as it is is free of special characters. */
  lemma OutputReadsBackIffPrintable(root: Node)
    requires root.NObj?
    ensures Parse(Output(root)) == Ok(Meaning(root), |Output(root)|) <==> Printable(root)
  {
    hide ParseMembers, KidsText, Tail, Skip, Ends, Holds, Closes, Output;
    var s := Output(root);
    WholeText(root);
    RootCloses();
    if root.kids == [] {
      NoMoreKids(root, 1, "}");
      CloseReached(s, 1, "}", '}');
    } else {
      KidsTextIsTail(root, 0, 1, "}");
      NoComma(Tail(root, 0, 1, "}"));
      TailStarts(root, 0, 1, "}", s, 1);
      MembersRead(root, 0, 1, "}", s, 1, 1);
    }
  }

  // ---------- two outputs that are no JSON text ----------

  /** After the opening quote at i, the character c and the closing quote end the string. */
  lemma ShortString(s: string, i: nat, c: char)
    requires i + 2 < |s| && s[i + 1] == c && PlainChar(c) && s[i + 2] == '\"'
    ensures ParseString(s, i + 1) == Ok([c], i + 3)
  {
    assert ParseString(s, i + 2) == Ok("", i + 3);
    assert [c] + "" == [c];
  }

  /** Text whose first member is malformed. */
  lemma NoMember(s: string)
    requires 3 < |s| && s[0] == '{' && s[1] == ' ' && s[2] == ' ' && s[3] == '\"'
    requires ParseMember(s, 1) == Err
    ensures Parse(s) == Err
  {
    assert Skip(s, 1) == Skip(s, 2) == 3;
    assert ParseMembers(s, 1) == Err;
    assert ParseValue(s, 0) == Err;
  }

  lemma TwoSpaces()
    ensures Indent(1) == "  " && Indent(2) == "    "
  {
  }

  lemma OneKid(node: Node, level: nat)
    requires (node.NArr? || node.NObj?) && |node.kids| == 1
    ensures var kid, kind := node.kids[0], KindOf(node);
      KidsText(node, 0, level) == White(kid, kind, level, 0) + NameText(kid, kind) + Body(kid, level)
  {
    assert KidsText(node, 1, level) == "";
  }

  lemma QuoteMemberText()
    ensures var kid := NInt("a\"b", 1);
      White(kid, OBJECT, 1, 0) == "  " && NameText(kid, OBJECT) == "\"a\"b\" : " && Body(kid, 1) == "1"
  {
    hide Indent;
    TwoSpaces();
    assert Digits(1) == [Digit(1)] && Digit(1) == '1';
  }

  lemma QuoteText()
    ensures Output(NObj("", [NInt("a\"b", 1)])) == "{  \"a\"b\" : 1}\n"
  {
    hide KidsText, White, NameText, Body;
    var root := NObj("", [NInt("a\"b", 1)]);
    OneKid(root, 1);
    QuoteMemberText();
    assert KidsText(root, 0, 1) == "  " + "\"a\"b\" : " + "1";
  }

  lemma QuoteParts(s: string)
    requires s == "{  \"a\"b\" : 1}\n"
    ensures |s| > 7 && s[0] == '{' && s[1] == s[2] == ' ' && s[3] == s[5] == '\"' && s[4] == 'a' && s[6] == 'b'
  {
  }

  lemma QuoteMember(s: string)
    requires |s| > 7 && s[0] == '{' && s[1] == s[2] == ' ' && s[3] == s[5] == '\"' && s[4] == 'a' && s[6] == 'b'
    ensures ParseMember(s, 1) == Err
  {
    hide ParseValue, ParseString;
    ShortString(s, 3, 'a');
    assert Skip(s, 6) == 6;
    assert Skip(s, 2) == Skip(s, 3) == 3;
    assert Skip(s, 1) == 3;
  }

  /** A quote in the key of an integer ends the key too early. */
  lemma QuoteInKeyFails()
    ensures var root := NObj("", [NInt("a\"b", 1)]);
      Output(root) == "{  \"a\"b\" : 1}\n" && Parse(Output(root)) == Err
  {
    hide *;
    var s := Output(NObj("", [NInt("a\"b", 1)]));
    QuoteText();
    QuoteParts(s);
    QuoteMember(s);
    NoMember(s);
  }

  /** A newline and four spaces at i. */
  lemma SkipsFive(s: string, i: nat)
    requires i + 5 < |s| && s[i] == '\n' && (forall k :: i < k < i + 5 ==> s[k] == ' ') && s[i + 5] == '\"'
    ensures Skip(s, i) == i + 5
  {
    assert Skip(s, i + 3) == Skip(s, i + 4) == Skip(s, i + 5) == i + 5;
    assert Skip(s, i + 1) == Skip(s, i + 2) == i + 5;
  }

  /** A colon after the first value of an array. */
  lemma ColonInArray(s: string, i: nat)
    requires i + 9 < |s| && s[i] == '\n' && (forall k :: i < k < i + 5 ==> s[k] == ' ') && s[i + 5] == '\"'
    requires PlainChar(s[i + 6]) && s[i + 7] == '\"' && s[i + 8] == ' ' && s[i + 9] == ':'
    ensures ParseValues(s, i) == Err && !Is(s, Skip(s, i), ']')
  {
    SkipsFive(s, i);
    ShortString(s, i + 5, s[i + 6]);
    assert ParseValue(s, i) == Ok(Str([s[i + 6]]), i + 8);
    assert Skip(s, i + 9) == i + 9;
    assert Skip(s, i + 8) == i + 9;
  }

  lemma NoKidText(node: Node, level: nat)
    requires (node.NArr? || node.NObj?) && node.kids == []
    ensures KidsText(node, 0, level) == ""
  {
  }

  lemma InnerText()
    ensures Body(NArr("b", []), 2) == "[\n\n    ]"
    ensures White(NArr("b", []), ARRAY, 2, 0) + NameText(NArr("b", []), ARRAY) == "    \"b\" : "
  {
    hide KidsText, Indent;
    TwoSpaces();
    NoKidText(NArr("b", []), 3);
  }

  lemma MiddleText()
    ensures KidsText(NArr("a", [NArr("b", [])]), 0, 2) == "    \"b\" : [\n\n    ]"
  {
    hide KidsText, Body, White, NameText;
    InnerText();
    OneKid(NArr("a", [NArr("b", [])]), 2);
  }

  lemma InBrackets(t: string)
    requires t == "    \"b\" : [\n\n    ]"
    ensures "[\n" + (t + ("\n" + "  " + "]")) == "[\n    \"b\" : [\n\n    ]\n  ]"
  {
  }

  lemma OuterText()
    ensures Body(NArr("a", [NArr("b", [])]), 1) == "[\n    \"b\" : [\n\n    ]\n  ]"
  {
    hide KidsText, Indent;
    TwoSpaces();
    MiddleText();
    InBrackets(KidsText(NArr("a", [NArr("b", [])]), 0, 2));
  }

  lemma OuterName()
    ensures White(NArr("a", [NArr("b", [])]), OBJECT, 1, 0) + NameText(NArr("a", [NArr("b", [])]), OBJECT)
        == "  \"a\" : "
  {
    hide Indent;
    TwoSpaces();
  }

  lemma InBraces(t: string)
    requires t == "  \"a\" : " + "[\n    \"b\" : [\n\n    ]\n  ]"
    ensures "{" + (t + "}\n") == "{  \"a\" : [\n    \"b\" : [\n\n    ]\n  ]}\n"
  {
  }

  lemma NestedText()
    ensures Output(NObj("", [NArr("a", [NArr("b", [])])])) == "{  \"a\" : [\n    \"b\" : [\n\n    ]\n  ]}\n"
  {
    hide KidsText, Body, White, NameText;
    OuterText();
    OuterName();
    var root := NObj("", [NArr("a", [NArr("b", [])])]);
    OneKid(root, 1);
    assert KidsText(root, 0, 1) == "  \"a\" : " + "[\n    \"b\" : [\n\n    ]\n  ]";
    InBraces(KidsText(root, 0, 1));
  }

  lemma NestedParts(s: string)
    requires s == "{  \"a\" : [\n    \"b\" : [\n\n    ]\n  ]}\n"
    ensures |s| > 20 && s[0] == '{' && s[1] == s[2] == s[6] == s[8] == ' ' && s[3] == s[5] == '\"' && s[4] == 'a'
    ensures s[7] == ':' && s[9] == '[' && s[10] == '\n' && s[11] == s[12] == s[13] == s[14] == s[18] == ' '
    ensures s[15] == s[17] == '\"' && s[16] == 'b' && s[19] == ':'
  {
  }

  lemma NestedMember(s: string)
    requires |s| > 20 && s[0] == '{' && s[1] == s[2] == s[6] == s[8] == ' ' && s[3] == s[5] == '\"' && s[4] == 'a'
    requires s[7] == ':' && s[9] == '[' && s[10] == '\n' && s[11] == s[12] == s[13] == s[14] == s[18] == ' '
    requires s[15] == s[17] == '\"' && s[16] == 'b' && s[19] == ':'
    ensures ParseMember(s, 1) == Err
  {
    hide ParseValues, ParseMembers, ParseString;
    ShortString(s, 3, 'a');
    ColonInArray(s, 10);
    assert Skip(s, 2) == Skip(s, 3) == 3;
    assert Skip(s, 1) == 3;
    assert Skip(s, 6) == Skip(s, 7) == 7 && Skip(s, 8) == Skip(s, 9) == 9;
    assert ParseValue(s, 8) == Err;
  }

  /** The name of an array in an array stands where only a value may. */
  lemma ArrayInArrayFails()
    ensures var root := NObj("", [NArr("a", [NArr("b", [])])]);
      Output(root) == "{  \"a\" : [\n    \"b\" : [\n\n    ]\n  ]}\n" && Parse(Output(root)) == Err
  {
    hide *;
    var s := Output(NObj("", [NArr("a", [NArr("b", [])])]));
    NestedText();
    NestedParts(s);
    NestedMember(s);
    NoMember(s);
  }
}
