/** The JSON printer of avprobe: a stack of open groups decides separators and names
    (probe_group_enter, the probe_* wrappers and json_print_* of avtools/avprobe.c). */
module ProbeJson {
  import opened Wrappers
  import opened JsonText

  datatype Kind = ARRAY | OBJECT

  /** An open group: its name and kind, its index in its array or -1, and how many elements it
      has so far. */
  datatype Element = Element(name: string, kind: Kind, index: int, elems: nat)

  datatype Call =
    | ArrayHeader(name: string)
    | ArrayFooter
    | ObjectHeader(name: string)
    | ObjectFooter
    | IntCall(key: Option<string>, n: int)
    | StrCall(key: Option<string>, s: string)

  // ---------- text ----------

  function Spaces(n: nat): (t: string)
    ensures |t| == n && forall k :: 0 <= k < n ==> t[k] == ' '
  {
    seq(n, _ => ' ')
  }

  /** AVP_INDENT: a space padded to twice the level, so never less than one. */
  function Indent(level: nat): string {
    Spaces(if level == 0 then 1 else 2 * level)
  }

  function Digit(d: nat): (c: char)
    requires d < 10
    ensures IsDigit(c) && DigitValue(c) == d
  {
    ('0' as int + d) as char
  }

  function Digits(n: nat): (t: string)
    ensures |t| > 0 && forall k :: 0 <= k < |t| ==> IsDigit(t[k])
  {
    if n < 10 then [Digit(n)] else Digits(n / 10) + [Digit(n % 10)]
  }

  function Number(n: int): string {
    if n < 0 then "-" + Digits(-n) else Digits(n)
  }

  function Hex(d: nat): (c: char)
    requires d < 16
    ensures HexDigit(c) == d
  {
    if d < 10 then ('0' as int + d) as char else ('a' as int + d - 10) as char
  }

  /** json_escape_print on one character. */
  function EscChar(c: char): string {
    if c == '\r' then "\\r"
    else if c == '\n' then "\\n"
    else if c as int == 12 then "\\f"
    else if c as int == 8 then "\\b"
    else if c == '\t' then "\\t"
    else if c == '\\' || c == '\"' then ['\\', c]
    else if c < ' ' then "\\u00" + [Hex(c as int / 16), Hex(c as int % 16)]
    else [c]
  }

  /** json_escape_print from character k on. */
  function Escape(t: string, k: nat): string
    requires k <= |t|
    decreases |t| - k
  {
    if k == |t| then "" else EscChar(t[k]) + Escape(t, k + 1)
  }

  function Comma(elems: nat): string {
    if elems > 0 then ",\n" else ""
  }

  /** What comes before an element without a name. */
  function Lead(elems: nat, level: nat): string {
    if elems > 0 then ", " else Indent(level)
  }

  /** What comes before any other element: the separator, the indentation and its name. */
  function Opening(elems: nat, level: nat, name: string): string {
    Comma(elems) + Indent(level) + name
  }

  /** A name as it is, between quotes, and a colon. */
  function Named(name: string): string {
    "\"" + name + "\" : "
  }

  function Quoted(s: string): string {
    "\"" + Escape(s, 0) + "\""
  }

  /** A name with its special characters escaped. */
  function NamedEscaped(name: string): string {
    Quoted(name) + " : "
  }

  /** The text one call prints, with the group top open at this level; footers are printed
      after the group has been left. */
  function Emit(top: Element, level: nat, call: Call): string {
    match call
    case ArrayHeader(name) => Opening(top.elems, level, Named(name)) + "[\n"
    case ArrayFooter => "\n" + Indent(level) + "]"
    case ObjectHeader(name) => Opening(top.elems, level, if top.kind == OBJECT then Named(name) else "") + "{\n"
    case ObjectFooter => "\n" + Indent(level) + "}"
    case IntCall(key, n) => (if key.Some? then Opening(top.elems, level, Named(key.value)) else Lead(top.elems, level))
        + Number(n)
    case StrCall(key, s) => (if key.Some? then Opening(top.elems, level, NamedEscaped(key.value))
        else Lead(top.elems, level)) + Quoted(s)
  }

  function Last(stack: seq<Element>): Element
    requires stack != []
  {
    stack[|stack| - 1]
  }

  function Counted(stack: seq<Element>): (r: seq<Element>)
    requires stack != []
    ensures |r| == |stack|
  {
    stack[|stack| - 1 := Last(stack).(elems := Last(stack).elems + 1)]
  }

  /** probe_group_enter. */
  function Entered(stack: seq<Element>, name: string, kind: Kind): seq<Element> {
    if stack == [] then [Element(name, kind, -1, 0)]
    else Counted(stack) + [Element(name, kind, if Last(stack).kind == ARRAY then Last(stack).elems else -1, 0)]
  }

  predicate IsFooter(call: Call) {
    call.ArrayFooter? || call.ObjectFooter?
  }

  /** A group is open to print into, after leaving one if the call is a footer. */
  predicate Allowed(stack: seq<Element>, call: Call) {
    |stack| > if IsFooter(call) then 1 else 0
  }

  function After(stack: seq<Element>, call: Call): seq<Element>
    requires Allowed(stack, call)
  {
    match call
    case ArrayHeader(name) => Entered(stack, name, ARRAY)
    case ObjectHeader(name) => Entered(stack, name, OBJECT)
    case ArrayFooter => stack[..|stack| - 1]
    case ObjectFooter => stack[..|stack| - 1]
    case IntCall(_, _) => Counted(stack)
    case StrCall(_, _) => Counted(stack)
  }

  function Printed(stack: seq<Element>, call: Call): string
    requires Allowed(stack, call)
  {
    var s := if IsFooter(call) then stack[..|stack| - 1] else stack;
    Emit(Last(s), |s|, call)
  }

  // ---------- the printer ----------

  lemma OpeningSplits(elems: nat, level: nat, name: string)
    ensures Opening(elems, level, name) == Opening(elems, level, "") + name
  {
  }

  class PrintContext {
    var prefix: seq<Element>
    var out: string

    constructor ()
      ensures prefix == [] && out == ""
    {
      prefix, out := [], "";
    }

    method Print(t: string)
      modifies this`out
      ensures out == old(out) + t
    {
      out := out + t;
    }

    /** AVP_INDENT. */
    method AvpIndent()
      modifies this`out
      ensures out == old(out) + Indent(|prefix|)
    {
      out := out + Indent(|prefix|);
    }

    /** json_escape_print. */
    method JsonEscapePrint(s: string)
      modifies this`out
      ensures out == old(out) + Escape(s, 0)
    {
      var i := 0;
      while i < |s|
        invariant i <= |s| && out + Escape(s, i) == old(out) + Escape(s, 0)
      {
        assert out + (EscChar(s[i]) + Escape(s, i + 1)) == (out + EscChar(s[i])) + Escape(s, i + 1);
        Print(EscChar(s[i]));
        i := i + 1;
      }
    }

    /** Separator and indentation. */
    method PrintComma()
      requires prefix != []
      modifies this`out
      ensures out == old(out) + Opening(Last(prefix).elems, |prefix|, "")
    {
      hide Indent;
      if prefix[|prefix| - 1].elems > 0 {
        Print(",\n");
      }
      AvpIndent();
    }

    /** Separator and indentation, or a comma only, before an element without a name. */
    method PrintLead()
      requires prefix != []
      modifies this`out
      ensures out == old(out) + Lead(Last(prefix).elems, |prefix|)
    {
      hide Indent;
      if prefix[|prefix| - 1].elems > 0 {
        Print(", ");
      } else {
        AvpIndent();
      }
    }

    /** Separator, indentation and a name as it is. */
    method PrintNamed(name: string)
      requires prefix != []
      modifies this`out
      ensures out == old(out) + Opening(Last(prefix).elems, |prefix|, Named(name))
    {
      OpeningSplits(Last(prefix).elems, |prefix|, Named(name));
      hide Opening;
      PrintComma();
      Print("\"" + name + "\" : ");
    }

    /** A string value between quotes. */
    method PrintQuoted(s: string)
      modifies this`out
      ensures out == old(out) + Quoted(s)
    {
      hide Escape;
      Print("\"");
      JsonEscapePrint(s);
      Print("\"");
    }

    method ProbeGroupEnter(name: string, kind: Kind)
      modifies this`prefix
      ensures prefix == Entered(old(prefix), name, kind)
    {
      var count: int := -1;
      if |prefix| > 0 {
        var parent := prefix[|prefix| - 1];
        if parent.kind == ARRAY {
          count := parent.elems;
        }
        prefix := prefix[|prefix| - 1 := parent.(elems := parent.elems + 1)];
      }
      prefix := prefix + [Element(name, kind, count, 0)];
    }

    method ProbeGroupLeave()
      requires prefix != []
      modifies this`prefix
      ensures prefix == old(prefix)[..|old(prefix)| - 1]
    {
      prefix := prefix[..|prefix| - 1];
    }

    method ProbeHeader()
      requires prefix == []
      modifies this
      ensures prefix == Entered([], "root", OBJECT) && out == old(out) + "{"
    {
      Print("{");
      ProbeGroupEnter("root", OBJECT);
    }

    method ProbeFooter()
      requires prefix != []
      modifies this
      ensures prefix == old(prefix)[..|old(prefix)| - 1] && out == old(out) + "}\n"
    {
      Print("}\n");
      ProbeGroupLeave();
    }

    method ProbeArrayHeader(name: string)
      requires prefix != []
      modifies this
      ensures prefix == After(old(prefix), ArrayHeader(name))
      ensures out == old(out) + Printed(old(prefix), ArrayHeader(name))
    {
      hide Opening, Named;
      PrintNamed(name);
      Print("[\n");
      ProbeGroupEnter(name, ARRAY);
    }

    method ProbeArrayFooter()
      requires |prefix| > 1
      modifies this
      ensures prefix == After(old(prefix), ArrayFooter)
      ensures out == old(out) + Printed(old(prefix), ArrayFooter)
    {
      ProbeGroupLeave();
      Print("\n");
      AvpIndent();
      Print("]");
    }

    method ProbeObjectHeader(name: string)
      requires prefix != []
      modifies this
      ensures prefix == After(old(prefix), ObjectHeader(name))
      ensures out == old(out) + Printed(old(prefix), ObjectHeader(name))
    {
      hide Opening, Named;
      if prefix[|prefix| - 1].kind == OBJECT {
        PrintNamed(name);
      } else {
        PrintComma();
      }
      Print("{\n");
      ProbeGroupEnter(name, OBJECT);
    }

    method ProbeObjectFooter()
      requires |prefix| > 1
      modifies this
      ensures prefix == After(old(prefix), ObjectFooter)
      ensures out == old(out) + Printed(old(prefix), ObjectFooter)
    {
      ProbeGroupLeave();
      Print("\n");
      AvpIndent();
      Print("}");
    }

    method ProbeInt(key: Option<string>, value: int)
      requires prefix != []
      modifies this
      ensures prefix == After(old(prefix), IntCall(key, value))
      ensures out == old(out) + Printed(old(prefix), IntCall(key, value))
    {
      hide Opening, Named, Lead, Number;
      if key.Some? {
        PrintNamed(key.value);
      } else {
        PrintLead();
      }
      Print(Number(value));
      prefix := Counted(prefix);
    }

    method ProbeStr(key: Option<string>, value: string)
      requires prefix != []
      modifies this
      ensures prefix == After(old(prefix), StrCall(key, value))
      ensures out == old(out) + Printed(old(prefix), StrCall(key, value))
    {
      hide Opening, Quoted, Lead;
      if key.Some? {
        OpeningSplits(Last(prefix).elems, |prefix|, NamedEscaped(key.value));
        PrintComma();
        PrintQuoted(key.value);
        Print(" : ");
      } else {
        PrintLead();
      }
      PrintQuoted(value);
      prefix := Counted(prefix);
    }

    /** One call of the caller's sequence. */
    method Perform(call: Call)
      requires Allowed(prefix, call)
      modifies this
      ensures prefix == After(old(prefix), call) && out == old(out) + Printed(old(prefix), call)
    {
      match call
      case ArrayHeader(name) => ProbeArrayHeader(name);
      case ArrayFooter => ProbeArrayFooter();
      case ObjectHeader(name) => ProbeObjectHeader(name);
      case ObjectFooter => ProbeObjectFooter();
      case IntCall(key, n) => ProbeInt(key, n);
      case StrCall(key, s) => ProbeStr(key, s);
    }
  }

  // ---------- well-nested sequences of calls ----------

  /** What a well-nested sequence of calls describes. Elements of an object are named, plain
      values in an array are not. */
  datatype Node =
    | NInt(name: string, n: int)
    | NStr(name: string, s: string)
    | NArr(name: string, kids: seq<Node>)
    | NObj(name: string, kids: seq<Node>)

  function KindOf(node: Node): Kind
    requires node.NArr? || node.NObj?
  {
    if node.NArr? then ARRAY else OBJECT
  }

  function KidCount(node: Node): nat {
    if node.NArr? || node.NObj? then |node.kids| else 0
  }

  function Key(name: string, kind: Kind): Option<string> {
    if kind == OBJECT then Some(name) else None
  }

  /** The calls for an element of a group of this kind. */
  function Calls(node: Node, kind: Kind): seq<Call>
    decreases node, KidCount(node) + 1
  {
    match node
    case NInt(name, n) => [IntCall(Key(name, kind), n)]
    case NStr(name, s) => [StrCall(Key(name, kind), s)]
    case NArr(name, kids) => [ArrayHeader(name)] + (KidCalls(node, 0) + [ArrayFooter])
    case NObj(name, kids) => [ObjectHeader(name)] + (KidCalls(node, 0) + [ObjectFooter])
  }

  /** The calls for the elements of a group from number k on. */
  function KidCalls(node: Node, k: nat): seq<Call>
    requires (node.NArr? || node.NObj?) && k <= |node.kids|
    decreases node, |node.kids| - k
  {
    if k == |node.kids| then [] else Calls(node.kids[k], KindOf(node)) + KidCalls(node, k + 1)
  }

  /** Open groups and text after a sequence of calls. */
  datatype Outcome = Outcome(stack: seq<Element>, text: string) | Misplaced

  function Run(stack: seq<Element>, calls: seq<Call>): Outcome
    decreases |calls|
  {
    if calls == [] then Outcome(stack, "")
    else if !Allowed(stack, calls[0]) then Misplaced
    else
      match Run(After(stack, calls[0]), calls[1..])
      case Misplaced => Misplaced
      case Outcome(st, text) => Outcome(st, Printed(stack, calls[0]) + text)
  }

  lemma {:induction false} RunTogether(stack: seq<Element>, a: seq<Call>, b: seq<Call>)
    requires Run(stack, a).Outcome?
    ensures var r := Run(stack, a); var q := Run(r.stack, b);
      Run(stack, a + b) == if q.Outcome? then Outcome(q.stack, r.text + q.text) else Misplaced
    decreases |a|
  {
    hide Printed, After, Allowed;
    if a == [] {
      assert a + b == b;
      var q := Run(stack, b);
      assert q.Outcome? ==> "" + q.text == q.text;
    } else {
      RunTogether(After(stack, a[0]), a[1..], b);
      assert (a + b)[1..] == a[1..] + b;
      var first := Printed(stack, a[0]);
      var r := Run(After(stack, a[0]), a[1..]);
      var q := Run(r.stack, b);
      assert q.Outcome? ==> first + (r.text + q.text) == (first + r.text) + q.text;
    }
  }

  // ---------- the text of an element ----------

  /** The name printed before the value, if any; an array gets one even inside an array. */
  function NameText(node: Node, kind: Kind): string {
    match node
    case NInt(name, _) => if kind == OBJECT then Named(name) else ""
    case NStr(name, _) => if kind == OBJECT then NamedEscaped(name) else ""
    case NArr(name, _) => Named(name)
    case NObj(name, _) => if kind == OBJECT then Named(name) else ""
  }

  /** The white space before element number k, after its comma. */
  function White(node: Node, kind: Kind, level: nat, k: nat): string {
    if kind == ARRAY && (node.NInt? || node.NStr?) then (if k > 0 then " " else Indent(level))
    else (if k > 0 then "\n" else "") + Indent(level)
  }

  function FirstComma(k: nat): string {
    if k > 0 then "," else ""
  }

  /** The value itself. */
  function Body(node: Node, level: nat): string
    decreases node, KidCount(node) + 1
  {
    match node
    case NInt(_, n) => Number(n)
    case NStr(_, s) => Quoted(s)
    case NArr(_, kids) => "[\n" + (KidsText(node, 0, level + 1) + ("\n" + Indent(level) + "]"))
    case NObj(_, kids) => "{\n" + (KidsText(node, 0, level + 1) + ("\n" + Indent(level) + "}"))
  }

  /** The elements of a group from number k on. */
  function KidsText(node: Node, k: nat, level: nat): string
    requires (node.NArr? || node.NObj?) && k <= |node.kids|
    decreases node, |node.kids| - k
  {
    if k == |node.kids| then ""
    else FirstComma(k) + (White(node.kids[k], KindOf(node), level, k)
           + (NameText(node.kids[k], KindOf(node)) + (Body(node.kids[k], level) + KidsText(node, k + 1, level))))
  }

  /** An element as number k of its group. */
  function ItemText(node: Node, kind: Kind, level: nat, k: nat): string {
    FirstComma(k) + (White(node, kind, level, k) + (NameText(node, kind) + Body(node, level)))
  }

  lemma KidsTextStep(node: Node, k: nat, level: nat)
    requires (node.NArr? || node.NObj?) && k < |node.kids|
    ensures KidsText(node, k, level) == ItemText(node.kids[k], KindOf(node), level, k) + KidsText(node, k + 1, level)
  {
    hide White, NameText, Body;
    var a, b, c, d, e := FirstComma(k), White(node.kids[k], KindOf(node), level, k),
      NameText(node.kids[k], KindOf(node)),
      Body(node.kids[k], level), KidsText(node, k + 1, level);
    assert a + (b + (c + (d + e))) == (a + (b + (c + d))) + e;
  }

  lemma FrontIsOpening(k: nat, level: nat, name: string)
    ensures Opening(k, level, name) == FirstComma(k) + (((if k > 0 then "\n" else "") + Indent(level)) + name)
    ensures Lead(k, level) == FirstComma(k) + (if k > 0 then " " else Indent(level))
  {
    hide Indent;
  }

  /** The stack after n more elements were counted in the open group. */
  function CountedBy(stack: seq<Element>, n: nat): (r: seq<Element>)
    requires stack != []
    ensures |r| == |stack| && Last(r).kind == Last(stack).kind && Last(r).elems == Last(stack).elems + n
    ensures r[..|stack| - 1] == stack[..|stack| - 1]
  {
    stack[|stack| - 1 := Last(stack).(elems := Last(stack).elems + n)]
  }

  lemma ItemIsEmitted(top: Element, level: nat, node: Node)
    ensures node.NInt? ==> Emit(top, level, IntCall(Key(node.name, top.kind), node.n))
                           == ItemText(node, top.kind, level, top.elems)
    ensures node.NStr? ==> Emit(top, level, StrCall(Key(node.name, top.kind), node.s))
                           == ItemText(node, top.kind, level, top.elems)
  {
    hide Indent, Number, Quoted, Named, NamedEscaped;
    FrontIsOpening(top.elems, level, NameText(node, top.kind));
  }

  lemma GroupIsEmitted(top: Element, level: nat, node: Node)
    requires node.NArr? || node.NObj?
    ensures var open := Emit(top, level, if node.NArr? then ArrayHeader(node.name) else ObjectHeader(node.name));
      var close := Emit(top, level, if node.NArr? then ArrayFooter else ObjectFooter);
      open + (KidsText(node, 0, level + 1) + close) == ItemText(node, top.kind, level, top.elems)
  {
    var name := NameText(node, top.kind);
    var brace := if node.NArr? then "[\n" else "{\n";
    var kids := KidsText(node, 0, level + 1);
    var close := Emit(top, level, if node.NArr? then ArrayFooter else ObjectFooter);
    var open := Emit(top, level, if node.NArr? then ArrayHeader(node.name) else ObjectHeader(node.name));
    FrontIsOpening(top.elems, level, name);
    assert open == Opening(top.elems, level, name) + brace;
    assert Body(node, level) == brace + (kids + close);
    hide *;
    Regroup(FirstComma(top.elems), White(node, top.kind, level, top.elems), name, brace, kids + close);
    WhiteOfGroup(node, top.kind, level, top.elems);
    ItemTextIs(node, top.kind, level, top.elems);
  }

  lemma Regroup(a: string, b: string, c: string, d: string, e: string)
    ensures ((a + (b + c)) + d) + e == a + (b + (c + (d + e)))
  {
  }

  lemma WhiteOfGroup(node: Node, kind: Kind, level: nat, k: nat)
    requires node.NArr? || node.NObj?
    ensures White(node, kind, level, k) == (if k > 0 then "\n" else "") + Indent(level)
  {
  }

  lemma ItemTextIs(node: Node, kind: Kind, level: nat, k: nat)
    ensures ItemText(node, kind, level, k)
        == FirstComma(k) + (White(node, kind, level, k) + (NameText(node, kind) + Body(node, level)))
  {
  }

  lemma RunOne(stack: seq<Element>, call: Call)
    requires Allowed(stack, call)
    ensures Run(stack, [call]) == Outcome(After(stack, call), Printed(stack, call))
  {
    assert Run(After(stack, call), [call][1..]) == Outcome(After(stack, call), "");
  }

  /** The calls for one element print its text and count it in the open group. */
  lemma {:induction false} RunNode(stack: seq<Element>, node: Node)
    requires stack != []
    ensures var top := Last(stack);
      Run(stack, Calls(node, top.kind)) == Outcome(Counted(stack), ItemText(node, top.kind, |stack|, top.elems))
    decreases node, KidCount(node) + 2
  {
    hide Printed, Emit, ItemText, Run;
    var top := Last(stack);
    match node
    case NInt(name, n) =>
      RunOne(stack, IntCall(Key(name, top.kind), n));
      PrintedIs(stack, IntCall(Key(name, top.kind), n));
      ItemIsEmitted(top, |stack|, node);
    case NStr(name, t) =>
      RunOne(stack, StrCall(Key(name, top.kind), t));
      PrintedIs(stack, StrCall(Key(name, top.kind), t));
      ItemIsEmitted(top, |stack|, node);
    case NArr(name, kids) =>
      RunGroup(stack, node, ArrayHeader(name), ArrayFooter);
    case NObj(name, kids) =>
      RunGroup(stack, node, ObjectHeader(name), ObjectFooter);
  }

  lemma PrintedIs(stack: seq<Element>, call: Call)
    requires Allowed(stack, call) && !IsFooter(call)
    ensures Printed(stack, call) == Emit(Last(stack), |stack|, call)
  {
  }

  lemma {:induction false} RunGroup(stack: seq<Element>, node: Node, open: Call, close: Call)
    requires stack != [] && ((node.NArr? && open == ArrayHeader(node.name) && close == ArrayFooter)
                          || (node.NObj? && open == ObjectHeader(node.name) && close == ObjectFooter))
    ensures Run(stack, [open] + (KidCalls(node, 0) + [close]))
         == Outcome(Counted(stack), ItemText(node, Last(stack).kind, |stack|, Last(stack).elems))
    decreases node, KidCount(node) + 1
  {
    hide Run, Emit, Printed, ItemText, KidCalls, KidsText, Counted;
    var inner := After(stack, open);
    RunKids(inner, node, 0);
    RunOne(stack, open);
    var done := CountedBy(inner, |node.kids|);
    RunOne(done, close);
    RunTogether(inner, KidCalls(node, 0), [close]);
    RunTogether(stack, [open], KidCalls(node, 0) + [close]);
    PrintedIs(stack, open);
    FooterIs(stack, done, open, close);
    GroupIsEmitted(Last(stack), |stack|, node);
  }

  lemma FooterIs(stack: seq<Element>, done: seq<Element>, open: Call, close: Call)
    requires stack != [] && (open.ArrayHeader? || open.ObjectHeader?) && IsFooter(close)
    requires |done| == |stack| + 1 && done[..|stack|] == After(stack, open)[..|stack|]
    ensures Allowed(done, close) && After(done, close) == Counted(stack)
    ensures Printed(done, close) == Emit(Last(stack), |stack|, close)
  {
  }

  lemma {:induction false} RunKids(stack: seq<Element>, node: Node, k: nat)
    requires (node.NArr? || node.NObj?) && k <= |node.kids|
    requires stack != [] && Last(stack).kind == KindOf(node) && Last(stack).elems == k
    ensures Run(stack, KidCalls(node, k)) == Outcome(CountedBy(stack, |node.kids| - k), KidsText(node, k, |stack|))
    decreases node, |node.kids| - k
  {
    hide *;
    if k < |node.kids| {
      RunNode(stack, node.kids[k]);
      CountedOnce(stack, |node.kids| - k);
      RunKids(Counted(stack), node, k + 1);
      KidCallsStep(node, k);
      RunTogether(stack, Calls(node.kids[k], KindOf(node)), KidCalls(node, k + 1));
      KidsTextStep(node, k, |stack|);
    } else {
      NoKids(stack, node);
    }
  }

  lemma CountedOnce(stack: seq<Element>, n: nat)
    requires stack != [] && n > 0
    ensures Last(Counted(stack)).kind == Last(stack).kind && Last(Counted(stack)).elems == Last(stack).elems + 1
    ensures CountedBy(Counted(stack), n - 1) == CountedBy(stack, n)
  {
  }

  lemma KidCallsStep(node: Node, k: nat)
    requires (node.NArr? || node.NObj?) && k < |node.kids|
    ensures KidCalls(node, k) == Calls(node.kids[k], KindOf(node)) + KidCalls(node, k + 1)
  {
  }

  lemma NoKids(stack: seq<Element>, node: Node)
    requires (node.NArr? || node.NObj?) && stack != []
    ensures Run(stack, KidCalls(node, |node.kids|))
        == Outcome(CountedBy(stack, 0), KidsText(node, |node.kids|, |stack|))
  {
  }

  /** The whole output for the elements of the root group. */
  function Output(root: Node): string
    requires root.NObj?
  {
    "{" + (KidsText(root, 0, 1) + "}\n")
  }

  lemma RunStep(stack: seq<Element>, calls: seq<Call>, i: nat)
    requires i < |calls| && Run(stack, calls[i..]).Outcome?
    ensures Allowed(stack, calls[i])
    ensures var r, q := Run(stack, calls[i..]), Run(After(stack, calls[i]), calls[i + 1..]);
      q.Outcome? && r.stack == q.stack && r.text == Printed(stack, calls[i]) + q.text
  {
    assert calls[i..][1..] == calls[i + 1..];
  }

  /** Performs the calls of a well-nested sequence one by one. */
  method PerformAll(octx: PrintContext, calls: seq<Call>)
    requires Run(octx.prefix, calls).Outcome?
    modifies octx
    ensures octx.prefix == old(Run(octx.prefix, calls).stack)
    ensures octx.out == old(octx.out + Run(octx.prefix, calls).text)
  {
    hide Run, Printed, After, Allowed;
    ghost var all := Run(octx.prefix, calls);
    assert calls[0..] == calls;
    for i := 0 to |calls|
      invariant var rest := Run(octx.prefix, calls[i..]);
        rest.Outcome? && rest.stack == all.stack && octx.out + rest.text == old(octx.out) + all.text
    {
      RunStep(octx.prefix, calls, i);
      octx.Perform(calls[i]);
    }
    RunNothing(octx.prefix, calls[|calls|..]);
  }

  lemma RunNothing(stack: seq<Element>, calls: seq<Call>)
    requires calls == []
    ensures Run(stack, calls) == Outcome(stack, "")
  {
  }

  /** probe_header, the calls for all elements, probe_footer. */
  method PrintAll(root: Node) returns (out: string)
    requires root.NObj?
    ensures out == Output(root)
  {
    hide Run, KidCalls, KidsText;
    var octx := new PrintContext();
    octx.ProbeHeader();
    RunKids(octx.prefix, root, 0);
    PerformAll(octx, KidCalls(root, 0));
    octx.ProbeFooter();
    out := octx.out;
  }
}
