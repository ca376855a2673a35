/** The JavaScript values the views handle (what JSON.parse can produce, plus undefined),
    and the few language operations they apply to them: truthiness, `||`, property
    reads with `?.`, template-literal conversion to text and parseInt. */
module JsValues {
  import opened Wrappers
  import opened Numerals

  /** Numbers are integers: the views only see counts, months, keys and lengths. */
  datatype JsValue =
    | Undefined
    | Null
    | Bool(b: bool)
    | Num(n: int)
    | Str(s: string)
    | Array(items: seq<JsValue>)
    | Object(fields: map<string, JsValue>)

  predicate IsNullish(v: JsValue) {
    v.Undefined? || v.Null?
  }

  /** JavaScript truthiness: undefined, null, false, 0 and "" are falsy. */
  predicate Truthy(v: JsValue) {
    match v
    case Undefined => false
    case Null => false
    case Bool(b) => b
    case Num(n) => n != 0
    case Str(s) => s != ""
    case Array(_) => true
    case Object(_) => true
  }

  /** Truthiness of a state value that holds a string or null (an error message). */
  predicate TruthyText(t: Option<string>) {
    t.Some? && t.value != ""
  }

  /** `a || b`: the left operand when it is truthy, otherwise the right one. */
  function Or(a: JsValue, b: JsValue): (r: JsValue)
    ensures Truthy(a) ==> r == a
    ensures !Truthy(a) ==> r == b
  {
    if Truthy(a) then a else b
  }

  /** `v?.k`: the own property k of an object, undefined for any other value
      (on null and undefined this is the short-circuit of optional chaining;
      the built-in properties such as `length` of strings and arrays are not modelled). */
  function Prop(v: JsValue, k: string): (r: JsValue)
    ensures v.Object? && k in v.fields ==> r == v.fields[k]
    ensures !(v.Object? && k in v.fields) ==> r == Undefined
  {
    if v.Object? && k in v.fields then v.fields[k] else Undefined
  }

  /** `v?.outer?.inner`. */
  function Nested(v: JsValue, outer: string, inner: string): JsValue {
    Prop(Prop(v, outer), inner)
  }

  function Join(parts: seq<string>, sep: string): string {
    if parts == [] then ""
    else if |parts| == 1 then parts[0]
    else parts[0] + sep + Join(parts[1..], sep)
  }

  /** String(v), which is what `${v}` in a template literal produces. Inside an array
      (Array.prototype.join) null and undefined become the empty string. */
  function ToText(v: JsValue): (s: string)
    ensures v.Str? ==> s == v.s
    ensures v.Num? ==> s == IntToText(v.n)
  {
    match v
    case Undefined => "undefined"
    case Null => "null"
    case Bool(b) => if b then "true" else "false"
    case Num(n) => IntToText(n)
    case Str(s) => s
    case Array(items) =>
      Join(seq(|items|, i requires 0 <= i < |items| =>
        if IsNullish(items[i]) then "" else ToText(items[i])), ",")
    case Object(_) => "[object Object]"
  }

  /** `${x || 0}`. */
  function CountText(x: JsValue): string {
    ToText(Or(x, Num(0)))
  }

  /** A missing (falsy) count is shown as 0. */
  lemma CountTextOfFalsy(x: JsValue)
    requires !Truthy(x)
    ensures CountText(x) == "0"
  {
    assert IntToText(0) == "0";
  }

  /** A number count is shown as its decimal text, 0 included. */
  lemma CountTextOfNumber(n: int)
    ensures CountText(Num(n)) == IntToText(n)
  {
    if n == 0 {
      assert IntToText(0) == "0";
    }
  }

  /** The characters JavaScript's StrWhiteSpaceChar covers: white space and line terminators. */
  predicate IsJsWhiteSpace(ch: char) {
    ch == ' ' || ch == '\t' || ch == '\n' || ch == '\r' || ch == '\U{000B}' || ch == '\U{000C}'
    || ch == '\U{00A0}' || ch == '\U{1680}' || ('\U{2000}' <= ch <= '\U{200A}')
    || ch == '\U{2028}' || ch == '\U{2029}' || ch == '\U{202F}' || ch == '\U{205F}'
    || ch == '\U{3000}' || ch == '\U{FEFF}'
  }

  function TrimStart(s: string): (t: string)
    ensures |t| <= |s| && t == s[|s| - |t|..]
    ensures t != [] ==> !IsJsWhiteSpace(t[0])
    ensures s != [] && !IsJsWhiteSpace(s[0]) ==> t == s
  {
    if s != [] && IsJsWhiteSpace(s[0]) then TrimStart(s[1..]) else s
  }

  /** parseInt(s) with no radix argument: leading white space is skipped, an optional
      sign is read, and the rest is read by ParseMagnitude; no digit at all gives NaN (None). */
  function ParseInt(s: string): Option<int> {
    ParseSigned(TrimStart(s))
  }

  /** An optional sign, then the magnitude. */
  function ParseSigned(t: string): Option<int> {
    var negative := t != [] && t[0] == '-';
    var u := if t != [] && (t[0] == '-' || t[0] == '+') then t[1..] else t;
    match ParseMagnitude(u)
    case None => None
    case Some(m) => Some(if negative then -(m as int) else m as int)
  }


  /** The unsigned part of parseInt: a "0x" or "0X" prefix selects radix 16 (otherwise
      radix 10), and the longest run of digits that follows is the value. */
  function ParseMagnitude(u: string): Option<nat> {
    var hex := |u| >= 2 && u[0] == '0' && (u[1] == 'x' || u[1] == 'X');
    var radix := if hex then 16 else 10;
    var digits := if hex then u[2..] else u;
    var n := DigitPrefixLength(digits, radix);
    if n == 0 then None else Some(ValueIn(digits[..n], radix))
  }

  lemma ParseMagnitudeOfDecimal(m: nat)
    ensures ParseMagnitude(NatToText(m)) == Some(m)
  {
    var digits := NatToText(m);
    assert |digits| >= 2 ==> IsDigitIn(digits[1], 10);
    DigitPrefixOfDigits(digits, 10);
    assert digits[..|digits|] == digits;
  }

  /** Without leading white space, parseInt is the sign followed by ParseMagnitude. */
  lemma ParseIntUnspaced(t: string)
    requires t != [] && !IsJsWhiteSpace(t[0])
    ensures t[0] == '-' ==> ParseInt(t) == (match ParseMagnitude(t[1..]) case None => None case Some(m) => Some(-(m as int)))
    ensures t[0] != '-' && t[0] != '+' ==> ParseInt(t) == (match ParseMagnitude(t) case None => None case Some(m) => Some(m as int))
  {
    assert TrimStart(t) == t;
  }

  /** parseInt reads back the decimal text of every integer. */
  lemma ParseIntOfDecimal(i: int)
    ensures ParseInt(IntToText(i)) == Some(i)
  {
    if i < 0 {
      ParseIntOfNegative(i);
    } else {
      ParseIntOfNatural(i);
    }
  }

  lemma ParseIntOfNatural(i: int)
    requires i >= 0
    ensures ParseInt(IntToText(i)) == Some(i)
  {
    var digits := NatToText(i);
    ParseMagnitudeOfDecimal(i);
    assert IsDigitIn(digits[0], 10);
    assert '0' <= digits[0] <= '9';
    ParseIntUnspaced(digits);
  }

  lemma ParseIntOfNegative(i: int)
    requires i < 0
    ensures ParseInt(IntToText(i)) == Some(i)
  {
    NegativeText(i);
    ParseIntOfMinus(IntToText(i), NatToText(-i));
    ParseMagnitudeOfDecimal(-i);
  }

  /** The text of a negative integer is a minus sign, which trimming keeps, and digits. */
  lemma NegativeText(i: int)
    requires i < 0
    ensures IntToText(i) != [] && IntToText(i)[0] == '-'
    ensures IntToText(i)[1..] == NatToText(-i)
    ensures TrimStart(IntToText(i)) == IntToText(i)
  {
    assert IntToText(i)[0] == '-';
  }

  /** A leading minus sign negates the magnitude that follows it. */
  lemma ParseIntOfMinus(t: string, u: string)
    requires t != [] && t[0] == '-' && t[1..] == u && TrimStart(t) == t
    ensures ParseInt(t) == (match ParseMagnitude(u) case None => None case Some(m) => Some(-(m as int)))
  {
  }

  /** The text of a falsy value reads as NaN, or as 0 for the number 0. */
  lemma ParseIntOfFalsy(v: JsValue)
    requires !Truthy(v)
    ensures ParseInt(ToText(v)) == None || ParseInt(ToText(v)) == Some(0)
  {
    match v
    case Num(n) => ParseIntOfZero(v);
    case Str(s) => ParseIntOfEmpty(s);
    case _ => ParseIntOfKeyword(v);
  }

  /** The number 0 reads back as 0. */
  lemma ParseIntOfZero(v: JsValue)
    requires v == Num(0)
    ensures ParseInt(ToText(v)) == Some(0)
  {
    ParseIntOfDecimal(v.n);
  }

  /** The empty string has no digits, so it reads as NaN. */
  lemma ParseIntOfEmpty(t: string)
    requires |t| == 0
    ensures ParseInt(t) == None
  {
    assert TrimStart(t) == t;
    assert DigitPrefixLength(t, 10) == 0;
  }

  /** "undefined", "null" and "false" start with a letter, so they read as NaN. */
  lemma ParseIntOfKeyword(v: JsValue)
    requires v.Undefined? || v.Null? || v == Bool(false)
    ensures ParseInt(ToText(v)) == None
  {
    var t := ToText(v);
    assert t[0] == 'u' || t[0] == 'n' || t[0] == 'f';
    ParseIntOfNonDigit(t);
  }

  /** Text that starts with neither white space, a sign nor a decimal digit is NaN. */
  lemma ParseIntOfNonDigit(t: string)
    requires t != [] && !IsJsWhiteSpace(t[0]) && t[0] != '-' && t[0] != '+'
    requires !IsDigitIn(t[0], 10)
    ensures ParseInt(t) == None
  {
    ParseIntUnspaced(t);
    assert t[0] != '0';
  }

  /** What React renders for a child: null, undefined and booleans render nothing,
      numbers and strings render as text, arrays render their elements in order; a
      plain object is not a valid child and makes rendering fail (None). */
  function ChildText(c: JsValue): Option<string> {
    match c
    case Undefined => Some("")
    case Null => Some("")
    case Bool(_) => Some("")
    case Num(n) => Some(IntToText(n))
    case Str(s) => Some(s)
    case Array(items) => ConcatAll(seq(|items|, i requires 0 <= i < |items| => ChildText(items[i])))
    case Object(_) => None
  }

  function ConcatAll(parts: seq<Option<string>>): Option<string> {
    if parts == [] then Some("")
    else if parts[0].None? then None
    else
      var rest := ConcatAll(parts[1..]);
      if rest.None? then None else Some(parts[0].value + rest.value)
  }

  /** The text of a sequence of sibling children. */
  function ChildrenText(cs: seq<JsValue>): (r: Option<string>)
    ensures r.Some? <==> forall i :: 0 <= i < |cs| ==> ChildText(cs[i]).Some?
  {
    if cs == [] then Some("")
    else
      var rest := ChildrenText(cs[1..]);
      assert forall i :: 1 <= i < |cs| ==> cs[1..][i - 1] == cs[i];
      if ChildText(cs[0]).None? || rest.None? then None
      else Some(ChildText(cs[0]).value + rest.value)
  }

  /** The text of one child on its own. */
  lemma ChildrenTextOfOne(c: JsValue)
    ensures ChildrenText([c]) == ChildText(c)
  {
    assert [c][1..] == [];
    if ChildText(c).Some? {
      assert ChildText(c).value + "" == ChildText(c).value;
    }
  }

  /** Rendering two runs of siblings one after the other gives the two texts one after
      the other, and fails when either fails. */
  lemma {:induction false} ChildrenTextConcat(a: seq<JsValue>, b: seq<JsValue>)
    ensures ChildrenText(a + b) ==
      (if ChildrenText(a).Some? && ChildrenText(b).Some? then Some(ChildrenText(a).value + ChildrenText(b).value) else None)
    decreases |a|
  {
    if a == [] {
      assert a + b == b;
      if ChildrenText(b).Some? {
        assert "" + ChildrenText(b).value == ChildrenText(b).value;
      }
    } else {
      assert (a + b)[0] == a[0];
      assert (a + b)[1..] == a[1..] + b;
      ChildrenTextConcat(a[1..], b);
      if ChildText(a[0]).Some? && ChildrenText(a[1..]).Some? && ChildrenText(b).Some? {
        var x, y, z := ChildText(a[0]).value, ChildrenText(a[1..]).value, ChildrenText(b).value;
        assert x + (y + z) == (x + y) + z;
      }
    }
  }

  /** The text of three siblings, each of which renders. */
  lemma ChildrenTextOfThree(a: JsValue, b: JsValue, c: JsValue)
    requires ChildText(a).Some? && ChildText(b).Some? && ChildText(c).Some?
    ensures ChildrenText([a, b, c]) == Some(ChildText(a).value + ChildText(b).value + ChildText(c).value)
  {
    assert [a, b, c] == [a] + [b] + [c];
    ChildrenTextOfOne(a);
    ChildrenTextOfOne(b);
    ChildrenTextOfOne(c);
    ChildrenTextConcat([a], [b]);
    ChildrenTextConcat([a] + [b], [c]);
  }

  /** The text of two siblings, each of which renders. */
  lemma ChildrenTextOfTwo(a: JsValue, b: JsValue)
    requires ChildText(a).Some? && ChildText(b).Some?
    ensures ChildrenText([a, b]) == Some(ChildText(a).value + ChildText(b).value)
  {
    assert [a, b] == [a] + [b];
    ChildrenTextOfOne(a);
    ChildrenTextOfOne(b);
    ChildrenTextConcat([a], [b]);
  }

  /** A metric card as rendered: a title, the children of its value line, and the
      children of its subtitle line when one is shown. */
  datatype Card = Card(title: string, value: seq<JsValue>, subtitle: Option<seq<JsValue>>)

  /** The `MetricCard` component of the dashboard and of the card-based customer picker:
      the subtitle line is rendered only when the subtitle property is truthy. */
  function MetricCard(title: string, value: JsValue, subtitle: JsValue): (c: Card)
    ensures c.title == title && c.value == [value]
    ensures c.subtitle.Some? <==> Truthy(subtitle)
    ensures c.subtitle.Some? ==> c.subtitle.value == [subtitle]
  {
    Card(title, [value], if Truthy(subtitle) then Some([subtitle]) else None)
  }
}
