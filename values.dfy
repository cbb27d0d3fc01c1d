/** Cell values of a table and the parts of Python's semantics on them that
    the modelled code relies on: `==`, `<`, truthiness, `int(...)` and `str(...)`. */
module Values {
  import opened Wrappers

  datatype CalendarDate = CalendarDate(year: int, month: int, day: int)

  /** A timestamp; the time zone is fixed by the loader and is not modelled. */
  datatype DateTime = DateTime(date: CalendarDate, hour: int, minute: int, second: int)

  /** A cell. A reaction map is a dict kept in insertion order. Booleans (the
      scene-end marker) are stored as `VInt(0)` / `VInt(1)`, which is how
      `sum`, `mean`, comparisons and `cumsum` treat them. */
  datatype Value =
    | VNone
    | VInt(i: int)
    | VFloat(r: real)
    | VStr(s: string)
    | VDate(d: CalendarDate)
    | VTime(t: DateTime)
    | VReactions(counts: seq<(string, int)>)
    | VList(items: seq<Value>)

  predicate IsNumeric(v: Value) { v.VInt? || v.VFloat? }

  function Num(v: Value): real
    requires IsNumeric(v)
  {
    if v.VInt? then v.i as real else v.r
  }

  /** Python truthiness: None, zero, and empty strings, lists and dicts are false. */
  predicate Truthy(v: Value) {
    match v
    case VNone => false
    case VInt(i) => i != 0
    case VFloat(r) => r != 0.0
    case VStr(s) => s != ""
    case VDate(_) => true
    case VTime(_) => true
    case VReactions(m) => m != []
    case VList(xs) => xs != []
  }

  /** Python `==`: numbers compare by value whatever their type. */
  predicate PyEq(a: Value, b: Value) {
    if IsNumeric(a) && IsNumeric(b) then Num(a) == Num(b) else a == b
  }

  /** Python `x in xs` for a list. */
  predicate PyIn(x: Value, xs: seq<Value>) {
    exists k :: 0 <= k < |xs| && PyEq(x, xs[k])
  }

  // ---------------------------------------------------------------------
  // Ordering

  /** Lexicographic order on integer sequences (a prefix comes first). */
  predicate LexLeq(a: seq<int>, b: seq<int>)
    decreases |a|
  {
    if |a| == 0 then true
    else if |b| == 0 then false
    else if a[0] != b[0] then a[0] < b[0]
    else LexLeq(a[1..], b[1..])
  }

  lemma {:induction false} LexLeqTotal(a: seq<int>, b: seq<int>)
    ensures LexLeq(a, b) || LexLeq(b, a)
    decreases |a|
  {
    if |a| > 0 && |b| > 0 && a[0] == b[0] {
      LexLeqTotal(a[1..], b[1..]);
    }
  }

  lemma {:induction false} LexLeqTrans(a: seq<int>, b: seq<int>, c: seq<int>)
    requires LexLeq(a, b) && LexLeq(b, c)
    ensures LexLeq(a, c)
    decreases |a|
  {
    if |a| > 0 && |b| > 0 && |c| > 0 && a[0] == b[0] && b[0] == c[0] {
      LexLeqTrans(a[1..], b[1..], c[1..]);
    }
  }

  lemma {:induction false} LexLeqAntisym(a: seq<int>, b: seq<int>)
    requires LexLeq(a, b) && LexLeq(b, a)
    ensures a == b
    decreases |a|
  {
    if |a| > 0 && |b| > 0 {
      LexLeqAntisym(a[1..], b[1..]);
      assert a == [a[0]] + a[1..];
      assert b == [b[0]] + b[1..];
    }
  }

  function Codes(s: string): (r: seq<int>)
    ensures |r| == |s|
    ensures forall k :: 0 <= k < |s| ==> r[k] == s[k] as int
  {
    seq(|s|, k requires 0 <= k < |s| => s[k] as int)
  }

  function DateKey(d: CalendarDate): seq<int> { [d.year, d.month, d.day] }

  function TimeKey(t: DateTime): seq<int> {
    [t.date.year, t.date.month, t.date.day, t.hour, t.minute, t.second]
  }

  /** Sort classes: values Python can order against each other share a rank. */
  function Rank(v: Value): nat {
    match v
    case VInt(_) => 0
    case VFloat(_) => 0
    case VStr(_) => 1
    case VDate(_) => 2
    case VTime(_) => 3
    case _ => 4
  }

  /** Python can evaluate `a < b` without raising. */
  predicate Comparable(a: Value, b: Value) {
    Rank(a) == Rank(b) && Rank(a) < 4
  }

  /** The order sorting and grouping use: a total preorder on all values
      that agrees with Python's `<=` on every pair of comparable values. */
  predicate Leq(a: Value, b: Value) {
    if Rank(a) != Rank(b) then Rank(a) < Rank(b)
    else match a
      case VInt(_) => Num(a) <= Num(b)
      case VFloat(_) => Num(a) <= Num(b)
      case VStr(s) => LexLeq(Codes(s), Codes(b.s))
      case VDate(d) => LexLeq(DateKey(d), DateKey(b.d))
      case VTime(t) => LexLeq(TimeKey(t), TimeKey(b.t))
      case _ => true
  }

  lemma LeqTotal(a: Value, b: Value)
    ensures Leq(a, b) || Leq(b, a)
  {
    if Rank(a) == Rank(b) {
      match a
      case VStr(s) => LexLeqTotal(Codes(s), Codes(b.s));
      case VDate(d) => LexLeqTotal(DateKey(d), DateKey(b.d));
      case VTime(t) => LexLeqTotal(TimeKey(t), TimeKey(b.t));
      case _ =>
    }
  }

  lemma LeqTrans(a: Value, b: Value, c: Value)
    requires Leq(a, b) && Leq(b, c)
    ensures Leq(a, c)
  {
    if Rank(a) == Rank(b) == Rank(c) {
      match a
      case VStr(s) => LexLeqTrans(Codes(s), Codes(b.s), Codes(c.s));
      case VDate(d) => LexLeqTrans(DateKey(d), DateKey(b.d), DateKey(c.d));
      case VTime(t) => LexLeqTrans(TimeKey(t), TimeKey(b.t), TimeKey(c.t));
      case _ =>
    }
  }

  lemma LeqRefl(a: Value)
    ensures Leq(a, a)
  {
    LeqTotal(a, a);
  }

  /** Python `a < b`; a TypeError when the two cannot be ordered. */
  function Less(a: Value, b: Value): (r: Result<bool>)
    ensures r.Err? <==> !Comparable(a, b)
    ensures r.Ok? ==> (r.value <==> !Leq(b, a))
  {
    if !Comparable(a, b) then Err(TypeError)
    else match a
      case VInt(_) => Ok(Num(a) < Num(b))
      case VFloat(_) => Ok(Num(a) < Num(b))
      case VStr(s) => Ok(!LexLeq(Codes(b.s), Codes(s)))
      case VDate(d) => Ok(!LexLeq(DateKey(b.d), DateKey(d)))
      case VTime(t) => Ok(!LexLeq(TimeKey(b.t), TimeKey(t)))
  }

  /** Python `a <= b`. */
  function LessEq(a: Value, b: Value): (r: Result<bool>)
    ensures r.Err? <==> !Comparable(a, b)
    ensures r.Ok? ==> (r.value <==> Leq(a, b))
  {
    if !Comparable(a, b) then Err(TypeError)
    else Ok(Leq(a, b))
  }

  // ---------------------------------------------------------------------
  // int(...) and str(...)

  function Digit(d: nat): char
    requires d < 10
  {
    "0123456789"[d]
  }

  predicate IsDigit(c: char) { '0' <= c <= '9' }

  function DigitValue(c: char): nat
    requires IsDigit(c)
  {
    (c as int - '0' as int) as nat
  }

  /** Decimal digits of a natural number, as `str` writes them. */
  function NatText(n: nat): (r: string)
    ensures |r| > 0
    ensures forall k :: 0 <= k < |r| ==> IsDigit(r[k])
    decreases n
  {
    if n < 10 then [Digit(n)] else NatText(n / 10) + [Digit(n % 10)]
  }

  function IntText(i: int): string {
    if i < 0 then "-" + NatText(-i) else NatText(i)
  }

  /** The value of a non-empty run of decimal digits. */
  function DigitsValue(s: string): nat
    requires forall k :: 0 <= k < |s| ==> IsDigit(s[k])
    decreases |s|
  {
    if |s| == 0 then 0 else DigitsValue(s[..|s| - 1]) * 10 + DigitValue(s[|s| - 1])
  }

  predicate AllDigits(s: string) {
    |s| > 0 && forall k :: 0 <= k < |s| ==> IsDigit(s[k])
  }

  /** Python `int(s)` for a string: an optional sign followed by ASCII
      digits. Python also accepts surrounding whitespace, `_` between digits
      and non-ASCII decimal digits; this model rejects those strings. */
  function ParseInt(s: string): Result<int> {
    if |s| > 0 && (s[0] == '-' || s[0] == '+') && AllDigits(s[1..]) then
      Ok(if s[0] == '-' then -(DigitsValue(s[1..]) as int) else DigitsValue(s[1..]))
    else if AllDigits(s) then Ok(DigitsValue(s))
    else Err(ValueError("invalid literal for int()"))
  }

  /** Python `int(v)`: floats are truncated toward zero; strings are read
      by `ParseInt`, so padded or `_`-separated numerals are rejected. */
  function PyInt(v: Value): Result<int> {
    match v
    case VInt(i) => Ok(i)
    case VFloat(r) => Ok(if r >= 0.0 then r.Floor else -((-r).Floor))
    case VStr(s) => ParseInt(s)
    case _ => Err(TypeError)
  }

  lemma {:induction false} NatTextRoundTrip(n: nat)
    ensures DigitsValue(NatText(n)) == n
    decreases n
  {
    if n >= 10 {
      NatTextRoundTrip(n / 10);
      var t := NatText(n);
      assert t[..|t| - 1] == NatText(n / 10);
    }
  }

  /** `int(str(i)) == i` for every integer. */
  lemma IntTextRoundTrip(i: int)
    ensures PyInt(VStr(IntText(i))) == Ok(i)
  {
    var t := NatText(if i < 0 then -i else i);
    NatTextRoundTrip(if i < 0 then -i else i);
    PyIntText(IntText(i));
    if i < 0 {
      assert IntText(i) == "-" + t;
      ParseNegative(t);
    } else {
      assert IntText(i) == t;
      ParseDigits(t);
    }
  }

  lemma PyIntText(s: string)
    ensures PyInt(VStr(s)) == ParseInt(s)
  {
  }

  lemma ParseNegative(t: string)
    requires AllDigits(t)
    ensures ParseInt("-" + t) == Ok(-(DigitsValue(t) as int))
  {
    assert ("-" + t)[1..] == t;
  }

  lemma ParseDigits(t: string)
    requires AllDigits(t)
    ensures ParseInt(t) == Ok(DigitsValue(t))
  {
    assert IsDigit(t[0]);
  }

  /** A natural number written with at least `width` digits (leading zeros). */
  function Padded(n: nat, width: nat): (r: string)
    ensures |r| >= width
  {
    var t := NatText(n);
    if |t| >= width then t else seq(width - |t|, _ => '0') + t
  }

  function DateText(d: CalendarDate): string {
    IntText(d.year) + "-" + (if d.month >= 0 then Padded(d.month, 2) else IntText(d.month))
    + "-" + (if d.day >= 0 then Padded(d.day, 2) else IntText(d.day))
  }

  function Join(sep: string, parts: seq<string>): string
    decreases |parts|
  {
    if |parts| == 0 then ""
    else if |parts| == 1 then parts[0]
    else parts[0] + sep + Join(sep, parts[1..])
  }

  lemma JoinTwo(sep: string, p: string, q: string)
    ensures Join(sep, [p, q]) == p + sep + q
  {
    assert [p, q][1..] == [q];
  }

  /** Python `repr` of a list element: strings are quoted. */
  function ReprText(v: Value): string
    decreases v, 1
  {
    if v.VStr? then "'" + v.s + "'" else Show(v)
  }

  /** Python `str(v)` as an f-string renders it. Exact for None, integers,
      strings, dates, timestamps and lists of these, and for integral floats
      ("3.0"). A non-integral float renders as the placeholder "<float>" and
      a reaction dict as "{...}": neither text is Python's. */
  function Show(v: Value): string
    decreases v, 0
  {
    match v
    case VNone => "None"
    case VInt(i) => IntText(i)
    case VFloat(r) => if r == r.Floor as real then IntText(r.Floor) + ".0" else "<float>"
    case VStr(s) => s
    case VDate(d) => DateText(d)
    case VTime(t) =>
      DateText(t.date) + " " + Padded(if t.hour < 0 then 0 else t.hour, 2) + ":"
      + Padded(if t.minute < 0 then 0 else t.minute, 2) + ":"
      + Padded(if t.second < 0 then 0 else t.second, 2)
    case VReactions(_) => "{...}"
    case VList(xs) => "[" + Join(", ", seq(|xs|, k requires 0 <= k < |xs| => ReprText(xs[k]))) + "]"
  }
}
