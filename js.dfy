/**
 * The slice of JavaScript that the console's logic relies on: numbers as they
 * come out of `parseInt` and `valueAsNumber`, their `toString`, string
 * comparison with `<`, values of the JSON bodies, snackbar notifications, and
 * Array.prototype.sort with a comparator.
 */
module Js {
  import opened Wrappers

  // ---------------------------------------------------------------- numbers

  /** A JavaScript number: NaN or an integer (the only numbers these forms produce). */
  datatype JsNumber = NaN | Num(n: int)

  /** The decimal digit character for `d`. */
  function DigitChar(d: nat): char
    requires d < 10
  {
    "0123456789"[d]
  }

  /** The decimal text of a natural number, most significant digit first, without leading zeros. */
  function NatToDecimal(n: nat): (s: string)
    ensures |s| > 0
    ensures forall i | 0 <= i < |s| :: '0' <= s[i] <= '9'
  {
    if n < 10 then [DigitChar(n)] else NatToDecimal(n / 10) + [DigitChar(n % 10)]
  }

  /** Number.prototype.toString() for the numbers modelled here. */
  function NumberToString(x: JsNumber): (s: string)
    ensures |s| > 0
    ensures s == "NaN" <==> x.NaN?
    ensures x.Num? ==> (s[0] == '-' <==> x.n < 0)
  {
    match x
    case NaN => "NaN"
    case Num(n) =>
      var digits := if n < 0 then NatToDecimal(-n) else NatToDecimal(n);
      assert '0' <= digits[0] <= '9';
      assert ("-" + digits)[0] == '-';
      if n < 0 then "-" + digits else digits
  }

  /** The white space that parseInt skips: the ASCII spaces, NBSP, BOM and the two Unicode line separators. */
  predicate IsWhiteSpace(c: char)
  {
    c == ' ' || c == '\t' || c == '\n' || c == '\U{000B}' || c == '\U{000C}' || c == '\r'
    || c == '\U{00A0}' || c == '\U{FEFF}' || c == '\U{2028}' || c == '\U{2029}'
  }

  /** The string without its leading white space. */
  function TrimStart(s: string): (t: string)
    ensures |t| <= |s| && t == s[|s| - |t|..]
    ensures |t| > 0 ==> !IsWhiteSpace(t[0])
  {
    if |s| > 0 && IsWhiteSpace(s[0]) then TrimStart(s[1..]) else s
  }

  /** The value of `c` as a digit in `radix` (10 or 16), if it is one. */
  function DigitValue(c: char, radix: nat): (d: Option<nat>)
    ensures d.Some? ==> d.value < radix
  {
    if '0' <= c <= '9' && (c as int - '0' as int) < radix then Some(c as int - '0' as int)
    else if 'a' <= c <= 'z' && 10 + (c as int - 'a' as int) < radix then Some(10 + (c as int - 'a' as int))
    else if 'A' <= c <= 'Z' && 10 + (c as int - 'A' as int) < radix then Some(10 + (c as int - 'A' as int))
    else None
  }

  /** The values of the longest prefix of `s` made of digits in `radix`. */
  function DigitPrefix(s: string, radix: nat): (ds: seq<nat>)
    ensures |ds| <= |s|
    ensures forall i | 0 <= i < |ds| :: DigitValue(s[i], radix) == Some(ds[i])
    ensures |ds| < |s| ==> DigitValue(s[|ds|], radix).None?
  {
    if |s| == 0 || DigitValue(s[0], radix).None? then []
    else [DigitValue(s[0], radix).value] + DigitPrefix(s[1..], radix)
  }

  /** The number that a digit sequence denotes in `radix`. */
  function ValueOf(ds: seq<nat>, radix: nat): nat
  {
    if |ds| == 0 then 0 else ValueOf(ds[..|ds| - 1], radix) * radix + ds[|ds| - 1]
  }

  /** The magnitude after the sign: a "0x"/"0X" prefix selects hexadecimal; None when no digit follows. */
  function ParseMagnitude(u: string): (r: Option<nat>)
  {
    var hex := |u| >= 2 && u[0] == '0' && (u[1] == 'x' || u[1] == 'X');
    var radix := if hex then 16 else 10;
    var ds := DigitPrefix(if hex then u[2..] else u, radix);
    if |ds| == 0 then None else Some(ValueOf(ds, radix))
  }

  /**
   * parseInt(s) without a radix: leading white space is skipped, then an
   * optional sign, then the magnitude; no digits at all is NaN.
   */
  function ParseInt(s: string): (x: JsNumber)
    ensures |TrimStart(s)| == 0 ==> x == NaN
    ensures x.Num? && x.n < 0 ==> TrimStart(s)[0] == '-'
  {
    var t := TrimStart(s);
    var negative := |t| > 0 && t[0] == '-';
    var magnitude := ParseMagnitude(if |t| > 0 && (t[0] == '-' || t[0] == '+') then t[1..] else t);
    if magnitude.None? then NaN
    else if negative then Num(-(magnitude.value as int))
    else Num(magnitude.value)
  }

  /** The decimal digits of a natural number, most significant first. */
  function Digits(n: nat): (ds: seq<nat>)
    ensures |ds| > 0
  {
    if n < 10 then [n] else Digits(n / 10) + [n % 10]
  }

  /** NatToDecimal writes exactly the characters of Digits. */
  lemma {:induction false} NatToDecimalDigits(n: nat)
    ensures |NatToDecimal(n)| == |Digits(n)|
    ensures forall i | 0 <= i < |Digits(n)| :: DigitValue(NatToDecimal(n)[i], 10) == Some(Digits(n)[i])
  {
    if n >= 10 {
      NatToDecimalDigits(n / 10);
    }
  }

  /** The digits of n denote n. */
  lemma {:induction false} DigitsValue(n: nat)
    ensures ValueOf(Digits(n), 10) == n
  {
    if n >= 10 {
      DigitsValue(n / 10);
      assert Digits(n)[..|Digits(n)| - 1] == Digits(n / 10);
    }
  }

  /** A string made only of digits is its own digit prefix. */
  lemma {:induction false} DigitPrefixWhole(s: string, ds: seq<nat>, radix: nat)
    requires |s| == |ds|
    requires forall i | 0 <= i < |s| :: DigitValue(s[i], radix) == Some(ds[i])
    ensures DigitPrefix(s, radix) == ds
  {
    if |s| > 0 {
      DigitPrefixWhole(s[1..], ds[1..], radix);
    }
  }

  /** A text that starts with a digit or a sign has no white space to skip. */
  lemma TrimStartSignOrDigit(d: string)
    requires |d| > 0 && ('0' <= d[0] <= '9' || d[0] == '-')
    ensures TrimStart(d) == d
  {
    assert !IsWhiteSpace(d[0]);
  }

  /** A text that starts with a decimal digit but not with a "0x"/"0X" prefix. */
  predicate StartsDecimal(d: string)
  {
    |d| > 0 && '0' <= d[0] <= '9' && !(|d| >= 2 && d[0] == '0' && (d[1] == 'x' || d[1] == 'X'))
  }

  /** The number that the leading decimal digits of a text denote. */
  function LeadingDecimal(d: string): nat
  {
    ValueOf(DigitPrefix(d, 10), 10)
  }

  /** parseInt reads the leading decimal digits of such a text and ignores whatever follows them. */
  lemma ParseIntUnsigned(d: string)
    requires StartsDecimal(d)
    ensures ParseInt(d) == Num(LeadingDecimal(d))
  {
    TrimStartSignOrDigit(d);
    assert DigitValue(d[0], 10).Some?;
  }

  /** A minus sign before such a text gives the negation of its leading decimal digits. */
  lemma ParseIntNegative(d: string)
    requires StartsDecimal(d)
    ensures ParseInt("-" + d) == Num(-(LeadingDecimal(d) as int))
  {
    var m := "-" + d;
    assert m[0] == '-' && m[1..] == d;
    TrimStartSignOrDigit(m);
    assert TrimStart(m) == m;
    assert DigitValue(d[0], 10).Some?;
    var magnitude := ParseMagnitude(m[1..]);
    assert magnitude == Some(LeadingDecimal(d));
    assert ParseInt(m) == if magnitude.None? then NaN else Num(-(magnitude.value as int));
  }

  /** The decimal text of a natural number starts with a digit and denotes that number. */
  lemma NatToDecimalDenotes(m: nat)
    ensures StartsDecimal(NatToDecimal(m))
    ensures LeadingDecimal(NatToDecimal(m)) == m
  {
    var digits := NatToDecimal(m);
    NatToDecimalDigits(m);
    DigitPrefixWhole(digits, Digits(m), 10);
    DigitsValue(m);
    assert '0' <= digits[0] <= '9';
    assert |digits| >= 2 ==> '0' <= digits[1] <= '9';
  }

  /** parseInt reads back what toString wrote, for every integer. */
  lemma ParseIntNumberToString(n: int)
    ensures ParseInt(NumberToString(Num(n))) == Num(n)
  {
    if n < 0 {
      var m: nat := -n;
      var t := "-" + NatToDecimal(m);
      assert NumberToString(Num(n)) == t;
      NegativeReadsBack(m);
      assert ParseInt(t) == Num(n);
    } else {
      NatToDecimalDenotes(n);
      ParseIntUnsigned(NatToDecimal(n));
    }
  }

  /** The text of a negative number reads back as that number. */
  lemma NegativeReadsBack(m: nat)
    ensures ParseInt("-" + NatToDecimal(m)) == Num(-(m as int))
  {
    NatToDecimalDenotes(m);
    ParseIntNegative(NatToDecimal(m));
  }

  /** parseInt of "NaN" is NaN, whose text is "NaN" again. */
  lemma ParseIntNaN()
    ensures ParseInt("NaN") == NaN
    ensures NumberToString(ParseInt("NaN")) == "NaN"
  {
    assert DigitValue('N', 10).None?;
  }

  // ---------------------------------------------------------------- strings

  /** `a < b` on strings: lexicographic order of the characters (code points). */
  predicate StringLess(a: string, b: string)
  {
    if |a| == 0 then |b| > 0
    else if |b| == 0 then false
    else if a[0] < b[0] then true
    else if a[0] > b[0] then false
    else StringLess(a[1..], b[1..])
  }

  /** `<` on strings never holds both ways. */
  lemma {:induction false} StringLessAsymmetric(a: string, b: string)
    ensures !(StringLess(a, b) && StringLess(b, a))
  {
    if |a| > 0 && |b| > 0 && a[0] == b[0] {
      StringLessAsymmetric(a[1..], b[1..]);
    }
  }

  /** Two different strings are ordered one way or the other. */
  lemma {:induction false} StringLessTotal(a: string, b: string)
    ensures a == b || StringLess(a, b) || StringLess(b, a)
  {
    if |a| > 0 && |b| > 0 && a[0] == b[0] {
      StringLessTotal(a[1..], b[1..]);
      if a[1..] == b[1..] {
        assert a == [a[0]] + a[1..] && b == [b[0]] + b[1..];
      }
    }
  }

  /** `<` on strings is transitive. */
  lemma {:induction false} StringLessTransitive(a: string, b: string, c: string)
    requires StringLess(a, b) && StringLess(b, c)
    ensures StringLess(a, c)
  {
    if |a| > 0 && |b| > 0 && |c| > 0 && a[0] == b[0] && b[0] == c[0] {
      StringLessTransitive(a[1..], b[1..], c[1..]);
    }
  }

  // ---------------------------------------------------------------- values and notifications

  /** A value of a parsed JSON body, or of a form field. */
  datatype JsValue =
    | JsUndefined
    | JsBool(b: bool)
    | JsNum(x: JsNumber)
    | JsStr(s: string)
    | JsArr(items: seq<JsValue>)
    | JsObj(fields: map<string, JsValue>)

  type JsObject = map<string, JsValue>

  /** The notistack variants the console uses. */
  datatype Variant = Success | Error | Warning | Info

  /** One `enqueueSnackbar(message, { variant })` call. */
  datatype Notification = Notification(message: string, variant: Variant)

  /**
   * How an awaited `fetch(...)` settles: a response with its status and the
   * outcome of `response.json()` (the body, or the message it rejects with),
   * or a rejection of the fetch itself with its error message.
   */
  datatype FetchOutcome<T> = Response(status: int, body: Result<T, string>) | Rejected(message: string)

  /** `error.message || "Unknown error"`: an empty message is replaced. */
  function MessageOrUnknown(message: string): (m: string)
    ensures m != ""
    ensures message != "" ==> m == message
    ensures message == "" ==> m == "Unknown error"
  {
    if message != "" then message else "Unknown error"
  }

  /** `"Invalid status code: " + response.status`. */
  function InvalidStatusCode(status: int): string
  {
    "Invalid status code: " + NumberToString(Num(status))
  }

  // ---------------------------------------------------------------- Array.prototype.sort

  /** `cmp(a, b) <= 0` puts `a` first; every pair can be ordered. */
  ghost predicate Total<T(!new)>(cmp: (T, T) -> int)
  {
    forall a: T, b: T :: cmp(a, b) <= 0 || cmp(b, a) <= 0
  }

  /** Each element may precede the next one. */
  predicate SortedBy<T>(s: seq<T>, cmp: (T, T) -> int)
  {
    forall i | 0 <= i < |s| - 1 :: cmp(s[i], s[i + 1]) <= 0
  }

  /** `x` placed before the first element that must follow it, after any element it ties with. */
  function Insert<T>(s: seq<T>, x: T, cmp: (T, T) -> int): (r: seq<T>)
    ensures multiset(r) == multiset(s) + multiset{x}
    ensures |r| == |s| + 1
    ensures r[0] == x || (|s| > 0 && r[0] == s[0])
  {
    if |s| == 0 then [x]
    else if cmp(s[0], x) > 0 then [x] + s
    else
      assert s == [s[0]] + s[1..];
      [s[0]] + Insert(s[1..], x, cmp)
  }

  /** A stable sort: each element is inserted after the earlier ones it ties with. */
  function SortWith<T>(s: seq<T>, cmp: (T, T) -> int): (r: seq<T>)
    ensures multiset(r) == multiset(s)
    ensures |r| == |s|
  {
    if |s| == 0 then []
    else
      assert s == s[..|s| - 1] + [s[|s| - 1]];
      Insert(SortWith(s[..|s| - 1], cmp), s[|s| - 1], cmp)
  }

  /** Inserting into a sorted sequence keeps it sorted. */
  lemma {:induction false} InsertSorted<T(!new)>(s: seq<T>, x: T, cmp: (T, T) -> int)
    requires Total(cmp) && SortedBy(s, cmp)
    ensures SortedBy(Insert(s, x, cmp), cmp)
  {
    if |s| > 0 && cmp(s[0], x) <= 0 {
      InsertSorted(s[1..], x, cmp);
    }
  }

  /** With a comparator that orders every pair, SortWith returns a sorted permutation. */
  lemma {:induction false} SortWithSorted<T(!new)>(s: seq<T>, cmp: (T, T) -> int)
    requires Total(cmp)
    ensures SortedBy(SortWith(s, cmp), cmp)
    ensures multiset(SortWith(s, cmp)) == multiset(s)
  {
    if |s| > 0 {
      SortWithSorted(s[..|s| - 1], cmp);
      InsertSorted(SortWith(s[..|s| - 1], cmp), s[|s| - 1], cmp);
    }
  }
}
