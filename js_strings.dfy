/** The pieces of JavaScript's built-in behaviour that the handlers lean on:
    `String.prototype.toLowerCase`, `toString` of a value, `parseFloat`, and
    object spread `{...v}`. */
module JsStrings {
  import opened JsValues

  // ---------------------------------------------------------------------------
  // toLowerCase

  predicate IsUpper(c: char) {
    'A' <= c <= 'Z'
  }

  function LowerChar(c: char): char {
    if IsUpper(c) then (c as int + 32) as char else c
  }

  /** `s.toLowerCase()` on the ASCII letters. */
  function ToLowerCase(s: string): (r: string)
    ensures |r| == |s|
    ensures forall i :: 0 <= i < |s| ==> !IsUpper(r[i])
    ensures forall i :: 0 <= i < |s| && IsUpper(s[i]) ==> r[i] as int == s[i] as int + 32
    ensures forall i :: 0 <= i < |s| && !IsUpper(s[i]) ==> r[i] == s[i]
  {
    if s == [] then [] else [LowerChar(s[0])] + ToLowerCase(s[1..])
  }

  /** Lower-casing twice is lower-casing once. */
  lemma LowerCaseIdempotent(s: string)
    ensures ToLowerCase(ToLowerCase(s)) == ToLowerCase(s)
  {
  }

  /** A string without upper-case letters is left alone. */
  lemma LowerCaseOfLower(s: string)
    requires forall i :: 0 <= i < |s| ==> !IsUpper(s[i])
    ensures ToLowerCase(s) == s
  {
  }

  // ---------------------------------------------------------------------------
  // Decimal integers: Number.prototype.toString and parseFloat

  predicate IsDigit(c: char) {
    '0' <= c <= '9'
  }

  predicate AllDigits(s: string) {
    forall i :: 0 <= i < |s| ==> IsDigit(s[i])
  }

  function DigitChar(d: nat): (c: char)
    requires d < 10
    ensures IsDigit(c) && c as int - '0' as int == d
  {
    ('0' as int + d) as char
  }

  function DigitValue(c: char): nat
    requires IsDigit(c)
  {
    c as int - '0' as int
  }

  /** The shortest decimal spelling of a natural number. */
  function NatToDigits(n: nat): (r: string)
    ensures |r| > 0 && AllDigits(r)
    ensures |r| > 1 ==> r[0] != '0'
    decreases n
  {
    if n < 10 then [DigitChar(n)] else NatToDigits(n / 10) + [DigitChar(n % 10)]
  }

  /** The number a run of decimal digits denotes. */
  function DigitsValue(s: string): nat
    requires AllDigits(s)
  {
    if s == [] then 0 else DigitsValue(s[..|s| - 1]) * 10 + DigitValue(s[|s| - 1])
  }

  /** Reading back the spelling of `n` gives `n`. */
  lemma {:induction false} DigitsRoundTrip(n: nat)
    ensures DigitsValue(NatToDigits(n)) == n
  {
    if n >= 10 {
      var d := NatToDigits(n / 10);
      var s := d + [DigitChar(n % 10)];
      assert s[..|s| - 1] == d;
      DigitsRoundTrip(n / 10);
    }
  }

  /** `String(n)` for an integer `n`: digits, after a minus sign when `n`
      is negative. */
  function NumberToString(n: int): (r: string)
    ensures |r| > 0
    ensures n >= 0 ==> AllDigits(r)
    ensures n < 0 ==> r[0] == '-' && |r| > 1 && AllDigits(r[1..])
  {
    if n < 0 then "-" + NatToDigits(-n) else NatToDigits(n)
  }

  /** An optionally signed run of decimal digits. */
  predicate IsIntegerLiteral(s: string) {
    if |s| > 0 && (s[0] == '-' || s[0] == '+') then |s| > 1 && AllDigits(s[1..])
    else |s| > 0 && AllDigits(s)
  }

  /** `parseFloat(s)` on a string: the integer an integer literal spells, and
      None (NaN) otherwise.  Other spellings parseFloat accepts are listed in
      README under "Left out". */
  function ParseFloatText(s: string): (r: Option<int>)
    ensures r.Some? <==> IsIntegerLiteral(s)
  {
    if !IsIntegerLiteral(s) then None
    else if s[0] == '-' then Some(0 - DigitsValue(s[1..]) as int)
    else if s[0] == '+' then Some(DigitsValue(s[1..]))
    else Some(DigitsValue(s))
  }

  /** Parsing the string of an integer gives the integer back. */
  lemma NumberToStringRoundTrip(n: int)
    ensures ParseFloatText(NumberToString(n)) == Some(n)
  {
    if n < 0 {
      var s := NumberToString(n);
      assert s[1..] == NatToDigits(-n);
      DigitsRoundTrip(-n);
    } else {
      DigitsRoundTrip(n);
    }
  }

  /** Different integers have different spellings. */
  lemma NumberToStringInjective(i: int, j: int)
    requires NumberToString(i) == NumberToString(j)
    ensures i == j
  {
    NumberToStringRoundTrip(i);
    NumberToStringRoundTrip(j);
  }

  // ---------------------------------------------------------------------------
  // String(v) and parseFloat(v)

  /** `String(v)`: the text template literals, `toString()` and `parseFloat`
      turn a value into. */
  function ToString(v: Value): (r: string)
    ensures v.Str? ==> r == v.s
    ensures v.Num? ==> ParseFloatText(r) == Some(v.n)
    decreases v, 1
  {
    match v
    case Undefined => "undefined"
    case Null => "null"
    case Bool(b) => if b then "true" else "false"
    case Num(n) => NumberToStringRoundTrip(n); NumberToString(n)
    case Str(s) => s
    case Arr(items) => Join(items, v)
    case Obj(_) => "[object Object]"
  }

  /** `items.join(",")` of the array `whole`, where null and undefined
      elements become the empty string. */
  function Join(items: seq<Value>, ghost whole: Value): string
    requires whole.Arr? && items <= whole.items
    decreases whole, 0, |items|
  {
    if items == [] then ""
    else
      var last := items[|items| - 1];
      assert last in whole.items;
      var text := if Nullish(last) then "" else ToString(last);
      if |items| == 1 then text else Join(items[..|items| - 1], whole) + "," + text
  }

  /** `parseFloat(v)`: None stands for NaN. */
  function ParseFloat(v: Value): (r: Option<int>)
    ensures v.Num? ==> r == Some(v.n)
    ensures v.Undefined? || v.Null? || v.Bool? || v.Obj? ==> r == None
    ensures v.Str? ==> r == ParseFloatText(v.s)
  {
    match v
    case Num(n) => NumberToStringRoundTrip(n); ParseFloatText(ToString(v))
    case _ => ParseFloatText(ToString(v))
  }

  // ---------------------------------------------------------------------------
  // Object spread

  /** The keys `{...items}` gives an array of length `n`. */
  function IndexKeys(n: nat): set<string> {
    set i | 0 <= i < n :: NumberToString(i)
  }

  /** The key of index `n` differs from those of smaller indices. */
  lemma IndexKeyFresh(n: nat)
    ensures forall i :: 0 <= i < n ==> NumberToString(i) != NumberToString(n)
    ensures IndexKeys(n + 1) == IndexKeys(n) + {NumberToString(n)}
  {
    forall i | 0 <= i < n ensures NumberToString(i) != NumberToString(n) {
      if NumberToString(i) == NumberToString(n) {
        NumberToStringInjective(i, n);
      }
    }
  }

  /** The entries `{...items}` copies out of an array (or of the characters
      of a string): each element under the decimal spelling of its index. */
  function Indexed(items: seq<Value>): map<string, Value> {
    if items == [] then map[]
    else Indexed(items[..|items| - 1])[NumberToString(|items| - 1) := items[|items| - 1]]
  }

  /** Spreading an array gives exactly the keys `String(i)` of its indices. */
  lemma {:induction false} IndexedKeys(items: seq<Value>)
    ensures Indexed(items).Keys == IndexKeys(|items|)
  {
    if items != [] {
      var n := |items| - 1;
      IndexedKeys(items[..n]);
      IndexKeyFresh(n);
    }
  }

  /** Spreading an array copies element `i` under the key `String(i)`. */
  lemma {:induction false} IndexedValues(items: seq<Value>)
    ensures forall i :: 0 <= i < |items| ==> NumberToString(i) in Indexed(items) && Indexed(items)[NumberToString(i)] == items[i]
  {
    if items != [] {
      var n := |items| - 1;
      var rest := Indexed(items[..n]);
      IndexedValues(items[..n]);
      IndexKeyFresh(n);
      forall i | 0 <= i < n ensures NumberToString(i) in Indexed(items) && Indexed(items)[NumberToString(i)] == items[i] {
        assert rest[NumberToString(i)] == items[..n][i] == items[i];
      }
    }
  }

  /** The entries `{...v}` copies: an object's own entries, an array's or a
      string's elements by index, and nothing from any other value. */
  function SpreadEntries(v: Value): (m: map<string, Value>)
    ensures v.Obj? ==> m == v.fields
    ensures !(v.Obj? || v.Arr? || v.Str?) ==> m == map[]
    ensures v.Arr? ==> m == Indexed(v.items)
    ensures v.Str? ==> forall i :: 0 <= i < |v.s| ==> NumberToString(i) in m && m[NumberToString(i)] == Str([v.s[i]])
  {
    match v
    case Obj(fields) => fields
    case Arr(items) => Indexed(items)
    case Str(s) =>
      var chars := seq(|s|, i requires 0 <= i < |s| => Str([s[i]]));
      IndexedValues(chars);
      Indexed(chars)
    case _ => map[]
  }
}
