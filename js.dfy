/** The slice of JavaScript value semantics the portal's pages rely on: dynamic
    values, truthiness, `String(...)`, strict equality, and the string helpers
    (`trim`, `toLowerCase`, `toUpperCase`, `includes`, `split`, `join`). */
module Js {

  datatype Option<T> = None | Some(value: T)

  /** A JavaScript value as it appears in a row or a form. Numbers are integers. */
  datatype Value =
    | Undef
    | Null
    | Bool(b: bool)
    | Num(n: int)
    | NaN
    | Str(s: string)
    | Arr(elems: seq<Value>)
    | Obj(fields: map<string, Value>)

  /** A plain object (a table row, a form state, a payload). */
  type Record = map<string, Value>

  /** Property access: a missing key reads as `undefined`. */
  function Get(r: Record, k: string): Value {
    if k in r then r[k] else Undef
  }

  /** `!!v` */
  predicate Truthy(v: Value) {
    match v
    case Undef => false
    case Null => false
    case Bool(b) => b
    case Num(n) => n != 0
    case NaN => false
    case Str(s) => s != ""
    case Arr(_) => true
    case Obj(_) => true
  }

  /** `a || b`: the first operand when it is truthy, otherwise the second. */
  function Or(a: Value, b: Value): (r: Value)
    ensures Truthy(a) ==> r == a
    ensures !Truthy(a) ==> r == b
  {
    if Truthy(a) then a else b
  }

  /** `a === b`. Arrays and objects are treated as distinct references. */
  predicate StrictEq(a: Value, b: Value) {
    match a
    case Undef => b.Undef?
    case Null => b.Null?
    case Bool(x) => b.Bool? && b.b == x
    case Num(x) => b.Num? && b.n == x
    case NaN => false
    case Str(x) => b.Str? && b.s == x
    case Arr(_) => false
    case Obj(_) => false
  }

  function DigitChar(d: int): char
    requires 0 <= d < 10
  {
    "0123456789"[d]
  }

  function NatToString(n: nat): (r: string)
    ensures |r| >= 1
    ensures forall i :: 0 <= i < |r| ==> '0' <= r[i] <= '9'
    decreases n
  {
    if n < 10 then [DigitChar(n)] else NatToString(n / 10) + [DigitChar(n % 10)]
  }

  /** Decimal rendering of an integer, as `String(n)` does. */
  function IntToString(n: int): string {
    if n < 0 then "-" + NatToString(-n) else NatToString(n)
  }

  /** `String(v)` (also template-literal interpolation). */
  function ToStr(v: Value): string
    decreases v, 1
  {
    match v
    case Undef => "undefined"
    case Null => "null"
    case Bool(b) => if b then "true" else "false"
    case Num(n) => IntToString(n)
    case NaN => "NaN"
    case Str(s) => s
    case Arr(es) => ElemsToStr(v, es)
    case Obj(_) => "[object Object]"
  }

  /** `Array.prototype.toString`: elements joined by commas, null and undefined as "". */
  function ElemsToStr(ghost parent: Value, es: seq<Value>): string
    requires forall i :: 0 <= i < |es| ==> es[i] < parent
    decreases parent, 0, |es|
  {
    if es == [] then ""
    else
      var head := if es[0].Null? || es[0].Undef? then "" else ToStr(es[0]);
      if |es| == 1 then head else head + "," + ElemsToStr(parent, es[1..])
  }

  /** The characters `String.prototype.trim` removes. */
  predicate IsSpace(c: char) {
    c == ' ' || c == '\t' || c == '\n' || c == '\r' || c == '\U{B}' || c == '\U{C}'
    || c == '\U{A0}' || c == '\U{1680}' || ('\U{2000}' <= c <= '\U{200A}')
    || c == '\U{2028}' || c == '\U{2029}' || c == '\U{202F}' || c == '\U{205F}'
    || c == '\U{3000}' || c == '\U{FEFF}'
  }

  function TrimStart(s: string): string {
    if s != [] && IsSpace(s[0]) then TrimStart(s[1..]) else s
  }

  function TrimEnd(s: string): string {
    if s != [] && IsSpace(s[|s| - 1]) then TrimEnd(s[..|s| - 1]) else s
  }

  /** `s.trim()` */
  function Trim(s: string): string {
    TrimEnd(TrimStart(s))
  }

  /** `TrimStart` drops a prefix of white space and stops at the first other character. */
  lemma {:induction false} TrimStartSpec(s: string)
    ensures var r := TrimStart(s);
      && |r| <= |s| && r == s[|s| - |r|..]
      && (r == [] || !IsSpace(r[0]))
      && forall i :: 0 <= i < |s| - |r| ==> IsSpace(s[i])
    decreases |s|
  {
    if s != [] && IsSpace(s[0]) {
      TrimStartSpec(s[1..]);
      var r := TrimStart(s);
      assert s[|s| - |r|..] == s[1..][|s| - 1 - |r|..];
      forall i | 0 < i < |s| - |r| ensures IsSpace(s[i]) {
        assert s[i] == s[1..][i - 1];
      }
    }
  }

  /** `TrimEnd` drops a suffix of white space and stops at the last other character. */
  lemma {:induction false} TrimEndSpec(s: string)
    ensures var r := TrimEnd(s);
      && |r| <= |s| && r == s[..|r|]
      && (r == [] || !IsSpace(r[|r| - 1]))
      && forall i :: |r| <= i < |s| ==> IsSpace(s[i])
    decreases |s|
  {
    if s != [] && IsSpace(s[|s| - 1]) {
      TrimEndSpec(s[..|s| - 1]);
      var r := TrimEnd(s);
      assert s[..|r|] == s[..|s| - 1][..|r|];
      forall i | |r| <= i < |s| - 1 ensures IsSpace(s[i]) {
        assert s[i] == s[..|s| - 1][i];
      }
    }
  }

  /** A trimmed string neither starts nor ends with white space, and is empty
      exactly when the input is all white space. */
  lemma TrimSpec(s: string)
    ensures var t := Trim(s); t == [] || (!IsSpace(t[0]) && !IsSpace(t[|t| - 1]))
    ensures Trim(s) == [] <==> AllSpace(s)
  {
    var a := TrimStart(s);
    var t := TrimEnd(a);
    TrimStartSpec(s);
    TrimEndSpec(a);
    if t != [] {
      assert t[0] == a[0];
    }
    if t == [] {
      assert a == [];
    } else {
      assert !IsSpace(s[|s| - |a|]) by { assert s[|s| - |a|] == a[0] == t[0]; }
    }
  }

  /** Trimming is idempotent. */
  lemma TrimIdempotent(s: string)
    ensures Trim(Trim(s)) == Trim(s)
  {
    TrimSpec(s);
    var t := Trim(s);
    if t != [] {
      assert TrimStart(t) == t;
      assert TrimEnd(t) == t;
    }
  }

  /** A string with no white space in it is its own trim. */
  lemma TrimNoSpace(s: string)
    requires forall i :: 0 <= i < |s| ==> !IsSpace(s[i])
    ensures Trim(s) == s
  {
    TrimStartSpec(s);
    var a := TrimStart(s);
    assert |s| > 0 ==> !IsSpace(s[0]);
    assert a == s;
    TrimEndSpec(a);
    assert |a| > 0 ==> !IsSpace(a[|a| - 1]);
  }

  /** The string is empty or made only of white space. */
  predicate AllSpace(s: string) {
    forall i :: 0 <= i < |s| ==> IsSpace(s[i])
  }

  /** A value that a required-field check treats as absent: falsy, or only white space. */
  predicate Blank(v: Value) {
    !Truthy(v) || AllSpace(ToStr(v))
  }

  /** `Blank` is the check the forms write as `!v || String(v).trim() === ""`. */
  lemma BlankTrim(v: Value)
    ensures Blank(v) <==> !Truthy(v) || Trim(ToStr(v)) == ""
  {
    TrimSpec(ToStr(v));
  }

  function LowerChar(c: char): char {
    if 'A' <= c <= 'Z' then (c as int + 32) as char else c
  }

  function UpperChar(c: char): char {
    if 'a' <= c <= 'z' then (c as int - 32) as char else c
  }

  /** `s.toLowerCase()` (ASCII letters). */
  function ToLower(s: string): (r: string)
    ensures |r| == |s| && forall i :: 0 <= i < |s| ==> r[i] == LowerChar(s[i])
  {
    seq(|s|, i requires 0 <= i < |s| => LowerChar(s[i]))
  }

  /** `s.toUpperCase()` (ASCII letters). */
  function ToUpper(s: string): (r: string)
    ensures |r| == |s| && forall i :: 0 <= i < |s| ==> r[i] == UpperChar(s[i])
  {
    seq(|s|, i requires 0 <= i < |s| => UpperChar(s[i]))
  }

  /** `hay.includes(needle)` */
  predicate Contains(hay: string, needle: string) {
    needle <= hay || (hay != [] && Contains(hay[1..], needle))
  }

  /** `s.split(c)` for a one-character separator. */
  function SplitOn(s: string, c: char): (r: seq<string>)
    ensures |r| >= 1
    ensures forall i :: 0 <= i < |r| ==> c !in r[i]
    decreases |s|
  {
    if c !in s then [s]
    else
      var k := IndexOf(s, c);
      [s[..k]] + SplitOn(s[k + 1..], c)
  }

  /** Every character of every piece comes from the input. */
  lemma {:induction false} SplitOnChars(s: string, c: char)
    ensures forall i, j :: 0 <= i < |SplitOn(s, c)| && 0 <= j < |SplitOn(s, c)[i]| ==> SplitOn(s, c)[i][j] in s
    decreases |s|
  {
    if c in s {
      var k := IndexOf(s, c);
      var rest := SplitOn(s[k + 1..], c);
      SplitOnChars(s[k + 1..], c);
      assert SplitOn(s, c) == [s[..k]] + rest;
      forall i, j | 0 <= i < |SplitOn(s, c)| && 0 <= j < |SplitOn(s, c)[i]|
        ensures SplitOn(s, c)[i][j] in s
      {
        if i == 0 {
          assert SplitOn(s, c)[i][j] == s[j];
        } else {
          var ch := rest[i - 1][j];
          assert ch in s[k + 1..];
          var m :| 0 <= m < |s[k + 1..]| && s[k + 1..][m] == ch;
          assert s[k + 1 + m] == ch;
        }
      }
    }
  }

  function IndexOf(s: string, c: char): (k: nat)
    requires c in s
    ensures k < |s| && s[k] == c && c !in s[..k]
  {
    if s[0] == c then 0 else 1 + IndexOf(s[1..], c)
  }

  /** `parts.join(sep)` */
  function JoinWith(parts: seq<string>, sep: string): string {
    if parts == [] then ""
    else if |parts| == 1 then parts[0]
    else parts[0] + sep + JoinWith(parts[1..], sep)
  }

  /** Splitting on a character and joining back with it gives the input. */
  lemma {:induction false} JoinSplit(s: string, c: char)
    ensures JoinWith(SplitOn(s, c), [c]) == s
    decreases |s|
  {
    if c in s {
      var k := IndexOf(s, c);
      var head, tail := s[..k], s[k + 1..];
      var rest := SplitOn(tail, c);
      assert SplitOn(s, c) == [head] + rest;
      JoinSplit(tail, c);
      assert JoinWith([head] + rest, [c]) == head + [c] + JoinWith(rest, [c]);
      assert s == head + [c] + tail;
    }
  }

  /** Joining pieces that do not contain the separator and splitting again
      gives the pieces back. */
  lemma {:induction false} SplitJoin(parts: seq<string>, c: char)
    requires |parts| >= 1
    requires forall i :: 0 <= i < |parts| ==> c !in parts[i]
    ensures SplitOn(JoinWith(parts, [c]), c) == parts
    decreases |parts|
  {
    if |parts| > 1 {
      var head := parts[0];
      var tail := JoinWith(parts[1..], [c]);
      var s := head + [c] + tail;
      assert JoinWith(parts, [c]) == s;
      var k := |head|;
      assert s[k] == c;
      assert s[..k] == head;
      assert s[k + 1..] == tail;
      IndexOfFirst(s, c, k);
      assert SplitOn(s, c) == [head] + SplitOn(tail, c);
      SplitJoin(parts[1..], c);
      assert parts == [head] + parts[1..];
    }
  }

  lemma IndexOfFirst(s: string, c: char, k: nat)
    requires k < |s| && s[k] == c && c !in s[..k]
    ensures c in s && IndexOf(s, c) == k
  {
    var j := IndexOf(s, c);
  }

  predicate IsDigit(c: char) {
    '0' <= c <= '9'
  }

  /** One or more decimal digits. */
  predicate IsDigits(s: string) {
    |s| >= 1 && forall i :: 0 <= i < |s| ==> IsDigit(s[i])
  }

  /** The value of a string of decimal digits. */
  function DigitsValue(s: string): nat
    requires forall i :: 0 <= i < |s| ==> IsDigit(s[i])
    decreases |s|
  {
    if s == [] then 0
    else
      var last := s[|s| - 1];
      assert IsDigit(last);
      DigitsValue(s[..|s| - 1]) * 10 + (last as int - '0' as int)
  }

  /** The number a string without surrounding white space denotes: blank
      is 0, an optionally signed run of decimal digits is its integer,
      anything else is NaN. */
  function NumeralValue(t: string): (r: Value)
    ensures r.Num? || r.NaN?
  {
    if t == "" then Num(0)
    else if IsDigits(t) then Num(DigitsValue(t))
    else if t[0] == '-' && IsDigits(t[1..]) then Num(-(DigitsValue(t[1..]) as int))
    else if t[0] == '+' && IsDigits(t[1..]) then Num(DigitsValue(t[1..]))
    else NaN
  }

  /** `Number(s)` for a string: surrounding white space is ignored. */
  function NumberOf(s: string): (r: Value)
    ensures r.Num? || r.NaN?
    ensures Trim(s) == "" ==> r == Num(0)
  {
    NumeralValue(Trim(s))
  }

  lemma DigitCharValue(d: int)
    requires 0 <= d < 10
    ensures IsDigit(DigitChar(d)) && DigitChar(d) as int - '0' as int == d
  {
  }

  /** Reading back the digits of a natural number gives that number. */
  lemma {:induction false} NatToStringDigits(n: nat)
    ensures IsDigits(NatToString(n)) && DigitsValue(NatToString(n)) == n
    decreases n
  {
    if n < 10 {
      DigitCharValue(n);
    } else {
      var s := NatToString(n);
      NatToStringDigits(n / 10);
      DigitCharValue(n % 10);
      assert s[..|s| - 1] == NatToString(n / 10);
    }
  }

  /** The decimal form of an integer holds no white space. */
  lemma IntToStringNoSpace(n: int)
    ensures forall i :: 0 <= i < |IntToString(n)| ==> !IsSpace(IntToString(n)[i])
  {
    var s := IntToString(n);
    var d := NatToString(if n < 0 then -n else n);
    assert forall i :: 0 <= i < |d| ==> '0' <= d[i] <= '9';
    assert s == d || s == "-" + d;
  }

  /** The decimal form of an integer denotes that integer. */
  lemma NumeralOfIntToString(n: int)
    ensures NumeralValue(IntToString(n)) == Num(n)
  {
    var s := IntToString(n);
    if n < 0 {
      var d := NatToString(-n);
      assert s == "-" + d && s[1..] == d;
      NatToStringDigits(-n);
      assert !IsDigit(s[0]);
    } else {
      NatToStringDigits(n);
    }
  }

  /** `Number(String(n)) === n` for every integer `n`. */
  lemma NumberOfIntToString(n: int)
    ensures NumberOf(IntToString(n)) == Num(n)
  {
    IntToStringNoSpace(n);
    TrimNoSpace(IntToString(n));
    NumeralOfIntToString(n);
  }
}
