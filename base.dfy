/**
 * Shared vocabulary of the model: optional values and results, the parts of
 * JavaScript's string and number semantics the application relies on, and a
 * value model of parsed JSON documents.
 */
module Base {

  datatype Option<T> = None | Some(value: T)

  datatype Result<T, E> = Ok(value: T) | Err(error: E)

  // ---------------------------------------------------------------------
  // Characters and strings
  // ---------------------------------------------------------------------

  /** `toLowerCase` on one character (ASCII letters only). */
  function LowerChar(c: char): char
  {
    if 'A' <= c <= 'Z' then (c as int + 32) as char else c
  }

  /** `String.prototype.toLowerCase`, restricted to ASCII letters. */
  function Lower(s: string): (r: string)
    ensures |r| == |s|
  {
    if s == [] then [] else [LowerChar(s[0])] + Lower(s[1..])
  }

  /** `Lower` maps each character on its own. */
  lemma {:induction false} LowerAt(s: string, i: int)
    requires 0 <= i < |s|
    ensures Lower(s)[i] == LowerChar(s[i])
  {
    if i > 0 {
      LowerAt(s[1..], i - 1);
    }
  }

  lemma {:induction false} LowerIdempotent(s: string)
    ensures Lower(Lower(s)) == Lower(s)
  {
    if s != [] {
      LowerIdempotent(s[1..]);
      assert Lower(s)[1..] == Lower(s[1..]);
    }
  }

  lemma {:induction false} LowerConcat(a: string, b: string)
    ensures Lower(a + b) == Lower(a) + Lower(b)
  {
    if a == [] {
      assert a + b == b;
    } else {
      assert (a + b)[1..] == a[1..] + b;
      LowerConcat(a[1..], b);
      assert Lower(a + b) == [LowerChar(a[0])] + (Lower(a[1..]) + Lower(b));
    }
  }

  /**
   * The characters JavaScript's `trim` and the regular-expression class `\s`
   * treat as white space: the ASCII blanks and line terminators, the no-break
   * spaces, the Unicode space separators, and the byte-order mark.
   */
  predicate IsSpace(c: char)
  {
    var n := c as int;
    n == 0x09 || n == 0x0A || n == 0x0B || n == 0x0C || n == 0x0D || n == 0x20
    || n == 0xA0 || n == 0x1680 || (0x2000 <= n <= 0x200A)
    || n == 0x2028 || n == 0x2029 || n == 0x202F || n == 0x205F || n == 0x3000
    || n == 0xFEFF
  }

  /** Removes the leading white space (`trimStart`). */
  function TrimStart(s: string): (r: string)
    ensures |r| <= |s|
  {
    if s != [] && IsSpace(s[0]) then TrimStart(s[1..]) else s
  }

  /** `TrimStart` drops a prefix of white space and stops at the first other character. */
  lemma {:induction false} TrimStartSpec(s: string)
    ensures var r := TrimStart(s);
      && r == s[|s| - |r|..]
      && (r == [] || !IsSpace(r[0]))
      && (forall i :: 0 <= i < |s| - |r| ==> IsSpace(s[i]))
  {
    if s != [] && IsSpace(s[0]) {
      TrimStartSpec(s[1..]);
    }
  }

  /** Removes the trailing white space (`trimEnd`). */
  function TrimEnd(s: string): (r: string)
    ensures |r| <= |s|
  {
    if s != [] && IsSpace(s[|s| - 1]) then TrimEnd(s[..|s| - 1]) else s
  }

  /** `TrimEnd` drops a suffix of white space and stops at the last other character. */
  lemma {:induction false} TrimEndSpec(s: string)
    ensures var r := TrimEnd(s);
      && r == s[..|r|]
      && (r == [] || !IsSpace(r[|r| - 1]))
      && (forall i :: |r| <= i < |s| ==> IsSpace(s[i]))
  {
    if s != [] && IsSpace(s[|s| - 1]) {
      TrimEndSpec(s[..|s| - 1]);
    }
  }

  /** `String.prototype.trim`. */
  function Trim(s: string): (r: string)
  {
    TrimEnd(TrimStart(s))
  }

  /** The trimmed text is a piece of the input. */
  lemma TrimBounds(s: string) returns (i: nat, j: nat)
    ensures i <= j <= |s| && Trim(s) == s[i..j]
  {
    var t := TrimStart(s);
    TrimStartSuffix(s);
    TrimEndPrefix(t);
    i, j := |s| - |t|, |s| - |t| + |Trim(s)|;
    assert t[..|Trim(s)|] == s[i..j];
  }

  /** The same for the text from position `k` on. */
  lemma TrimBoundsFrom(s: string, k: nat) returns (i: nat, j: nat)
    requires k <= |s|
    ensures i <= j <= |s| && Trim(s[k..]) == s[i..j]
  {
    var i', j' := TrimBounds(s[k..]);
    i, j := k + i', k + j';
    assert s[k..][i'..j'] == s[i..j];
  }

  lemma {:induction false} TrimStartSuffix(s: string)
    ensures TrimStart(s) == s[|s| - |TrimStart(s)|..]
  {
    if s != [] && IsSpace(s[0]) {
      TrimStartSuffix(s[1..]);
    }
  }

  lemma {:induction false} TrimEndPrefix(s: string)
    ensures TrimEnd(s) == s[..|TrimEnd(s)|]
  {
    if s != [] && IsSpace(s[|s| - 1]) {
      TrimEndPrefix(s[..|s| - 1]);
    }
  }

  lemma TrimEnds(s: string)
    ensures |Trim(s)| <= |s|
    ensures Trim(s) == [] || (!IsSpace(Trim(s)[0]) && !IsSpace(Trim(s)[|Trim(s)| - 1]))
  {
    var t := TrimStart(s);
    var r := TrimEnd(t);
    TrimStartSpec(s);
    TrimEndSpec(t);
    if r != [] {
      assert r == t[..|r|];
      assert r[0] == t[0];
    }
  }

  lemma TrimNoSpace(s: string)
    requires forall i :: 0 <= i < |s| ==> !IsSpace(s[i])
    ensures Trim(s) == s
  {
    assert TrimStart(s) == s;
    assert TrimEnd(s) == s;
  }

  /** `s.startsWith(p)`. */
  predicate StartsWith(s: string, p: string)
  {
    |p| <= |s| && s[..|p|] == p
  }

  /** `s.endsWith(p)`. */
  predicate EndsWith(s: string, p: string)
  {
    |p| <= |s| && s[|s| - |p|..] == p
  }

  /** Index of the first occurrence of `c`, or `|s|` when there is none. */
  function IndexOf(s: string, c: char): (k: nat)
    ensures k <= |s|
    ensures k < |s| ==> s[k] == c
    ensures forall i :: 0 <= i < k ==> s[i] != c
  {
    if s == [] then 0 else if s[0] == c then 0 else 1 + IndexOf(s[1..], c)
  }

  /** Removes every character satisfying `drop`. */
  function Without(s: string, drop: char -> bool): (r: string)
    ensures |r| <= |s|
    ensures forall i :: 0 <= i < |r| ==> !drop(r[i])
  {
    if s == [] then [] else (if drop(s[0]) then [] else [s[0]]) + Without(s[1..], drop)
  }

  lemma {:induction false} WithoutIdentity(s: string, drop: char -> bool)
    requires forall i :: 0 <= i < |s| ==> !drop(s[i])
    ensures Without(s, drop) == s
  {
    if s != [] {
      WithoutIdentity(s[1..], drop);
    }
  }

  /** Decimal text of an integer, as `String(n)` prints it. */
  function Decimal(n: int): (r: string)
    ensures r != []
  {
    if n < 0 then "-" + Digits(-n) else Digits(n)
  }

  function Digits(n: nat): (r: string)
    ensures r != []
    ensures forall i :: 0 <= i < |r| ==> '0' <= r[i] <= '9'
    decreases n
  {
    if n < 10 then [DigitChar(n)] else Digits(n / 10) + [DigitChar(n % 10)]
  }

  function DigitChar(d: nat): char
    requires d < 10
  {
    ('0' as int + d) as char
  }

  // ---------------------------------------------------------------------
  // Numbers
  // ---------------------------------------------------------------------

  /** A JavaScript number: NaN or a finite value. Infinities are not modelled. */
  datatype Number = NaN | Num(value: real)

  /** The byte order mark U+FEFF. */
  const Bom: char := '\U{FEFF}'

  /** `.replace(/^\uFEFF/, "")`: one leading byte order mark removed. */
  function DropBom(s: string): (r: string)
    ensures |r| <= |s| && r == s[|s| - |r|..]
    ensures |r| == |s| - 1 <==> s != [] && s[0] == Bom
    ensures |r| == |s| <==> s == [] || s[0] != Bom
  {
    if s != [] && s[0] == Bom then s[1..] else s
  }

  /** `Math.round`: to the nearest integer, halves upward. */
  function Round(x: real): (r: int)
    ensures r as real - 0.5 <= x < r as real + 0.5
  {
    (x + 0.5).Floor
  }

  /** The value of a string of decimal digits. */
  function DigitsValue(s: string): nat
    requires forall i :: 0 <= i < |s| ==> '0' <= s[i] <= '9'
  {
    if s == [] then 0 else 10 * DigitsValue(s[..|s| - 1]) + (s[|s| - 1] as int - '0' as int)
  }

  predicate AllDigits(s: string)
  {
    s != [] && forall i :: 0 <= i < |s| ==> '0' <= s[i] <= '9'
  }

  /**
   * `Number(s)` for a string: surrounding white space is ignored, the empty
   * string is 0, an optionally signed run of decimal digits is its value, and
   * any other text is NaN.
   */
  function NumberOf(s: string): (n: Number)
  {
    var t := Trim(s);
    if t == [] then Num(0.0)
    else if AllDigits(t) then Num(DigitsValue(t) as real)
    else if t[0] == '-' && AllDigits(t[1..]) then Num(-(DigitsValue(t[1..]) as real))
    else if t[0] == '+' && AllDigits(t[1..]) then Num(DigitsValue(t[1..]) as real)
    else NaN
  }

  lemma {:induction false} DigitsValueOfDigits(n: nat)
    ensures DigitsValue(Digits(n)) == n
    decreases n
  {
    if n >= 10 {
      DigitsValueOfDigits(n / 10);
      var d := Digits(n / 10) + [DigitChar(n % 10)];
      assert d[..|d| - 1] == Digits(n / 10);
    }
  }

  /** `Number(String(n))` gives `n` back. */
  lemma NumberOfDecimal(n: int)
    ensures NumberOf(Decimal(n)) == Num(n as real)
  {
    if n >= 0 {
      NumberOfDigits(n);
    } else {
      NumberOfMinusDigits(-n);
    }
  }

  lemma NumberOfDigits(n: nat)
    ensures NumberOf(Digits(n)) == Num(n as real)
  {
    var d := Digits(n);
    NoSpaceTrimmed(d);
    DigitsValueOfDigits(n);
    NumberOfUnsigned(d);
  }

  lemma NumberOfMinusDigits(m: nat)
    ensures NumberOf("-" + Digits(m)) == Num(-(m as real))
  {
    var d := "-" + Digits(m);
    NoSpaceTrimmed(d);
    DigitsValueOfDigits(m);
    assert d[1..] == Digits(m);
    NumberOfNegative(d);
  }

  /** A text made of digits and signs has no white space to trim. */
  lemma NoSpaceTrimmed(s: string)
    requires forall i :: 0 <= i < |s| ==> '0' <= s[i] <= '9' || s[i] == '-'
    ensures Trim(s) == s
  {
    forall i | 0 <= i < |s| ensures !IsSpace(s[i]) { }
    TrimNoSpace(s);
  }

  lemma NumberOfUnsigned(t: string)
    requires Trim(t) == t && AllDigits(t)
    ensures NumberOf(t) == Num(DigitsValue(t) as real)
  {
  }

  lemma NumberOfNegative(t: string)
    requires Trim(t) == t && t != [] && t[0] == '-' && AllDigits(t[1..])
    ensures NumberOf(t) == Num(-(DigitsValue(t[1..]) as real))
  {
  }

  // ---------------------------------------------------------------------
  // JSON values
  // ---------------------------------------------------------------------

  /**
   * A parsed JSON document. Objects are member lists with distinct keys, in
   * the order `JSON.parse` keeps them.
   */
  datatype Json =
    | JNull
    | JBool(b: bool)
    | JNum(n: real)
    | JStr(s: string)
    | JArr(items: seq<Json>)
    | JObj(members: seq<(string, Json)>)

  /** `v.key` (and `v?.key`): `None` stands for `undefined`. */
  function Field(v: Option<Json>, key: string): (r: Option<Json>)
    ensures r.Some? ==> v.Some? && v.value.JObj?
  {
    if v.Some? && v.value.JObj? then Lookup(v.value.members, key) else None
  }

  function Lookup(members: seq<(string, Json)>, key: string): Option<Json>
  {
    if members == [] then None
    else if members[0].0 == key then Some(members[0].1)
    else Lookup(members[1..], key)
  }

  /** JavaScript truthiness of a possibly undefined JSON value. */
  predicate Truthy(v: Option<Json>)
  {
    match v
    case None => false
    case Some(j) =>
      match j
      case JNull => false
      case JBool(b) => b
      case JNum(n) => n != 0.0
      case JStr(s) => s != ""
      case JArr(_) => true
      case JObj(_) => true
  }

  /**
   * `Number(v)` for a JSON value. An array converts through its text
   * (`String(v)` joins the items with ","): the empty array is 0, a single
   * item converts by its own text (`null` gives "", a boolean or an object
   * text that is no number), and two or more items give a comma, so NaN.
   * Objects are NaN.
   */
  function NumberOfJson(j: Json): Number
  {
    match j
    case JNull => Num(0.0)
    case JBool(b) => Num(if b then 1.0 else 0.0)
    case JNum(n) => Num(n)
    case JStr(s) => NumberOf(s)
    case JArr(items) =>
      if |items| == 0 then Num(0.0)
      else if |items| == 1 && !items[0].JBool? && !items[0].JObj? then NumberOfJson(items[0])
      else NaN
    case JObj(_) => NaN
  }

  /** `Number([])` is 0, `Number([5])` is 5, `Number(["7"])` is 7, `Number([true])` and `Number([1, 2])` are NaN. */
  lemma NumberOfArrays()
    ensures NumberOfJson(JArr([])) == Num(0.0)
    ensures NumberOfJson(JArr([JNum(5.0)])) == Num(5.0)
    ensures NumberOfJson(JArr([JStr("7")])) == Num(7.0)
    ensures NumberOfJson(JArr([JArr([JNull])])) == Num(0.0)
    ensures NumberOfJson(JArr([JBool(true)])) == NaN
    ensures NumberOfJson(JArr([JNum(1.0), JNum(2.0)])) == NaN
  {
    assert AllDigits("7") && Trim("7") == "7" by { TrimNoSpace("7"); }
    assert DigitsValue("7") == 7 by { assert "7"[..0] == []; }
  }

  /** `v == null`: undefined or null. */
  predicate Nullish(v: Option<Json>)
  {
    v.None? || v.value.JNull?
  }

  /** `a ?? b`. */
  function Coalesce(a: Option<Json>, b: Option<Json>): (r: Option<Json>)
    ensures !Nullish(a) ==> r == a
    ensures Nullish(a) ==> r == b
  {
    if Nullish(a) then b else a
  }
}
