/** The pieces of JavaScript value semantics that the client pages and route handlers
    rely on: property reads that may be `undefined`, `??`, `||`, `Number(...)`,
    `parseFloat(...)`, `String(...)` of an id, and the string helpers `trim`,
    `toLowerCase`, `toUpperCase` and `includes`. */
module Js {

  datatype Option<T> = None | Some(value: T) {
    function GetOr(default: T): T {
      match this
      case Some(v) => v
      case None => default
    }
  }

  /** A JSON value as the client and server exchange it. Reading a property that is
      absent gives `undefined`, which is `None` wherever an `Option<Value>` is read. */
  datatype Value =
    | Null
    | Bool(b: bool)
    | Num(n: real)
    | Str(s: string)
    | Arr(elems: seq<Value>)
    | Obj(fields: map<string, Value>)

  type Object = map<string, Value>

  /** `o.k` */
  function Get(o: Object, k: string): Option<Value> {
    if k in o then Some(o[k]) else None
  }

  /** The properties of a JSON value; anything but an object has none. */
  function FieldsOf(v: Value): Object {
    if v.Obj? then v.fields else map[]
  }

  /** `v?.k`: `undefined` when `v` is missing or is not an object. */
  function PropertyOf(v: Option<Value>, k: string): (r: Option<Value>)
    ensures v.None? ==> r.None?
  {
    if v.Some? then Get(FieldsOf(v.value), k) else None
  }

  /** Sets `k` when `v` is defined; an `undefined` property disappears when the object
      is serialised with JSON.stringify. */
  function PutDefined(o: Object, k: string, v: Option<Value>): Object {
    if v.Some? then o[k := v.value] else o - {k}
  }

  /** An object literal whose properties may be `undefined`, as JSON.stringify writes
      it: the undefined ones are dropped. */
  function Defined(m: map<string, Option<Value>>): (r: Object)
    ensures forall k :: Get(r, k) == (if k in m then m[k] else None)
  {
    map k | k in m && m[k].Some? :: m[k].value
  }

  /** `null` and `undefined` are the values `??` skips. */
  predicate Nullish(v: Option<Value>) {
    v.None? || v.value.Null?
  }

  /** JavaScript truthiness. NaN is not modelled (see README). */
  predicate Truthy(v: Option<Value>) {
    match v
    case None => false
    case Some(Null) => false
    case Some(Bool(b)) => b
    case Some(Num(n)) => n != 0.0
    case Some(Str(s)) => s != ""
    case Some(_) => true
  }

  /** `a ?? b` */
  function Coalesce(a: Option<Value>, b: Option<Value>): (r: Option<Value>)
    ensures !Nullish(a) ==> r == a
    ensures Nullish(a) ==> r == b
  {
    if Nullish(a) then b else a
  }

  /** `a || b` */
  function Or(a: Option<Value>, b: Option<Value>): (r: Option<Value>)
    ensures Truthy(a) ==> r == a
    ensures !Truthy(a) ==> r == b
  {
    if Truthy(a) then a else b
  }

  function NumV(x: real): Option<Value> { Some(Num(x)) }
  function StrV(s: string): Option<Value> { Some(Str(s)) }

  /** `x * n` for an amount and a count. Products of two unknowns are kept behind a
      name so that the solver treats them as values. */
  function Times(x: real, n: int): real {
    x * n as real
  }

  /** `x * y` for two amounts. */
  function Mul(x: real, y: real): real {
    x * y
  }

  // ---------------------------------------------------------------------------
  // Strings

  predicate IsSpace(c: char) {
    c == ' ' || c == '\t' || c == '\n' || c == '\r' || c == '\U{000B}' || c == '\U{000C}'
    || c == '\U{00A0}' || c == '\U{FEFF}' || c == '\U{1680}' || ('\U{2000}' <= c <= '\U{200A}')
    || c == '\U{2028}' || c == '\U{2029}' || c == '\U{202F}' || c == '\U{205F}' || c == '\U{3000}'
  }

  function TrimStart(s: string): (r: string)
    ensures |r| <= |s|
    ensures r != [] ==> !IsSpace(r[0])
  {
    if s != [] && IsSpace(s[0]) then TrimStart(s[1..]) else s
  }

  function TrimEnd(s: string): (r: string)
    ensures |r| <= |s|
    ensures r != [] ==> !IsSpace(r[|r| - 1])
  {
    if s != [] && IsSpace(s[|s| - 1]) then TrimEnd(s[..|s| - 1]) else s
  }

  /** `s.trim()` */
  function Trim(s: string): (r: string)
    ensures |r| <= |s|
  {
    TrimEnd(TrimStart(s))
  }

  /** `!s.trim()`: the string is empty or white space only. */
  predicate Blank(s: string) {
    Trim(s) == ""
  }

  function LowerChar(c: char): char {
    if 'A' <= c <= 'Z' then (c as int + 32) as char else c
  }

  function UpperChar(c: char): char {
    if 'a' <= c <= 'z' then (c as int - 32) as char else c
  }

  /** `s.toLowerCase()` (ASCII letters) */
  function Lower(s: string): (r: string)
    ensures |r| == |s|
    ensures forall i :: 0 <= i < |s| ==> r[i] == LowerChar(s[i])
  {
    if s == [] then [] else [LowerChar(s[0])] + Lower(s[1..])
  }

  /** `s.toUpperCase()` (ASCII letters) */
  function Upper(s: string): (r: string)
    ensures |r| == |s|
    ensures forall i :: 0 <= i < |s| ==> r[i] == UpperChar(s[i])
  {
    if s == [] then [] else [UpperChar(s[0])] + Upper(s[1..])
  }

  /** `s.includes(t)`, computed by trying every start position. */
  predicate Includes(s: string, t: string) {
    (|t| <= |s| && t == s[..|t|]) || (s != [] && Includes(s[1..], t))
  }

  /** `t` occurs in `s` starting at position `i`. */
  predicate OccursAt(s: string, t: string, i: int) {
    0 <= i <= |s| - |t| && s[i..i + |t|] == t
  }

  /** `includes` holds exactly when `t` occurs in `s` at some position. */
  lemma {:induction false} IncludesIff(s: string, t: string)
    ensures Includes(s, t) <==> exists i :: OccursAt(s, t, i)
  {
    if s == [] {
      if exists i :: OccursAt(s, t, i) {
        var i :| OccursAt(s, t, i);
        assert t == [] == s[..|t|];
        assert Includes(s, t);
      }
      if Includes(s, t) {
        assert t == [] && s[0..0] == t;
        assert OccursAt(s, t, 0);
      }
    } else {
      IncludesIff(s[1..], t);
      if Includes(s[1..], t) {
        var i :| OccursAt(s[1..], t, i);
        assert s[i + 1..i + 1 + |t|] == s[1..][i..i + |t|];
        assert OccursAt(s, t, i + 1);
      }
      if |t| <= |s| && t == s[..|t|] {
        assert OccursAt(s, t, 0);
      }
      if exists i :: OccursAt(s, t, i) {
        var i :| OccursAt(s, t, i);
        if i == 0 {
          assert s[..|t|] == t;
        } else {
          assert s[1..][i - 1..i - 1 + |t|] == t;
          assert OccursAt(s[1..], t, i - 1);
        }
      }
    }
  }

  /** The empty search term is contained in every string, so an empty search keeps
      everything. */
  lemma EmptySearchMatches(s: string)
    ensures Includes(s, "")
  {
    assert s[..0] == "";
  }

  // ---------------------------------------------------------------------------
  // Decimal text

  predicate IsDigit(c: char) { '0' <= c <= '9' }

  function DigitValue(c: char): nat
    requires IsDigit(c)
  {
    c as int - '0' as int
  }

  function DigitChar(d: nat): char
    requires d < 10
  {
    ('0' as int + d) as char
  }

  /** The longest prefix of `s` made of decimal digits. */
  function DigitPrefix(s: string): (r: string)
    ensures |r| <= |s| && r == s[..|r|]
    ensures forall i :: 0 <= i < |r| ==> IsDigit(r[i])
    ensures |r| < |s| ==> !IsDigit(s[|r|])
  {
    if s != [] && IsDigit(s[0]) then [s[0]] + DigitPrefix(s[1..]) else []
  }

  /** The value of a string of decimal digits, most significant first. */
  function DigitsValue(ds: string): nat
    requires forall i :: 0 <= i < |ds| ==> IsDigit(ds[i])
  {
    if ds == [] then 0 else 10 * DigitsValue(ds[..|ds| - 1]) + DigitValue(ds[|ds| - 1])
  }

  function Pow10(k: nat): (r: nat)
    ensures r > 0
  {
    if k == 0 then 1 else 10 * Pow10(k - 1)
  }

  /** Decimal text of a natural number, without leading zeros. */
  function NatToString(n: nat): (r: string)
    ensures |r| > 0
    ensures forall i :: 0 <= i < |r| ==> IsDigit(r[i])
    ensures DigitsValue(r) == n
  {
    if n < 10 then [DigitChar(n)]
    else
      var r := NatToString(n / 10) + [DigitChar(n % 10)];
      assert r[..|r| - 1] == NatToString(n / 10);
      r
  }

  /** `String(n)` for an integer. */
  function IntToString(n: int): string {
    if n < 0 then "-" + NatToString(-n) else NatToString(n)
  }

  /** The unsigned numeric prefix `digits [. digits]` (or `. digits`), as its value and
      the number of characters it consumed. */
  function ScanUnsigned(u: string): (r: Option<(real, nat)>)
    ensures r.Some? ==> r.value.1 <= |u|
  {
    var ip := DigitPrefix(u);
    var rest := u[|ip|..];
    if |rest| > 0 && rest[0] == '.' then
      var fp := DigitPrefix(rest[1..]);
      if |ip| == 0 && |fp| == 0 then None
      else Some((DigitsValue(ip) as real + Fraction(fp), |ip| + 1 + |fp|))
    else if |ip| == 0 then None
    else Some((DigitsValue(ip) as real, |ip|))
  }

  /** The value of the digits after a decimal point. */
  function Fraction(fp: string): real
    requires forall i :: 0 <= i < |fp| ==> IsDigit(fp[i])
  {
    DigitsValue(fp) as real / Pow10(|fp|) as real
  }

  /** The numeric prefix `[sign] digits [. digits]` that `parseFloat` reads, as its value
      and the number of characters it consumed. Exponents and `Infinity` are not modelled. */
  function Scan(t: string): (r: Option<(real, nat)>)
    ensures r.Some? ==> r.value.1 <= |t|
  {
    if |t| > 0 && (t[0] == '-' || t[0] == '+') then
      match ScanUnsigned(t[1..])
      case None => None
      case Some((m, used)) => Some((if t[0] == '-' then -m else m, used + 1))
    else ScanUnsigned(t)
  }

  /** `parseFloat(s)`: `None` is NaN. */
  function ParseFloat(s: string): Option<real> {
    match Scan(TrimStart(s))
    case None => None
    case Some((v, _)) => Some(v)
  }

  /** `parseFloat(s) || 0`: unparsable text (and 0) gives 0. */
  function ParseFloatOrZero(s: string): real {
    ParseFloat(s).GetOr(0.0)
  }

  /** `parseFloat(v)` of any value: a number reads as itself, anything else through its
      text. */
  function ParseFloatValue(v: Option<Value>): (r: Option<real>)
    ensures v.Some? && v.value.Num? ==> r == Some(v.value.n)
  {
    match v
    case Some(Num(n)) => Some(n)
    case _ => ParseFloat(ToStr(v))
  }

  /** `parseInt(s)`: leading white space, an optional sign and the digits after it;
      `None` is NaN. */
  function ParseInt(s: string): Option<int> {
    var t := TrimStart(s);
    var signed := |t| > 0 && (t[0] == '-' || t[0] == '+');
    var ds := DigitPrefix(if signed then t[1..] else t);
    if ds == [] then None
    else if signed && t[0] == '-' then Some(-(DigitsValue(ds) as int))
    else Some(DigitsValue(ds) as int)
  }

  /** `parseInt(v)` of any value: a number is cut toward zero, anything else is read
      through its text. */
  function ParseIntValue(v: Option<Value>): (r: Option<int>)
    ensures v.Some? && v.value.Num? && v.value.n >= 0.0 ==> r == Some(v.value.n.Floor)
    ensures v.Some? && v.value.Num? && v.value.n < 0.0 ==> r == Some(-((-v.value.n).Floor))
  {
    match v
    case Some(Num(n)) => if n >= 0.0 then Some(n.Floor) else Some(-((-n).Floor))
    case _ => ParseInt(ToStr(v))
  }

  /** A non-empty run of digits scans as its whole value. */
  lemma ScanUnsignedDigits(ds: string)
    requires ds != [] && forall i :: 0 <= i < |ds| ==> IsDigit(ds[i])
    ensures ScanUnsigned(ds) == Some((DigitsValue(ds) as real, |ds|))
  {
    DigitPrefixOfDigits(ds);
    assert ds[|ds|..] == [];
  }

  lemma {:induction false} DigitPrefixOfDigits(ds: string)
    requires forall i :: 0 <= i < |ds| ==> IsDigit(ds[i])
    ensures DigitPrefix(ds) == ds
  {
    if ds != [] {
      DigitPrefixOfDigits(ds[1..]);
    }
  }

  /** `parseFloat` reads back the decimal text of every integer. */
  lemma ParseFloatIntToString(n: int)
    ensures ParseFloat(IntToString(n)) == Some(n as real)
  {
    var s := IntToString(n);
    TrimStartNoSpace(s);
    if n < 0 {
      var d := NatToString(-n);
      assert s == "-" + d && s[1..] == d;
      ScanUnsignedDigits(d);
    } else {
      ScanUnsignedDigits(s);
    }
  }

  lemma TrimStartNoSpace(s: string)
    requires s != [] ==> !IsSpace(s[0])
    ensures TrimStart(s) == s
  {
  }

  lemma TrimStartSkipsSpace(s: string)
    requires s != [] && IsSpace(s[0])
    ensures TrimStart(s) == TrimStart(s[1..])
  {
  }

  lemma TrimEndNoSpace(s: string)
    requires s != [] ==> !IsSpace(s[|s| - 1])
    ensures TrimEnd(s) == s
  {
  }

  lemma TrimEndSkipsSpace(s: string)
    requires s != [] && IsSpace(s[|s| - 1])
    ensures TrimEnd(s) == TrimEnd(s[..|s| - 1])
  {
  }

  /** `Number(String(n))` is `n` for every natural number. */
  lemma NumberOfDecimalText(n: nat)
    ensures ToNumber(Some(Str(NatToString(n)))) == n as real
  {
    StringToNumberDigits(NatToString(n));
  }

  /** `String(n)` writes a natural number as its decimal text. */
  lemma ToStrOfNat(n: nat)
    ensures ToStr(Some(Num(n as real))) == NatToString(n)
  {
    assert (n as real).Floor == n;
  }

  /** A non-empty run of digits is read by `Number` as its value. */
  lemma StringToNumberDigits(ds: string)
    requires ds != [] && forall i :: 0 <= i < |ds| ==> IsDigit(ds[i])
    ensures StringToNumber(ds) == DigitsValue(ds) as real
  {
    TrimStartNoSpace(ds);
    assert !IsSpace(ds[|ds| - 1]);
    assert Trim(ds) == ds;
    ScanUnsignedDigits(ds);
    assert Scan(ds) == ScanUnsigned(ds);
  }

  /** The number a text reads as in full once surrounding white space is dropped:
      `[sign] digits [. digits]`. The empty text and any other text give `None`. */
  function NumericText(s: string): Option<real> {
    var t := Trim(s);
    if t == "" then None
    else
      match Scan(t)
      case Some((v, used)) => if used == |t| then Some(v) else None
      case None => None
  }

  /** A non-empty run of digits reads in full as its value. */
  lemma NumericTextDigits(ds: string)
    requires ds != [] && forall i :: 0 <= i < |ds| ==> IsDigit(ds[i])
    ensures NumericText(ds) == Some(DigitsValue(ds) as real)
  {
    TrimStartNoSpace(ds);
    assert !IsSpace(ds[|ds| - 1]);
    assert Trim(ds) == ds;
    ScanUnsignedDigits(ds);
    assert Scan(ds) == ScanUnsigned(ds);
  }

  /** `Number(s)` for a string: surrounding white space is ignored, the empty string is 0,
      and text that is not entirely a number is NaN, modelled as 0. */
  function StringToNumber(s: string): real {
    var t := Trim(s);
    if t == "" then 0.0
    else
      match Scan(t)
      case Some((v, used)) => if used == |t| then v else 0.0
      case None => 0.0
  }

  /** Applies `f` to every element in order; `None` when one of them gives `None`. */
  function AllOrNone<A, B>(f: A -> Option<B>, xs: seq<A>): (r: Option<seq<B>>)
    ensures r.Some? <==> forall k :: 0 <= k < |xs| ==> f(xs[k]).Some?
    ensures r.Some? ==> |r.value| == |xs| && forall k :: 0 <= k < |xs| ==> r.value[k] == f(xs[k]).value
  {
    if xs == [] then Some([])
    else
      var first := f(xs[0]);
      var rest := AllOrNone(f, xs[1..]);
      assert forall k :: 1 <= k < |xs| ==> xs[1..][k - 1] == xs[k];
      if first.None? || rest.None? then None
      else
        var r := [first.value] + rest.value;
        assert forall k :: 1 <= k < |xs| ==> r[k] == rest.value[k - 1];
        Some(r)
  }

  /** Two functions that agree on every element give the same result. */
  lemma {:induction false} AllOrNoneAgree<A, B>(f: A -> Option<B>, g: A -> Option<B>, xs: seq<A>)
    requires forall k :: 0 <= k < |xs| ==> f(xs[k]) == g(xs[k])
    ensures AllOrNone(f, xs) == AllOrNone(g, xs)
  {
    if xs != [] {
      assert forall k :: 0 <= k < |xs[1..]| ==> xs[1..][k] == xs[k + 1];
      AllOrNoneAgree(f, g, xs[1..]);
    }
  }

  /** `Number(v)` with NaN modelled as 0. Arrays and objects are modelled as 0. */
  function ToNumber(v: Option<Value>): real {
    match v
    case None => 0.0
    case Some(Null) => 0.0
    case Some(Bool(b)) => if b then 1.0 else 0.0
    case Some(Num(n)) => n
    case Some(Str(s)) => StringToNumber(s)
    case Some(_) => 0.0
  }

  /** `String(v)` of an id. Numbers are written exactly when they are integers; any other
      number, array or object is reduced to a fixed text (see README). */
  function ToStr(v: Option<Value>): string {
    match v
    case None => "undefined"
    case Some(Null) => "null"
    case Some(Bool(b)) => if b then "true" else "false"
    case Some(Str(s)) => s
    case Some(Num(n)) => if n == n.Floor as real then IntToString(n.Floor) else "NaN"
    case Some(Arr(_)) => ""
    case Some(Obj(_)) => "[object Object]"
  }
}
