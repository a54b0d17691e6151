/** The part of JavaScript's value semantics that the library leans on: truthiness,
    `typeof`, `String(v)`, `Number(v)` / `isNaN(v)`, `parseInt(v, 10)`, property reads
    and assignments, `Object.keys` and `Object.assign`.  Objects are ordered property
    lists, so that the key order every clause builder iterates in is kept. */
module Js {

  /** `throw new Error(message)` and the TypeErrors the engine raises. */
  datatype Error = Thrown(message: string) | TypeError(message: string)

  datatype Result<T> = Ok(value: T) | Err(error: Error)

  datatype Option<T> = None | Some(value: T)

  /** An object's own enumerable properties, in `Object.keys` order. */
  type Props = seq<(string, Val)>

  /** A JavaScript value.  Numbers are integers or NaN; arrays and dates may carry
      named (non-index) properties that were assigned onto them. */
  datatype Val =
    | Undef
    | Null
    | Bool(b: bool)
    | Num(n: int)
    | NaN
    | Str(s: string)
    | Arr(items: seq<Val>, named: Props)
    | DateObj(time: int, text: string, iso: string, named: Props)
    | Obj(props: Props)

  const NotAnObject := TypeError("Cannot convert undefined or null to object")

  // ---------------------------------------------------------------- truthiness and typeof

  /** `!!v` */
  predicate Truthy(v: Val) {
    match v
    case Undef => false
    case Null => false
    case Bool(b) => b
    case Num(n) => n != 0
    case NaN => false
    case Str(s) => s != ""
    case _ => true
  }

  /** `typeof v`.  Nothing is ever of type "date". */
  function TypeOf(v: Val): (t: string)
    ensures t in {"undefined", "boolean", "number", "string", "object"}
  {
    match v
    case Undef => "undefined"
    case Bool(_) => "boolean"
    case Num(_) => "number"
    case NaN => "number"
    case Str(_) => "string"
    case _ => "object"
  }

  /** `v && typeof v === 'object'`: a non-null object (plain object, array or Date). */
  predicate IsObject(v: Val) {
    v.Obj? || v.Arr? || v.DateObj?
  }

  /** Values whose properties can be read without a TypeError. */
  predicate Readable(v: Val) {
    !v.Undef? && !v.Null?
  }

  // ---------------------------------------------------------------- decimal text

  predicate IsDigit(c: char) {
    '0' <= c <= '9'
  }

  predicate AllDigits(s: string) {
    forall i :: 0 <= i < |s| ==> IsDigit(s[i])
  }

  function DigitValue(c: char): nat
    requires IsDigit(c)
  {
    c as int - '0' as int
  }

  function DigitChar(d: nat): (c: char)
    requires d < 10
    ensures IsDigit(c) && DigitValue(c) == d
  {
    ('0' as int + d) as char
  }

  /** Decimal text of a natural number, without leading zeros. */
  function NatText(n: nat): (s: string)
    ensures |s| > 0 && AllDigits(s)
    ensures s[0] == '0' <==> n == 0
    ensures n == 0 ==> s == "0"
    decreases n
  {
    if n < 10 then [DigitChar(n)] else NatText(n / 10) + [DigitChar(n % 10)]
  }

  /** `String(n)` for an integer. */
  function NumText(n: int): string {
    if n < 0 then "-" + NatText(-n) else NatText(n)
  }

  /** The value of a run of decimal digits. */
  function DigitsValue(s: string): nat
    requires AllDigits(s)
  {
    if s == "" then 0 else DigitsValue(s[..|s| - 1]) * 10 + DigitValue(s[|s| - 1])
  }

  lemma {:induction false} DigitsValueOfNatText(n: nat)
    ensures DigitsValue(NatText(n)) == n
    decreases n
  {
    if n >= 10 {
      DigitsValueOfNatText(n / 10);
      var s := NatText(n);
      assert s[..|s| - 1] == NatText(n / 10);
    }
  }

  // ---------------------------------------------------------------- whitespace and case

  /** The characters `String.prototype.trim` and `Number(s)` treat as white space
      (WhiteSpace and LineTerminator of ECMA-262). */
  predicate IsSpace(c: char) {
    || c == ' ' || c == '\t' || c == '\n' || c == '\r' || c == '\U{000B}' || c == '\U{000C}'
    || c == '\U{00A0}' || c == '\U{1680}' || ('\U{2000}' <= c <= '\U{200A}')
    || c == '\U{2028}' || c == '\U{2029}' || c == '\U{202F}' || c == '\U{205F}'
    || c == '\U{3000}' || c == '\U{FEFF}'
  }

  function TrimStart(s: string): (r: string)
    ensures |r| <= |s| && r == s[|s| - |r|..]
    ensures r == "" || !IsSpace(r[0])
  {
    if s != "" && IsSpace(s[0]) then TrimStart(s[1..]) else s
  }

  function TrimEnd(s: string): (r: string)
    ensures |r| <= |s| && r == s[..|r|]
    ensures r == "" || !IsSpace(r[|r| - 1])
  {
    if s != "" && IsSpace(s[|s| - 1]) then TrimEnd(s[..|s| - 1]) else s
  }

  function Trim(s: string): string {
    TrimEnd(TrimStart(s))
  }

  function LowerChar(c: char): char {
    if 'A' <= c <= 'Z' then (c as int + 32) as char else c
  }

  function UpperChar(c: char): char {
    if 'a' <= c <= 'z' then (c as int - 32) as char else c
  }

  /** `s.toLowerCase()`, on the ASCII letters. */
  function Lower(s: string): (r: string)
    ensures |r| == |s|
  {
    seq(|s|, i requires 0 <= i < |s| => LowerChar(s[i]))
  }

  /** `s.toUpperCase()`, on the ASCII letters. */
  function Upper(s: string): (r: string)
    ensures |r| == |s|
  {
    seq(|s|, i requires 0 <= i < |s| => UpperChar(s[i]))
  }

  // ---------------------------------------------------------------- String(v) and Number(v)

  /** `parts.join(sep)` */
  function Join(parts: seq<string>, sep: string): string {
    if |parts| == 0 then ""
    else if |parts| == 1 then parts[0]
    else parts[0] + sep + Join(parts[1..], sep)
  }

  /** How `Array.prototype.join` writes one element: null and undefined are empty. */
  function ElementText(v: Val): string
    decreases v, 1
  {
    if v.Undef? || v.Null? then "" else ToText(v)
  }

  /** `String(v)`, which is also what a template literal `${v}` splices in. */
  function ToText(v: Val): string
    decreases v, 0
  {
    match v
    case Undef => "undefined"
    case Null => "null"
    case Bool(b) => if b then "true" else "false"
    case Num(n) => NumText(n)
    case NaN => "NaN"
    case Str(s) => s
    case Arr(items, _) => Join(seq(|items|, i requires 0 <= i < |items| => ElementText(items[i])), ",")
    case DateObj(_, text, _, _) => text
    case Obj(_) => "[object Object]"
  }

  /** `Number(s)` for a string: white space around an optionally signed run of decimal
      digits, or nothing but white space (which is 0).  None stands for NaN. */
  function StringToNumber(s: string): Option<int> {
    var t := Trim(s);
    if t == "" then Some(0)
    else if AllDigits(t) then Some(DigitsValue(t))
    else if |t| > 1 && (t[0] == '-' || t[0] == '+') && AllDigits(t[1..]) then
      var magnitude: int := DigitsValue(t[1..]);
      Some(if t[0] == '-' then -magnitude else magnitude)
    else None
  }

  /** `Number(v)`; None stands for NaN. */
  function ToNumber(v: Val): Option<int> {
    match v
    case Undef => None
    case Null => Some(0)
    case Bool(b) => Some(if b then 1 else 0)
    case Num(n) => Some(n)
    case NaN => None
    case Str(s) => StringToNumber(s)
    case Arr(_, _) => StringToNumber(ToText(v))
    case DateObj(t, _, _, _) => Some(t)
    case Obj(_) => None
  }

  /** `isNaN(v)` */
  predicate IsNaN(v: Val) {
    ToNumber(v).None?
  }

  /** `Number(v)` as a value. */
  function NumberOf(v: Val): (r: Val)
    ensures r.Num? || r.NaN?
  {
    match ToNumber(v)
    case Some(n) => Num(n)
    case None => NaN
  }

  /** The longest prefix of `s` made of decimal digits. */
  function LeadingDigits(s: string): (d: string)
    ensures d <= s && AllDigits(d)
    ensures |d| < |s| ==> !IsDigit(s[|d|])
  {
    if s != "" && IsDigit(s[0]) then [s[0]] + LeadingDigits(s[1..]) else ""
  }

  /** `parseInt(v, 10)` */
  function ParseInt(v: Val): (r: Val)
    ensures r.Num? || r.NaN?
  {
    ParseIntText(ToText(v))
  }

  /** `parseInt(s, 10)` for a string: leading white space, an optional sign, and the
      longest run of digits that follows; NaN when there is none. */
  function ParseIntText(s: string): (r: Val)
    ensures r.Num? || r.NaN?
  {
    var t := TrimStart(s);
    var signed := t != "" && (t[0] == '-' || t[0] == '+');
    var d := LeadingDigits(if signed then t[1..] else t);
    var magnitude: int := DigitsValue(d);
    if d == "" then NaN
    else if signed && t[0] == '-' then Num(-magnitude)
    else Num(magnitude)
  }

  lemma DigitIsNotSpace(c: char)
    requires c == '-' || IsDigit(c)
    ensures !IsSpace(c)
  {
  }

  lemma {:induction false} TrimOfNumText(n: int)
    ensures TrimStart(NumText(n)) == NumText(n) && TrimEnd(NumText(n)) == NumText(n)
  {
    var s := NumText(n);
    var d := NatText(if n < 0 then -n else n);
    assert s == if n < 0 then "-" + d else d;
    assert s[|s| - 1] == d[|d| - 1];
    DigitIsNotSpace(s[0]);
    DigitIsNotSpace(s[|s| - 1]);
  }

  /** `Number(String(n)) === n`: the decimal text of an integer reads back as that integer. */
  lemma NumberOfNumText(n: int)
    ensures StringToNumber(NumText(n)) == Some(n)
    ensures ToNumber(Str(NumText(n))) == Some(n)
  {
    if n < 0 {
      NumberOfNegativeText(n);
    } else {
      NumberOfNatText(n);
    }
  }

  lemma NumberOfNatText(n: nat)
    ensures StringToNumber(NumText(n)) == Some(n)
  {
    var s := NumText(n);
    assert s == NatText(n);
    TrimOfNumText(n);
    assert Trim(s) == s;
    DigitsValueOfNatText(n);
  }

  lemma NumberOfNegativeText(n: int)
    requires n < 0
    ensures StringToNumber(NumText(n)) == Some(n)
  {
    var d := NatText(-n);
    var s := NumText(n);
    assert s == "-" + d;
    TrimOfNumText(n);
    assert Trim(s) == s;
    assert !IsDigit(s[0]);
    assert !AllDigits(s);
    assert s[1..] == d;
    DigitsValueOfNatText(-n);
  }

  /** `parseInt(String(n), 10) === n`. */
  lemma ParseIntOfNumText(n: int)
    ensures ParseIntText(NumText(n)) == Num(n)
    ensures ParseInt(Str(NumText(n))) == Num(n)
  {
    TrimOfNumText(n);
    if n < 0 {
      ParseIntOfNegativeText(n);
    } else {
      ParseIntOfNatText(n);
    }
  }

  lemma ParseIntOfNatText(n: nat)
    ensures ParseIntText(NatText(n)) == Num(n)
  {
    ParseIntOfDigits(NatText(n));
    DigitsValueOfNatText(n);
  }

  lemma ParseIntOfNegativeText(n: int)
    requires n < 0
    ensures ParseIntText(NumText(n)) == Num(n)
  {
    var d := NatText(-n);
    var s := NumText(n);
    assert s == "-" + d;
    ParseIntOfSignedDigits(s, d);
    DigitsValueOfNatText(-n);
    assert DigitsValue(d) == -n;
  }

  /** `parseInt` of a run of digits is their value. */
  lemma ParseIntOfDigits(s: string)
    requires s != "" && AllDigits(s)
    ensures ParseIntText(s) == Num(DigitsValue(s))
  {
    DigitIsNotSpace(s[0]);
    assert TrimStart(s) == s;
    LeadingDigitsOfDigits(s);
  }

  /** `parseInt` of a minus sign and a run of digits is their negated value. */
  lemma ParseIntOfSignedDigits(s: string, d: string)
    requires s == "-" + d && d != "" && AllDigits(d)
    ensures ParseIntText(s) == Num(-(DigitsValue(d) as int))
  {
    DigitIsNotSpace(s[0]);
    assert TrimStart(s) == s;
    assert s[1..] == d;
    LeadingDigitsOfDigits(d);
  }

  /** `parseInt` of a text that starts with neither white space, a sign nor a digit is NaN. */
  lemma ParseIntOfNonDigit(s: string)
    requires s != "" && !IsSpace(s[0]) && !IsDigit(s[0]) && s[0] != '-' && s[0] != '+'
    ensures ParseIntText(s) == NaN
  {
    assert TrimStart(s) == s;
    assert LeadingDigits(s) == "";
  }

  lemma {:induction false} LeadingDigitsOfDigits(s: string)
    requires AllDigits(s)
    ensures LeadingDigits(s) == s
  {
    if s != "" {
      LeadingDigitsOfDigits(s[1..]);
    }
  }

  // ---------------------------------------------------------------- properties

  function Keys(p: Props): (ks: seq<string>)
    ensures |ks| == |p| && forall i :: 0 <= i < |p| ==> ks[i] == p[i].0
  {
    seq(|p|, i requires 0 <= i < |p| => p[i].0)
  }

  /** `obj[k]` on a property list: the value of the key, or undefined. */
  function Lookup(p: Props, k: string): Val {
    if |p| == 0 then Undef
    else if p[0].0 == k then p[0].1
    else Lookup(p[1..], k)
  }

  /** `obj[k] = x`: an existing key keeps its place, a new key goes last. */
  function PutProp(p: Props, k: string, x: Val): (r: Props)
    ensures k in Keys(p) ==> Keys(r) == Keys(p)
    ensures k !in Keys(p) ==> Keys(r) == Keys(p) + [k]
  {
    if |p| == 0 then [(k, x)]
    else if p[0].0 == k then [(k, x)] + p[1..]
    else [p[0]] + PutProp(p[1..], k, x)
  }

  lemma {:induction false} LookupPutProp(p: Props, k: string, x: Val, j: string)
    ensures Lookup(PutProp(p, k, x), j) == if j == k then x else Lookup(p, j)
  {
    if |p| > 0 && p[0].0 != k {
      LookupPutProp(p[1..], k, x, j);
    }
  }

  /** A key whose value is not undefined is one of the keys. */
  lemma {:induction false} LookupDefined(p: Props, k: string)
    requires Lookup(p, k) != Undef
    ensures k in Keys(p)
  {
    if p[0].0 != k {
      LookupDefined(p[1..], k);
      assert Keys(p) == [p[0].0] + Keys(p[1..]);
    }
  }

  /** Where the value `Lookup` finds sits in the list. */
  function FirstIndex(p: Props, k: string): (j: nat)
    requires k in Keys(p)
    ensures j < |p| && p[j].0 == k && p[j].1 == Lookup(p, k)
  {
    if p[0].0 == k then 0
    else
      assert k in Keys(p[1..]) by {
        var i :| 0 <= i < |p| && Keys(p)[i] == k;
        assert Keys(p[1..])[i - 1] == k;
      }
      1 + FirstIndex(p[1..], k)
  }

  /** Lookup passes over the first `n` entries when none of them has the key. */
  lemma {:induction false} LookupSkip(p: Props, k: string, n: nat)
    requires n <= |p| && forall i | 0 <= i < n :: p[i].0 != k
    ensures Lookup(p, k) == Lookup(p[n..], k)
  {
    if n > 0 {
      LookupSkip(p[1..], k, n - 1);
      assert p[1..][n - 1..] == p[n..];
    }
  }

  /** A key that is a canonical array index ("0", "1", ... without leading zeros). */
  function IndexKey(k: string): Option<nat> {
    if k != "" && AllDigits(k) && (k[0] != '0' || |k| == 1) then Some(DigitsValue(k)) else None
  }

  /** `Object.keys(v).map(k => [k, v[k]])`, for a value that is not undefined or null. */
  function OwnEntries(v: Val): Props {
    match v
    case Obj(p) => p
    case Arr(items, named) => seq(|items|, i requires 0 <= i < |items| => (NatText(i), items[i])) + named
    case DateObj(_, _, _, named) => named
    case Str(s) => seq(|s|, i requires 0 <= i < |s| => (NatText(i), Str([s[i]])))
    case _ => []
  }

  /** `v[k]`, for a value whose properties can be read.  Only own properties are
      modelled (no `length`, no prototype members). */
  function Get(v: Val, k: string): Val
    requires Readable(v)
  {
    match v
    case Obj(p) => Lookup(p, k)
    case Arr(items, named) =>
      (match IndexKey(k)
       case Some(i) => if i < |items| then items[i] else Lookup(named, k)
       case None => Lookup(named, k))
    case DateObj(_, _, _, named) => Lookup(named, k)
    case Str(s) =>
      (match IndexKey(k)
       case Some(i) => if i < |s| then Str([s[i]]) else Undef
       case None => Undef)
    case _ => Undef
  }

  /** `v[k] = x` on an object, for a key that is not an array index. */
  function SetProp(v: Val, k: string, x: Val): (r: Val)
    requires IsObject(v) && IndexKey(k).None?
    ensures IsObject(r)
  {
    match v
    case Obj(p) => Obj(PutProp(p, k, x))
    case Arr(items, named) => Arr(items, PutProp(named, k, x))
    case DateObj(t, text, iso, named) => DateObj(t, text, iso, PutProp(named, k, x))
  }

  /** Assigns the entries one by one, left to right. */
  function PutAll(p: Props, es: Props): Props
    decreases |es|
  {
    if |es| == 0 then p else PutAll(PutProp(p, es[0].0, es[0].1), es[1..])
  }

  /** A key that does not start with a digit is never an array index. */
  lemma NamedKey(k: string)
    requires k != "" && !IsDigit(k[0])
    ensures IndexKey(k).None?
  {
  }

  /** A second assignment to the same key wins outright. */
  lemma {:induction false} PutPropOverwrite(p: Props, k: string, x: Val, y: Val)
    ensures PutProp(PutProp(p, k, x), k, y) == PutProp(p, k, y)
  {
    if |p| > 0 && p[0].0 != k {
      PutPropOverwrite(p[1..], k, x, y);
      assert ([p[0]] + PutProp(p[1..], k, x))[1..] == PutProp(p[1..], k, x);
    }
  }

  /** Assigning a key the object does not have yet appends it. */
  lemma {:induction false} PutPropNew(p: Props, k: string, x: Val)
    requires k !in Keys(p)
    ensures PutProp(p, k, x) == p + [(k, x)]
  {
    if |p| > 0 {
      assert Keys(p)[0] == p[0].0;
      assert Keys(p[1..]) == Keys(p)[1..];
      PutPropNew(p[1..], k, x);
      assert p == [p[0]] + p[1..];
    }
  }

  lemma KeysAppend(a: Props, b: Props)
    ensures Keys(a + b) == Keys(a) + Keys(b)
  {
  }

  lemma SetPropGet(v: Val, k: string, x: Val)
    requires IsObject(v) && IndexKey(k).None?
    ensures Get(SetProp(v, k, x), k) == x
  {
    match v
    case Obj(p) => LookupPutProp(p, k, x, k);
    case Arr(items, named) => LookupPutProp(named, k, x, k);
    case DateObj(_, _, _, named) => LookupPutProp(named, k, x, k);
  }

  /** Assigning a named key onto an object makes it an own key, keeps every other key,
      and leaves every other property as it was. */
  lemma SetPropKeys(v: Val, k: string, x: Val, j: string)
    requires IsObject(v) && IndexKey(k).None?
    ensures k in Keys(OwnEntries(SetProp(v, k, x)))
    ensures j in Keys(OwnEntries(v)) ==> j in Keys(OwnEntries(SetProp(v, k, x)))
    ensures j != k ==> Get(SetProp(v, k, x), j) == Get(v, j)
  {
    match v {
      case Obj(p) =>
        LookupPutProp(p, k, x, j);
      case Arr(items, named) =>
        var idx := seq(|items|, i requires 0 <= i < |items| => (NatText(i), items[i]));
        KeysAppend(idx, named);
        KeysAppend(idx, PutProp(named, k, x));
        LookupPutProp(named, k, x, j);
      case DateObj(_, _, _, named) =>
        LookupPutProp(named, k, x, j);
    }
  }

  /** The value `k` ends up with when the entries are assigned in order onto a value `d`:
      the last assignment to `k` wins. */
  function Final(es: Props, k: string, d: Val): Val
    decreases |es|
  {
    if |es| == 0 then d else Final(es[1..], k, if es[0].0 == k then es[0].1 else d)
  }

  /** Assigning entries one by one leaves each key with its last assigned value, and
      every other key as it was. */
  lemma {:induction false} LookupPutAll(p: Props, es: Props, k: string)
    ensures Lookup(PutAll(p, es), k) == Final(es, k, Lookup(p, k))
    decreases |es|
  {
    if |es| > 0 {
      LookupPutProp(p, es[0].0, es[0].1, k);
      LookupPutAll(PutProp(p, es[0].0, es[0].1), es[1..], k);
    }
  }

  /** A key none of the entries assigns keeps its value. */
  lemma {:induction false} FinalAbsent(es: Props, k: string, d: Val)
    requires k !in Keys(es)
    ensures Final(es, k, d) == d
    decreases |es|
  {
    if |es| > 0 {
      assert Keys(es)[0] == es[0].0;
      assert Keys(es[1..]) == Keys(es)[1..];
      FinalAbsent(es[1..], k, d);
    }
  }

  /** `Object.assign(target, src)` for one source: undefined and null sources are skipped. */
  function Assign(target: Props, src: Val): Props {
    if src.Undef? || src.Null? then target else PutAll(target, OwnEntries(src))
  }

  /** A mutable plain object, such as the options object every operation receives and
      updates in place. */
  class JsObject {
    var props: Props

    constructor (props: Props)
      ensures this.props == props
    {
      this.props := props;
    }

    /** `this[k]` */
    function Read(k: string): Val
      reads this
    {
      Lookup(props, k)
    }

    /** `this[k] = x` */
    method Put(k: string, x: Val)
      modifies this
      ensures props == PutProp(old(props), k, x)
    {
      props := PutProp(props, k, x);
    }
  }
}
