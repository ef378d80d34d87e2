/**
 * The JavaScript values a request body parses to, and the built-in operations the
 * controllers apply to them: truthiness, `typeof`, `String.prototype.trim`,
 * `split(",")`, template-literal rendering of a counter and `parseInt`.
 */
module Js {

  /** A parsed request body. `Undefined` is what reading an absent property yields. */
  datatype Value =
    | Undefined
    | Null
    | Bool(b: bool)
    | Num(n: real)
    | Str(s: string)
    | Arr(items: seq<Value>)
    | Obj(fields: map<string, Value>)

  datatype Option<T> = None | Some(value: T)

  /** `v.k` on a receiver that is neither null nor undefined, and `v?.k` on any receiver. */
  function Get(v: Value, k: string): Value
  {
    if v.Obj? && k in v.fields then v.fields[k] else Undefined
  }

  /** `v[k] = x` on an object; other receivers are left as they are. */
  function Set(v: Value, k: string, x: Value): Value
  {
    if v.Obj? then Obj(v.fields[k := x]) else v
  }

  /** Reading a property after writing one. */
  lemma GetSet(v: Value, k: string, x: Value, j: string)
    ensures Get(Set(v, k, x), j) == if v.Obj? && j == k then x else Get(v, j)
  {
  }

  /** The own properties of a body, as `$set` and `new Model(payload)` see them. */
  function Fields(v: Value): map<string, Value>
  {
    if v.Obj? then v.fields else map[]
  }

  /** `typeof v === "object"`, which holds of null and of arrays as well. */
  predicate IsObjectType(v: Value)
  {
    v.Null? || v.Arr? || v.Obj?
  }

  /** `typeof v === "object" && !Array.isArray(v)`, which holds of null as well. */
  predicate IsObjectNotArray(v: Value)
  {
    v.Null? || v.Obj?
  }

  /** An array of strings, as a Value. */
  function StringValues(ks: seq<string>): (vs: seq<Value>)
    ensures |vs| == |ks| && forall i :: 0 <= i < |ks| ==> vs[i] == Str(ks[i])
  {
    if ks == [] then [] else [Str(ks[0])] + StringValues(ks[1..])
  }

  /** ECMAScript ToBoolean (a parsed body holds no NaN). */
  predicate Truthy(v: Value)
  {
    match v
    case Undefined => false
    case Null => false
    case Bool(b) => b
    case Num(n) => n != 0.0
    case Str(s) => s != ""
    case Arr(_) => true
    case Obj(_) => true
  }

  // ---------------------------------------------------------------------------
  // trim

  /** The WhiteSpace and LineTerminator code points that `trim` and `parseInt` skip. */
  predicate IsWhiteSpace(c: char)
  {
    var n := c as int;
    (0x09 <= n <= 0x0D) || n == 0x20 || n == 0xA0 || n == 0x1680 ||
    (0x2000 <= n <= 0x200A) || n == 0x2028 || n == 0x2029 || n == 0x202F ||
    n == 0x205F || n == 0x3000 || n == 0xFEFF
  }

  /** Neither end of `s` is white space. */
  predicate IsTrimmed(s: string)
  {
    s == [] || (!IsWhiteSpace(s[0]) && !IsWhiteSpace(s[|s| - 1]))
  }

  /** `trimStart`: the suffix of `s` left after dropping its leading white space. */
  function TrimStart(s: string): (r: string)
    ensures |r| <= |s| && r == s[|s| - |r|..]
    ensures forall k :: 0 <= k < |s| - |r| ==> IsWhiteSpace(s[k])
    ensures r != [] ==> !IsWhiteSpace(r[0])
  {
    if s != [] && IsWhiteSpace(s[0]) then TrimStart(s[1..]) else s
  }

  /** `trimEnd`: the prefix of `s` left after dropping its trailing white space. */
  function TrimEnd(s: string): (r: string)
    ensures |r| <= |s| && r == s[..|r|]
    ensures forall k :: |r| <= k < |s| ==> IsWhiteSpace(s[k])
    ensures r != [] ==> !IsWhiteSpace(r[|r| - 1])
  {
    if s != [] && IsWhiteSpace(s[|s| - 1]) then TrimEnd(s[..|s| - 1]) else s
  }

  /** `trim`: the slice of `s` between its leading and its trailing white space. */
  function Trim(s: string): (r: string)
    ensures var i := |s| - |TrimStart(s)|; i + |r| <= |s| && r == s[i..i + |r|]
  {
    var t := TrimStart(s);
    var r := TrimEnd(t);
    SliceOfSlice(s, |s| - |t|, |r|);
    r
  }

  lemma SliceOfSlice(s: string, a: nat, n: nat)
    requires a <= |s| && n <= |s| - a
    ensures s[a..][..n] == s[a..a + n]
  {
  }

  /** What `trim` returns has white space at neither end. */
  lemma TrimIsTrimmed(s: string)
    ensures IsTrimmed(Trim(s))
  {
    TrimmedEnds(TrimStart(s), Trim(s));
  }

  /** Trimming the end of a string that starts with no white space leaves neither end white. */
  lemma TrimmedEnds(t: string, r: string)
    requires t == [] || !IsWhiteSpace(t[0])
    requires r == TrimEnd(t)
    ensures IsTrimmed(r)
  {
    if r != [] {
      assert r[0] == t[0];
    }
  }

  /** Trimming changes nothing when neither end is white space. */
  lemma TrimOfTrimmed(s: string)
    requires IsTrimmed(s)
    ensures Trim(s) == s
  {
    assert TrimStart(s) == s;
  }

  /** `trim` yields "" exactly when every character is white space. */
  lemma TrimEmptyIff(s: string)
    ensures Trim(s) == "" <==> forall k :: 0 <= k < |s| ==> IsWhiteSpace(s[k])
  {
    var t := TrimStart(s);
    if t != [] {
      assert t[0] == s[|s| - |t|];
    }
  }

  /** Every character of `s` is white space (so is the empty string). */
  predicate IsBlank(s: string)
  {
    forall k :: 0 <= k < |s| ==> IsWhiteSpace(s[k])
  }

  /**
   * `isNonEmptyString`: a string whose `trim()` is not empty, stated as "not blank";
   * `NonEmptyStringIff` proves the two agree.
   */
  predicate IsNonEmptyString(v: Value)
  {
    v.Str? && !IsBlank(v.s)
  }

  /** `isStringIfProvided`: absent, or a string. */
  predicate IsStringIfProvided(v: Value)
  {
    v.Undefined? || v.Str?
  }

  /** A string passes `isNonEmptyString` exactly when `trim` leaves something of it. */
  lemma NonEmptyStringIff(s: string)
    ensures IsNonEmptyString(Str(s)) <==> Trim(s) != ""
  {
    TrimEmptyIff(s);
  }

  // ---------------------------------------------------------------------------
  // split and the seo.keywords rewrite

  /** `s.split(sep)` for a one-character separator. */
  function Split(s: string, sep: char): (parts: seq<string>)
    ensures |parts| >= 1
    ensures forall i :: 0 <= i < |parts| ==> sep !in parts[i]
  {
    if s == [] then [""]
    else
      var rest := Split(s[1..], sep);
      if s[0] == sep then [""] + rest
      else [[s[0]] + rest[0]] + rest[1..]
  }

  /** `parts.join(sep)`. */
  function Join(parts: seq<string>, sep: char): string
    requires |parts| >= 1
  {
    if |parts| == 1 then parts[0] else parts[0] + [sep] + Join(parts[1..], sep)
  }

  /** Joining the pieces of a split gives back the string. */
  lemma {:induction false} JoinSplit(s: string, sep: char)
    ensures Join(Split(s, sep), sep) == s
  {
    if s != [] {
      var rest := Split(s[1..], sep);
      JoinSplit(s[1..], sep);
      if s[0] == sep {
        assert Split(s, sep)[1..] == rest;
      } else {
        var parts := Split(s, sep);
        if |rest| == 1 {
          assert parts == [[s[0]] + rest[0]];
        } else {
          assert parts[1..] == rest[1..];
          assert Join(rest, sep) == rest[0] + [sep] + Join(rest[1..], sep);
        }
      }
    }
  }

  /** Splitting a string whose head `p` holds no separator keeps `p` in front of the first piece. */
  lemma {:induction false} SplitAfterPlain(p: string, t: string, sep: char)
    requires sep !in p
    ensures Split(p + t, sep) == [p + Split(t, sep)[0]] + Split(t, sep)[1..]
  {
    if p != [] {
      assert (p + t)[1..] == p[1..] + t;
      SplitAfterPlain(p[1..], t, sep);
      assert [p[0]] + (p[1..] + Split(t, sep)[0]) == p + Split(t, sep)[0];
    } else {
      var parts := Split(t, sep);
      assert p + t == t;
      assert p + parts[0] == parts[0];
      assert [p + parts[0]] + parts[1..] == parts;
    }
  }

  /** Splitting the join of separator-free pieces gives back the pieces. */
  lemma {:induction false} SplitJoin(parts: seq<string>, sep: char)
    requires |parts| >= 1
    requires forall i :: 0 <= i < |parts| ==> sep !in parts[i]
    ensures Split(Join(parts, sep), sep) == parts
  {
    if |parts| == 1 {
      SplitAfterPlain(parts[0], [], sep);
      assert parts[0] + [] == parts[0];
      assert Split([], sep) == [""];
    } else {
      var tail := Join(parts[1..], sep);
      SplitJoin(parts[1..], sep);
      assert parts[0] + [sep] + tail == parts[0] + ([sep] + tail);
      SplitAfterPlain(parts[0], [sep] + tail, sep);
      assert ([sep] + tail)[0] == sep && ([sep] + tail)[1..] == tail;
      assert Split([sep] + tail, sep) == [""] + Split(tail, sep);
      assert parts[0] + "" == parts[0];
      assert parts == [parts[0]] + parts[1..];
    }
  }

  /** `.map((k) => k.trim())`: every part trimmed, in place. */
  function TrimEach(parts: seq<string>): (ts: seq<string>)
    ensures |ts| == |parts|
  {
    seq(|parts|, i requires 0 <= i < |parts| => Trim(parts[i]))
  }

  lemma TrimEachTrimmed(parts: seq<string>)
    ensures forall i :: 0 <= i < |parts| ==> IsTrimmed(TrimEach(parts)[i])
  {
    forall i | 0 <= i < |parts| ensures IsTrimmed(TrimEach(parts)[i]) {
      TrimIsTrimmed(parts[i]);
    }
  }

  /** `.filter(Boolean)` on strings: the non-empty ones, in their order. */
  function DropEmpty(ts: seq<string>): (ks: seq<string>)
    ensures |ks| <= |ts|
    ensures forall i :: 0 <= i < |ks| ==> ks[i] != "" && ks[i] in ts
  {
    if ts == [] then []
    else (if ts[0] == "" then [] else [ts[0]]) + DropEmpty(ts[1..])
  }

  /** Filtering part by part: the strings kept from `a + b` are those kept from `a`, then from `b`. */
  lemma {:induction false} DropEmptyAppend(a: seq<string>, b: seq<string>)
    ensures DropEmpty(a + b) == DropEmpty(a) + DropEmpty(b)
  {
    if a == [] {
      assert a + b == b;
    } else {
      assert (a + b)[0] == a[0] && (a + b)[1..] == a[1..] + b;
      DropEmptyAppend(a[1..], b);
    }
  }

  /** A string is kept exactly when it is non-empty and occurs in the input. */
  lemma {:induction false} DropEmptyMembers(ts: seq<string>)
    ensures forall k :: k in DropEmpty(ts) <==> k != "" && k in ts
  {
    if ts != [] {
      DropEmptyMembers(ts[1..]);
      assert ts == [ts[0]] + ts[1..];
    }
  }

  /** `.map((k) => k.trim()).filter(Boolean)`. */
  function TrimAndDropEmpty(parts: seq<string>): (ks: seq<string>)
    ensures |ks| <= |parts|
    ensures forall i :: 0 <= i < |ks| ==> ks[i] != "" && IsTrimmed(ks[i])
  {
    TrimEachTrimmed(parts);
    DropEmpty(TrimEach(parts))
  }

  /** One part is kept, trimmed, exactly when its trim is not empty. */
  lemma TrimAndDropEmptyOne(part: string)
    ensures TrimAndDropEmpty([part]) == if Trim(part) == "" then [] else [Trim(part)]
  {
    assert TrimEach([part]) == [Trim(part)];
    assert [Trim(part)][1..] == [];
  }

  /** The pieces of `a + b` are those of `a`, then those of `b`; with TrimAndDropEmptyOne, this fixes the order. */
  lemma TrimAndDropEmptyAppend(a: seq<string>, b: seq<string>)
    ensures TrimAndDropEmpty(a + b) == TrimAndDropEmpty(a) + TrimAndDropEmpty(b)
  {
    var ta, tb := TrimEach(a), TrimEach(b);
    forall i | 0 <= i < |a + b| ensures TrimEach(a + b)[i] == (ta + tb)[i] {
      if i < |a| {
        assert (a + b)[i] == a[i];
      } else {
        assert (a + b)[i] == b[i - |a|];
      }
    }
    assert TrimEach(a + b) == ta + tb;
    DropEmptyAppend(TrimEach(a), TrimEach(b));
  }

  /** A string is among the pieces exactly when it is non-empty and the trim of some part. */
  lemma TrimAndDropEmptyMembers(parts: seq<string>)
    ensures forall k :: k in TrimAndDropEmpty(parts) <==>
      k != "" && exists i :: 0 <= i < |parts| && Trim(parts[i]) == k
  {
    var ts := TrimEach(parts);
    DropEmptyMembers(ts);
    forall k ensures k in ts <==> exists i :: 0 <= i < |parts| && Trim(parts[i]) == k {
      if k in ts {
        var i :| 0 <= i < |ts| && ts[i] == k;
        assert Trim(parts[i]) == k;
      }
      if exists i :: 0 <= i < |parts| && Trim(parts[i]) == k {
        var i :| 0 <= i < |parts| && Trim(parts[i]) == k;
        assert ts[i] == k;
      }
    }
  }

  /** The comma-separated `seo.keywords` string rewritten into a list. */
  function SplitKeywords(s: string): (ks: seq<string>)
  {
    TrimAndDropEmpty(Split(s, ','))
  }

  /** Every keyword is non-empty, trimmed and free of commas. */
  lemma {:induction false} KeywordsWellFormed(s: string)
    ensures forall i :: 0 <= i < |SplitKeywords(s)| ==>
      var k := SplitKeywords(s)[i]; k != "" && IsTrimmed(k) && ',' !in k
  {
    var parts := Split(s, ',');
    TrimAndDropEmptyPlain(parts);
  }

  lemma TrimAndDropEmptyPlain(parts: seq<string>)
    requires forall i :: 0 <= i < |parts| ==> ',' !in parts[i]
    ensures forall i :: 0 <= i < |TrimAndDropEmpty(parts)| ==> ',' !in TrimAndDropEmpty(parts)[i]
  {
    var ts := TrimEach(parts);
    forall i | 0 <= i < |ts| ensures ',' !in ts[i] {
      TrimKeepsAbsent(parts[i], ',');
    }
    var ks := TrimAndDropEmpty(parts);
    forall i | 0 <= i < |ks| ensures ',' !in ks[i] {
      var j :| 0 <= j < |ts| && ts[j] == ks[i];
    }
  }

  /** Trimming never brings in a character the string did not hold. */
  lemma TrimKeepsAbsent(s: string, c: char)
    requires c !in s
    ensures c !in Trim(s)
  {
    var i := |s| - |TrimStart(s)|;
    var k := Trim(s);
    assert k == s[i..i + |k|];
    forall j | 0 <= j < |k| ensures k[j] != c {
      assert k[j] == s[i + j];
    }
  }

  /** Keywords that are non-empty, trimmed and comma-free survive a join and a split unchanged. */
  lemma {:induction false} KeywordsRoundTrip(ks: seq<string>)
    requires |ks| >= 1
    requires forall i :: 0 <= i < |ks| ==> ks[i] != "" && IsTrimmed(ks[i]) && ',' !in ks[i]
    ensures SplitKeywords(Join(ks, ',')) == ks
  {
    SplitJoin(ks, ',');
    TrimAndDropEmptyOfTrimmed(ks);
  }

  lemma TrimAndDropEmptyOfTrimmed(ks: seq<string>)
    requires forall i :: 0 <= i < |ks| ==> ks[i] != "" && IsTrimmed(ks[i])
    ensures TrimAndDropEmpty(ks) == ks
  {
    forall i | 0 <= i < |ks| ensures TrimEach(ks)[i] == ks[i] {
      TrimOfTrimmed(ks[i]);
    }
    assert TrimEach(ks) == ks;
    DropEmptyOfNonEmpty(ks);
  }

  lemma {:induction false} DropEmptyOfNonEmpty(ks: seq<string>)
    requires forall i :: 0 <= i < |ks| ==> ks[i] != ""
    ensures DropEmpty(ks) == ks
  {
    if ks != [] {
      DropEmptyOfNonEmpty(ks[1..]);
    }
  }

  // ---------------------------------------------------------------------------
  // Digits: `${counter}` and parseInt

  /** The value of a character as a digit in radices up to 36, or -1. */
  function DigitValue(c: char): int
  {
    if '0' <= c <= '9' then c as int - '0' as int
    else if 'a' <= c <= 'z' then c as int - 'a' as int + 10
    else if 'A' <= c <= 'Z' then c as int - 'A' as int + 10
    else -1
  }

  predicate IsRadixDigit(c: char, radix: nat)
  {
    0 <= DigitValue(c) < radix
  }

  /** The number a string of digits denotes in `radix`, most significant digit first. */
  function RadixValue(z: string, radix: nat): nat
    requires forall i :: 0 <= i < |z| ==> IsRadixDigit(z[i], radix)
  {
    if z == [] then 0
    else
      var init := z[..|z| - 1];
      assert forall i :: 0 <= i < |init| ==> init[i] == z[i];
      var d := DigitValue(z[|z| - 1]);
      assert 0 <= d by { assert IsRadixDigit(z[|z| - 1], radix); }
      var v := RadixValue(init, radix);
      assert radix * v >= 0 by { MulNat(radix, v); }
      radix * v + d
  }

  lemma MulNat(a: nat, b: nat)
    ensures a * b >= 0
  {
  }

  /** `${n}` for a natural number: its decimal digits, which denote `n`, with no leading zero. */
  function NatToString(n: nat): (s: string)
    ensures s != []
    ensures s[0] == '0' <==> n == 0
    ensures n == 0 ==> s == "0"
    ensures forall i :: 0 <= i < |s| ==> IsRadixDigit(s[i], 10)
    ensures RadixValue(s, 10) == n
  {
    var last := ('0' as int + n % 10) as char;
    if n < 10 then [last]
    else
      var s := NatToString(n / 10) + [last];
      assert s[..|s| - 1] == NatToString(n / 10);
      s
  }

  /** Distinct numbers render to distinct strings. */
  lemma NatToStringInjective(a: nat, b: nat)
    requires NatToString(a) == NatToString(b)
    ensures a == b
  {
  }

  /** The longest prefix of `s` made of digits in `radix`. */
  function DigitPrefix(s: string, radix: nat): (z: string)
    ensures |z| <= |s| && z == s[..|z|]
    ensures forall i :: 0 <= i < |z| ==> IsRadixDigit(z[i], radix)
    ensures |z| < |s| ==> !IsRadixDigit(s[|z|], radix)
  {
    if s != [] && IsRadixDigit(s[0], radix) then [s[0]] + DigitPrefix(s[1..], radix) else []
  }

  /** The digits after the sign: hexadecimal after "0x" or "0X", decimal otherwise; `None` is NaN. */
  function ParseDigits(u: string): (r: Option<int>)
    ensures r.Some? ==> r.value >= 0
  {
    if |u| >= 2 && u[0] == '0' && (u[1] == 'x' || u[1] == 'X') then
      var z := DigitPrefix(u[2..], 16);
      if z == [] then None else Some(RadixValue(z, 16))
    else
      var z := DigitPrefix(u, 10);
      if z == [] then None else Some(RadixValue(z, 10))
  }

  /**
   * `parseInt(s)` with no radix argument: skip leading white space, take one sign,
   * then read digits up to the first character that is not one; `None` stands for NaN.
   */
  function ParseInt(s: string): (r: Option<int>)
  {
    ParseSigned(TrimStart(s))
  }

  /** What parseInt reads once the leading white space is gone: one optional sign, then digits. */
  function ParseSigned(t: string): (r: Option<int>)
  {
    if t != [] && t[0] == '-' then
      match ParseDigits(t[1..])
      case None => None
      case Some(v) => Some(-v)
    else if t != [] && t[0] == '+' then ParseDigits(t[1..])
    else ParseDigits(t)
  }

  /** parseInt reads back the decimal rendering of every natural number, with or without a minus sign. */
  lemma {:induction false} ParseIntOfNatToString(n: nat)
    ensures ParseInt(NatToString(n)) == Some(n)
    ensures ParseInt("-" + NatToString(n)) == Some(-(n as int))
  {
    var s := NatToString(n);
    DecimalNotWhiteSpace(s[0]);
    ParseDigitsOfDecimal(s);
    ParseIntOfUnsigned(s, n);
    ParseIntOfNegated(s, n);
  }

  lemma ParseIntOfUnsigned(z: string, v: int)
    requires z != [] && !IsWhiteSpace(z[0]) && z[0] != '-' && z[0] != '+'
    requires ParseDigits(z) == Some(v)
    ensures ParseInt(z) == Some(v)
  {
    assert TrimStart(z) == z;
  }

  lemma ParseIntOfNegated(z: string, v: int)
    requires ParseDigits(z) == Some(v)
    ensures ParseInt("-" + z) == Some(-v)
  {
    var m := "-" + z;
    assert m[0] == '-' && m[1..] == z;
    assert TrimStart(m) == m;
  }

  lemma DecimalNotWhiteSpace(c: char)
    requires IsRadixDigit(c, 10)
    ensures !IsWhiteSpace(c) && c != '-' && c != '+'
  {
  }

  lemma ParseDigitsOfDecimal(z: string)
    requires z != []
    requires forall i :: 0 <= i < |z| ==> IsRadixDigit(z[i], 10)
    ensures ParseDigits(z) == Some(RadixValue(z, 10))
  {
    assert !(|z| >= 2 && (z[1] == 'x' || z[1] == 'X')) by {
      if |z| >= 2 { assert IsRadixDigit(z[1], 10); }
    }
    DigitPrefixOfDigits(z, 10);
  }

  lemma {:induction false} DigitPrefixOfDigits(z: string, radix: nat)
    requires forall i :: 0 <= i < |z| ==> IsRadixDigit(z[i], radix)
    ensures DigitPrefix(z, radix) == z
  {
    if z != [] {
      DigitPrefixOfDigits(z[1..], radix);
    }
  }

  /** Leading white space does not change what parseInt reads. */
  lemma {:induction false} ParseIntSkipsWhiteSpace(w: string, s: string)
    requires forall k :: 0 <= k < |w| ==> IsWhiteSpace(w[k])
    ensures ParseInt(w + s) == ParseInt(s)
  {
    TrimStartSkips(w, s);
  }

  lemma {:induction false} TrimStartSkips(w: string, s: string)
    requires forall k :: 0 <= k < |w| ==> IsWhiteSpace(w[k])
    ensures TrimStart(w + s) == TrimStart(s)
  {
    if w != [] {
      assert (w + s)[1..] == w[1..] + s;
      TrimStartSkips(w[1..], s);
    } else {
      assert w + s == s;
    }
  }
}
