/** Option, the one wrapper the model needs for values the source leaves
    `undefined` or `null`, and JavaScript's reading of an optional string. */
module Wrappers {
  datatype Option<+T> = None | Some(value: T) {
    function GetOr(default: T): T {
      match this
      case Some(v) => v
      case None => default
    }
  }

  /** JavaScript truthiness of an optional string. */
  predicate Truthy(o: Option<string>) {
    o.Some? && o.value != ""
  }

  /** `a || b` on optional strings. */
  function OrElse(a: Option<string>, b: string): (r: string)
    ensures Truthy(a) ==> r == a.value
    ensures !Truthy(a) ==> r == b
  {
    if Truthy(a) then a.value else b
  }

  /** `${value}` of an optional string. */
  function Shown(o: Option<string>): string {
    if o.Some? then o.value else "undefined"
  }
}

/** String helpers with the meaning JavaScript gives them: `includes`,
    `startsWith`, `join`, `split` on one character, `toLowerCase` and
    `toUpperCase` (ASCII letters only) and number-to-text conversion. */
module Text {

  /** `s.startsWith(p)` */
  predicate StartsWith(s: string, p: string) {
    |p| <= |s| && s[..|p|] == p
  }

  /** `s.includes(sub)`: `sub` occurs at some position of `s` (the empty
      string occurs everywhere). */
  predicate Contains(s: string, sub: string) {
    exists i | 0 <= i <= |s| - |sub| :: OccursAt(s, sub, i)
  }

  predicate OccursAt(s: string, sub: string, i: int) {
    0 <= i <= |s| - |sub| && s[i..i + |sub|] == sub
  }

  lemma ContainsEmpty(s: string)
    ensures Contains(s, "")
  {
    assert OccursAt(s, "", 0);
  }

  /** Whatever sits between `a` and `c` occurs in `a + b + c`. */
  lemma ContainsMiddle(a: string, b: string, c: string)
    ensures Contains(a + b + c, b)
  {
    var s := a + b + c;
    assert s[|a|..|a| + |b|] == b;
    assert OccursAt(s, b, |a|);
  }

  lemma ContainsSelf(s: string)
    ensures Contains(s, s)
  {
    assert s[0..|s|] == s;
    assert OccursAt(s, s, 0);
  }

  /** What occurs in `a` occurs in `a + b`. */
  lemma ContainsLeft(a: string, b: string, sub: string)
    requires Contains(a, sub)
    ensures Contains(a + b, sub)
  {
    var i :| 0 <= i <= |a| - |sub| && OccursAt(a, sub, i);
    assert (a + b)[i..i + |sub|] == a[i..i + |sub|];
    assert OccursAt(a + b, sub, i);
  }

  /** What occurs in `b` occurs in `a + b`. */
  lemma ContainsRight(a: string, b: string, sub: string)
    requires Contains(b, sub)
    ensures Contains(a + b, sub)
  {
    var i :| 0 <= i <= |b| - |sub| && OccursAt(b, sub, i);
    assert (a + b)[|a| + i..|a| + i + |sub|] == b[i..i + |sub|];
    assert OccursAt(a + b, sub, |a| + i);
  }

  /** The second of four parts occurs in their concatenation. */
  lemma ContainsSecondOfFour(a: string, b: string, c: string, d: string)
    ensures Contains(a + b + c + d, b)
  {
    ContainsMiddle(a, b, c);
    ContainsLeft(a + b + c, d, b);
  }

  /** A suffix occurs in the whole. */
  lemma ContainsSuffix(a: string, b: string)
    ensures Contains(a + b, b)
  {
    ContainsSelf(b);
    ContainsRight(a, b, b);
  }

  /** Concatenation is associative. */
  lemma AppendAssoc<T>(x: seq<T>, y: seq<T>, z: seq<T>)
    ensures x + (y + z) == (x + y) + z
  {
  }

  /** `s.map(f).join("")` */
  function ConcatMap<T>(s: seq<T>, f: T -> string): string
    decreases |s|
  {
    if |s| == 0 then "" else f(s[0]) + ConcatMap(s[1..], f)
  }

  lemma {:induction false} ConcatMapAppend<T>(a: seq<T>, b: seq<T>, f: T -> string)
    ensures ConcatMap(a + b, f) == ConcatMap(a, f) + ConcatMap(b, f)
    decreases |a|
  {
    if |a| == 0 {
      assert a + b == b;
    } else {
      assert (a + b)[0] == a[0];
      assert (a + b)[1..] == a[1..] + b;
      ConcatMapAppend(a[1..], b, f);
      AppendAssoc(f(a[0]), ConcatMap(a[1..], f), ConcatMap(b, f));
    }
  }

  lemma ConcatMapSingle<T>(x: T, f: T -> string)
    ensures ConcatMap([x], f) == f(x)
  {
    assert [x][1..] == [];
  }

  /** Each part occurs in the concatenation. */
  lemma {:induction false} ConcatMapContains<T>(s: seq<T>, f: T -> string, k: int)
    requires 0 <= k < |s|
    ensures Contains(ConcatMap(s, f), f(s[k]))
    decreases |s|
  {
    if k == 0 {
      ContainsSelf(f(s[0]));
      ContainsLeft(f(s[0]), ConcatMap(s[1..], f), f(s[0]));
    } else {
      ConcatMapContains(s[1..], f, k - 1);
      ContainsRight(f(s[0]), ConcatMap(s[1..], f), f(s[k]));
    }
  }

  /** A substring of a substring is a substring. */
  lemma ContainsTransitive(s: string, mid: string, sub: string)
    requires Contains(s, mid) && Contains(mid, sub)
    ensures Contains(s, sub)
  {
    var i :| 0 <= i <= |s| - |mid| && OccursAt(s, mid, i);
    var j :| 0 <= j <= |mid| - |sub| && OccursAt(mid, sub, j);
    forall k | 0 <= k < |sub|
      ensures s[i + j + k] == sub[k]
    {
      assert s[i + j + k] == s[i..i + |mid|][j + k];
      assert mid[j + k] == mid[j..j + |sub|][k];
    }
    assert s[i + j..i + j + |sub|] == sub;
    assert OccursAt(s, sub, i + j);
  }

  function LowerChar(c: char): char {
    if 'A' <= c <= 'Z' then (c as int + 32) as char else c
  }

  function UpperChar(c: char): char {
    if 'a' <= c <= 'z' then (c as int - 32) as char else c
  }

  /** `toLowerCase()`, restricted to the ASCII letters. */
  function Lower(s: string): (r: string)
    ensures |r| == |s|
    ensures forall i :: 0 <= i < |s| ==> r[i] == LowerChar(s[i])
  {
    seq(|s|, i requires 0 <= i < |s| => LowerChar(s[i]))
  }

  /** `toUpperCase()`, restricted to the ASCII letters. */
  function Upper(s: string): (r: string)
    ensures |r| == |s|
    ensures forall i :: 0 <= i < |s| ==> r[i] == UpperChar(s[i])
  {
    seq(|s|, i requires 0 <= i < |s| => UpperChar(s[i]))
  }

  /** `parts.join(sep)`: the empty array joins to the empty string. */
  function Join(parts: seq<string>, sep: string): string
    decreases |parts|
  {
    if |parts| == 0 then ""
    else if |parts| == 1 then parts[0]
    else parts[0] + sep + Join(parts[1..], sep)
  }

  /** A character in neither the parts nor the separator is not in the join. */
  lemma {:induction false} JoinAvoids(parts: seq<string>, sep: string, c: char)
    requires c !in sep
    requires forall k :: 0 <= k < |parts| ==> c !in parts[k]
    ensures c !in Join(parts, sep)
    decreases |parts|
  {
    if |parts| > 1 {
      JoinAvoids(parts[1..], sep, c);
    }
  }

  /** Every part occurs in the join. */
  lemma {:induction false} JoinContains(parts: seq<string>, sep: string, k: int)
    requires 0 <= k < |parts|
    ensures Contains(Join(parts, sep), parts[k])
    decreases |parts|
  {
    if |parts| == 1 {
      ContainsMiddle("", parts[0], "");
      assert "" + parts[0] + "" == parts[0];
    } else {
      var rest := Join(parts[1..], sep);
      assert Join(parts, sep) == parts[0] + sep + rest;
      if k == 0 {
        ContainsMiddle("", parts[0], sep + rest);
        assert "" + parts[0] + (sep + rest) == Join(parts, sep);
      } else {
        JoinContains(parts[1..], sep, k - 1);
        ContainsRight(parts[0] + sep, rest, parts[k]);
      }
    }
  }

  /** Position of the first `c` in `s`, or `|s|` when there is none. */
  function IndexOf(s: string, c: char): (i: nat)
    ensures i <= |s|
    ensures i < |s| ==> s[i] == c
    ensures forall j :: 0 <= j < i ==> s[j] != c
  {
    if |s| == 0 then 0
    else if s[0] == c then 0
    else 1 + IndexOf(s[1..], c)
  }

  /** `s.split(c)` for a one-character separator: always at least one part. */
  function Split(s: string, c: char): (parts: seq<string>)
    ensures |parts| >= 1
    decreases |s|
  {
    var i := IndexOf(s, c);
    if i == |s| then [s] else [s[..i]] + Split(s[i + 1..], c)
  }

  /** Splitting a joined list at its separator gives the list back, as long
      as no part contains the separator. */
  lemma {:induction false} SplitJoin(parts: seq<string>, c: char)
    requires |parts| >= 1
    requires forall k :: 0 <= k < |parts| ==> c !in parts[k]
    ensures Split(Join(parts, [c]), c) == parts
    decreases |parts|
  {
    var p := parts[0];
    if |parts| > 1 {
      var rest := Join(parts[1..], [c]);
      var s := p + [c] + rest;
      assert Join(parts, [c]) == s;
      IndexOfPrefix(p, c, rest);
      assert s[..|p|] == p;
      assert s[|p| + 1..] == rest;
      SplitJoin(parts[1..], c);
    }
  }

  lemma IndexOfPrefix(p: string, c: char, rest: string)
    requires c !in p
    ensures IndexOf(p + [c] + rest, c) == |p|
  {
    var s := p + [c] + rest;
    assert s[|p|] == c;
    assert forall j :: 0 <= j < |p| ==> s[j] == p[j];
  }

  /** Decimal digits of a natural number, as `${n}` prints it. */
  function NatToString(n: nat): (r: string)
    ensures |r| >= 1
    ensures forall i :: 0 <= i < |r| ==> '0' <= r[i] <= '9'
    decreases n
  {
    if n < 10 then [DigitChar(n)] else NatToString(n / 10) + [DigitChar(n % 10)]
  }

  function DigitChar(d: nat): (c: char)
    requires d < 10
    ensures '0' <= c <= '9'
  {
    ('0' as int + d) as char
  }

  /** `${n}` for an integer. */
  function IntToString(n: int): string {
    if n < 0 then "-" + NatToString(-n) else NatToString(n)
  }

  /** The value of a string of decimal digits. */
  function DigitsValue(s: string): nat
    requires forall i :: 0 <= i < |s| ==> '0' <= s[i] <= '9'
    decreases |s|
  {
    if |s| == 0 then 0
    else 10 * DigitsValue(s[..|s| - 1]) + (s[|s| - 1] as int - '0' as int)
  }

  /** Reading back the digits `NatToString` prints gives the number. */
  lemma {:induction false} NatToStringValue(n: nat)
    ensures DigitsValue(NatToString(n)) == n
    decreases n
  {
    var r := NatToString(n);
    if n >= 10 {
      NatToStringValue(n / 10);
      assert r[..|r| - 1] == NatToString(n / 10);
    }
  }

  /** `n.toLocaleString()` for a whole number in the en-US locale: digits in
      groups of three separated by commas. */
  function Grouped(n: nat): (r: string)
    ensures |r| >= 1
    decreases n
  {
    if n < 1000 then NatToString(n)
    else Grouped(n / 1000) + "," + ThreeDigits(n % 1000)
  }

  function ThreeDigits(n: nat): (r: string)
    requires n < 1000
    ensures |r| == 3
    ensures forall i :: 0 <= i < 3 ==> '0' <= r[i] <= '9'
    ensures DigitsValue(r) == n
  {
    var r := [DigitChar(n / 100), DigitChar(n / 10 % 10), DigitChar(n % 10)];
    assert r[..2][..1] == [DigitChar(n / 100)];
    assert r[..2][..1][..0] == "";
    assert DigitsValue(r[..2][..1]) == n / 100;
    assert DigitsValue(r[..2]) == 10 * (n / 100) + n / 10 % 10;
    r
  }

  function LocaleInt(n: int): string {
    if n < 0 then "-" + Grouped(-n) else Grouped(n)
  }

  /** Dropping the commas from the grouped rendering gives the digits that
      read back as the number. */
  lemma {:induction false} GroupedValue(n: nat)
    ensures forall i :: 0 <= i < |Ungroup(Grouped(n))| ==> '0' <= Ungroup(Grouped(n))[i] <= '9'
    ensures DigitsValue(Ungroup(Grouped(n))) == n
    decreases n
  {
    if n < 1000 {
      UngroupDigits(NatToString(n));
      NatToStringValue(n);
    } else {
      var hi := Grouped(n / 1000);
      var lo := ThreeDigits(n % 1000);
      GroupedValue(n / 1000);
      UngroupJoin(hi, lo);
      DigitsValueAppend(Ungroup(hi), lo);
      assert Pow10(3) == 1000;
    }
  }

  lemma UngroupJoin(hi: string, lo: string)
    requires forall i :: 0 <= i < |lo| ==> '0' <= lo[i] <= '9'
    ensures Ungroup(hi + "," + lo) == Ungroup(hi) + lo
  {
    var tail := "," + lo;
    assert hi + "," + lo == hi + tail;
    UngroupAppend(hi, tail);
    assert tail[0] == ',' && tail[1..] == lo;
    assert Ungroup(tail) == Ungroup(lo);
    UngroupDigits(lo);
  }

  /** The string without its commas. */
  function Ungroup(s: string): string
    decreases |s|
  {
    if |s| == 0 then ""
    else (if s[0] == ',' then "" else [s[0]]) + Ungroup(s[1..])
  }

  lemma {:induction false} UngroupAppend(a: string, b: string)
    ensures Ungroup(a + b) == Ungroup(a) + Ungroup(b)
    decreases |a|
  {
    if |a| > 0 {
      assert (a + b)[0] == a[0];
      assert (a + b)[1..] == a[1..] + b;
      UngroupAppend(a[1..], b);
      AppendAssoc(if a[0] == ',' then "" else [a[0]], Ungroup(a[1..]), Ungroup(b));
    } else {
      assert a + b == b;
    }
  }

  lemma {:induction false} UngroupDigits(s: string)
    requires forall i :: 0 <= i < |s| ==> '0' <= s[i] <= '9'
    ensures Ungroup(s) == s
    decreases |s|
  {
    if |s| > 0 {
      UngroupDigits(s[1..]);
    }
  }

  function Pow10(k: nat): nat {
    if k == 0 then 1 else 10 * Pow10(k - 1)
  }

  lemma {:induction false} DigitsValueAppend(a: string, b: string)
    requires forall i :: 0 <= i < |a| ==> '0' <= a[i] <= '9'
    requires forall i :: 0 <= i < |b| ==> '0' <= b[i] <= '9'
    ensures DigitsValue(a + b) == Pow10(|b|) * DigitsValue(a) + DigitsValue(b)
    decreases |b|
  {
    if |b| == 0 {
      assert a + b == a;
    } else {
      var s := a + b;
      var b' := b[..|b| - 1];
      var d := b[|b| - 1] as int - '0' as int;
      assert s[..|s| - 1] == a + b';
      assert s[|s| - 1] == b[|b| - 1];
      DigitsValueAppend(a, b');
      calc {
        DigitsValue(s);
        10 * DigitsValue(a + b') + d;
        10 * (Pow10(|b'|) * DigitsValue(a) + DigitsValue(b')) + d;
        { MulAssoc(10, Pow10(|b'|), DigitsValue(a)); }
        Pow10(|b|) * DigitsValue(a) + (10 * DigitsValue(b') + d);
        Pow10(|b|) * DigitsValue(a) + DigitsValue(b);
      }
    }
  }

  lemma MulAssoc(x: int, y: int, z: int)
    ensures x * (y * z) == (x * y) * z
  {
  }
}
