/** The three list operations every cached collection is rewritten with:
    `list.filter(x => x.id !== id)`, `list.map(x => x.id === id ? f(x) : x)`
    and `list.find(pred)`. An entity's id is read through `key`. */
module ListOps {
  import opened Wrappers
  import opened Text

  /** `s.filter(x => key(x) !== id)` */
  function Without<T>(s: seq<T>, key: T -> string, id: string): seq<T>
    decreases |s|
  {
    if |s| == 0 then []
    else (if key(s[0]) == id then [] else [s[0]]) + Without(s[1..], key, id)
  }

  /** How many entries carry `id`. */
  function CountId<T>(s: seq<T>, key: T -> string, id: string): nat
    decreases |s|
  {
    if |s| == 0 then 0
    else (if key(s[0]) == id then 1 else 0) + CountId(s[1..], key, id)
  }

  lemma {:induction false} WithoutAppend<T>(a: seq<T>, b: seq<T>, key: T -> string, id: string)
    ensures Without(a + b, key, id) == Without(a, key, id) + Without(b, key, id)
    decreases |a|
  {
    if |a| == 0 {
      assert a + b == b;
    } else {
      assert (a + b)[0] == a[0];
      assert (a + b)[1..] == a[1..] + b;
      WithoutAppend(a[1..], b, key, id);
      AppendAssoc(if key(a[0]) == id then [] else [a[0]], Without(a[1..], key, id), Without(b, key, id));
    }
  }

  /** Deleting removes every entry with that id and keeps every other entry,
      in order; the list shrinks by the number of entries removed. */
  lemma {:induction false} WithoutCorrect<T>(s: seq<T>, key: T -> string, id: string)
    ensures forall x :: x in Without(s, key, id) ==> x in s && key(x) != id
    ensures forall x :: x in s && key(x) != id ==> x in Without(s, key, id)
    ensures |Without(s, key, id)| == |s| - CountId(s, key, id)
    decreases |s|
  {
    if |s| > 0 {
      WithoutCorrect(s[1..], key, id);
      assert s == [s[0]] + s[1..];
    }
  }

  /** A list with no entry carrying `id` is left as it is. */
  lemma {:induction false} WithoutAbsent<T>(s: seq<T>, key: T -> string, id: string)
    requires forall x :: x in s ==> key(x) != id
    ensures Without(s, key, id) == s
    decreases |s|
  {
    if |s| > 0 {
      WithoutAbsent(s[1..], key, id);
      assert s == [s[0]] + s[1..];
    }
  }

  /** Deleting twice is deleting once. */
  lemma WithoutIdempotent<T>(s: seq<T>, key: T -> string, id: string)
    ensures Without(Without(s, key, id), key, id) == Without(s, key, id)
  {
    var w := Without(s, key, id);
    WithoutCorrect(s, key, id);
    WithoutAbsent(w, key, id);
  }

  /** `s.filter(p)` */
  function Filter<T>(s: seq<T>, p: T -> bool): seq<T>
    decreases |s|
  {
    if |s| == 0 then []
    else (if p(s[0]) then [s[0]] else []) + Filter(s[1..], p)
  }

  lemma {:induction false} FilterAppend<T>(a: seq<T>, b: seq<T>, p: T -> bool)
    ensures Filter(a + b, p) == Filter(a, p) + Filter(b, p)
    decreases |a|
  {
    if |a| == 0 {
      assert a + b == b;
    } else {
      assert (a + b)[0] == a[0];
      assert (a + b)[1..] == a[1..] + b;
      FilterAppend(a[1..], b, p);
      AppendAssoc(if p(a[0]) then [a[0]] else [], Filter(a[1..], p), Filter(b, p));
    }
  }

  /** The filtered list holds exactly the entries satisfying `p`, and is
      no longer than the list. */
  lemma {:induction false} FilterCorrect<T>(s: seq<T>, p: T -> bool)
    ensures forall x :: x in Filter(s, p) <==> x in s && p(x)
    ensures |Filter(s, p)| <= |s|
    decreases |s|
  {
    if |s| > 0 {
      FilterCorrect(s[1..], p);
      assert s == [s[0]] + s[1..];
    }
  }

  /** A filter every entry passes keeps the whole list. */
  lemma {:induction false} FilterAll<T>(s: seq<T>, p: T -> bool)
    requires forall i :: 0 <= i < |s| ==> p(s[i])
    ensures Filter(s, p) == s
    decreases |s|
  {
    if |s| > 0 {
      FilterAll(s[1..], p);
      assert s == [s[0]] + s[1..];
    }
  }

  /** `s.map(x => key(x) === id ? f(x) : x)` */
  function ReplaceWhere<T>(s: seq<T>, key: T -> string, id: string, f: T -> T): (r: seq<T>)
    ensures |r| == |s|
  {
    seq(|s|, i requires 0 <= i < |s| => if key(s[i]) == id then f(s[i]) else s[i])
  }

  /** An update touches exactly the entries whose id matches: those become
      `f` of themselves, every other entry keeps its value and position. */
  lemma ReplaceWhereCorrect<T>(s: seq<T>, key: T -> string, id: string, f: T -> T)
    ensures forall i :: 0 <= i < |s| && key(s[i]) != id ==> ReplaceWhere(s, key, id, f)[i] == s[i]
    ensures forall i :: 0 <= i < |s| && key(s[i]) == id ==> ReplaceWhere(s, key, id, f)[i] == f(s[i])
    ensures (forall x :: x in s ==> key(x) != id) ==> ReplaceWhere(s, key, id, f) == s
  {
  }

  /** `s.find(p)`: the first entry satisfying `p`, if any. */
  function FindFirst<T>(s: seq<T>, p: T -> bool): (r: Option<T>)
    ensures r.Some? ==> r.value in s && p(r.value)
    ensures r.None? <==> forall x :: x in s ==> !p(x)
    decreases |s|
  {
    if |s| == 0 then None
    else if p(s[0]) then Some(s[0])
    else FindFirst(s[1..], p)
  }

  /** `find` returns the earliest match. */
  lemma {:induction false} FindFirstIsEarliest<T>(s: seq<T>, p: T -> bool)
    requires FindFirst(s, p).Some?
    ensures exists i :: (0 <= i < |s| && s[i] == FindFirst(s, p).value
      && forall j :: 0 <= j < i ==> !p(s[j]))
    decreases |s|
  {
    if !p(s[0]) {
      FindFirstIsEarliest(s[1..], p);
      var i :| 0 <= i < |s[1..]| && s[1..][i] == FindFirst(s[1..], p).value
        && forall j :: 0 <= j < i ==> !p(s[1..][j]);
      assert s[i + 1] == FindFirst(s, p).value;
    } else {
      assert s[0] == FindFirst(s, p).value;
    }
  }
}
