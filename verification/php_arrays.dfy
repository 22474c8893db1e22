/**
 * The parts of PHP's value model that the Monday client relies on: ordered
 * arrays keyed by integers or strings, `isset`, assignment `$a[$k] = $v`,
 * `array_merge`, truthiness, string conversion and `??` chains.
 */
module PhpArrays {

  datatype Option<T> = None | Some(value: T)

  /** A PHP array key: an integer or a (non-numeric) string. */
  datatype Key = IntKey(i: int) | StrKey(s: string)

  /**
   * A PHP value as it appears in an argument array or in the result of
   * `json_decode($data, true)` (objects and lists both become arrays).
   */
  datatype Value =
    | Null
    | Bool(b: bool)
    | Int(i: int)
    | Str(s: string)
    | Arr(entries: seq<(Key, Value)>)

  /** The entries of a PHP array, in iteration order. */
  type Entries = seq<(Key, Value)>

  function Keys(a: Entries): set<Key>
  {
    if a == [] then {} else {a[0].0} + Keys(a[1..])
  }

  /** A PHP array never holds the same key twice. */
  ghost predicate UniqueKeys(a: Entries)
  {
    a == [] || (a[0].0 !in Keys(a[1..]) && UniqueKeys(a[1..]))
  }

  /** `$a[$k]`: the value stored under `k`, if the key is present. */
  function Lookup(a: Entries, k: Key): (r: Option<Value>)
    ensures r.Some? <==> k in Keys(a)
  {
    if a == [] then None
    else if a[0].0 == k then Some(a[0].1)
    else Lookup(a[1..], k)
  }

  /** `isset($a[$k])`: the key is present and its value is not null. */
  predicate IsSet(a: Entries, k: Key)
  {
    Lookup(a, k).Some? && Lookup(a, k).value != Null
  }

  /**
   * `$a[$k] = $v`: an existing key keeps its place and takes the new value;
   * a new key is appended at the end.
   */
  function Assign(a: Entries, k: Key, v: Value): (r: Entries)
    ensures Lookup(r, k) == Some(v)
    ensures forall k' :: k' != k ==> Lookup(r, k') == Lookup(a, k')
    ensures Keys(r) == Keys(a) + {k}
    ensures |r| == if k in Keys(a) then |a| else |a| + 1
    ensures forall i :: 0 <= i < |a| ==> r[i].0 == a[i].0
    ensures UniqueKeys(a) ==> UniqueKeys(r)
  {
    if a == [] then [(k, v)]
    else if a[0].0 == k then [(k, v)] + a[1..]
    else [a[0]] + Assign(a[1..], k, v)
  }

  /**
   * The step of `array_merge` that adds `es` to the partial result `acc`:
   * integer keys are renumbered from `next` and appended, string keys are
   * assigned (a later value overrides an earlier one in place).
   */
  function MergeEntries(acc: Entries, next: int, es: Entries): (Entries, int)
    decreases |es|
  {
    if es == [] then (acc, next)
    else match es[0].0
      case IntKey(_) => MergeEntries(acc + [(IntKey(next), es[0].1)], next + 1, es[1..])
      case StrKey(_) => MergeEntries(Assign(acc, es[0].0, es[0].1), next, es[1..])
  }

  /** `array_merge($a, $b)`. */
  function ArrayMerge(a: Entries, b: Entries): Entries
  {
    var (m, n) := MergeEntries([], 0, a);
    MergeEntries(m, n, b).0
  }

  lemma {:induction false} LookupAppended(a: Entries, k: Key, k': Key, v: Value)
    requires k' != k
    ensures Lookup(a + [(k', v)], k) == Lookup(a, k)
  {
    if a != [] {
      assert (a + [(k', v)])[1..] == a[1..] + [(k', v)];
      LookupAppended(a[1..], k, k', v);
    }
  }

  /**
   * Under a string key, merging `es` into `acc` yields the value `es` holds
   * for that key if it has one, and otherwise the value `acc` held.
   */
  lemma {:induction false} MergeEntriesStringLookup(acc: Entries, next: int, es: Entries, s: string)
    requires UniqueKeys(es)
    ensures Lookup(MergeEntries(acc, next, es).0, StrKey(s)) ==
            if StrKey(s) in Keys(es) then Lookup(es, StrKey(s)) else Lookup(acc, StrKey(s))
    decreases |es|
  {
    if es != [] {
      match es[0].0
      case IntKey(_) =>
        LookupAppended(acc, StrKey(s), IntKey(next), es[0].1);
        MergeEntriesStringLookup(acc + [(IntKey(next), es[0].1)], next + 1, es[1..], s);
      case StrKey(_) =>
        MergeEntriesStringLookup(Assign(acc, es[0].0, es[0].1), next, es[1..], s);
    }
  }

  /** Merging never moves the first entry of the partial result. */
  lemma {:induction false} MergeEntriesKeepsFirst(acc: Entries, next: int, es: Entries)
    requires acc != []
    ensures MergeEntries(acc, next, es).0 != []
    ensures MergeEntries(acc, next, es).0[0].0 == acc[0].0
    decreases |es|
  {
    if es != [] {
      match es[0].0
      case IntKey(_) =>
        MergeEntriesKeepsFirst(acc + [(IntKey(next), es[0].1)], next + 1, es[1..]);
      case StrKey(_) =>
        MergeEntriesKeepsFirst(Assign(acc, es[0].0, es[0].1), next, es[1..]);
    }
  }

  /**
   * `array_merge` on string keys: the second array wins where both hold the
   * key, and a leading string key of the first array stays first.
   */
  lemma ArrayMergeStringKeys(a: Entries, b: Entries, s: string)
    requires UniqueKeys(a) && UniqueKeys(b)
    ensures Lookup(ArrayMerge(a, b), StrKey(s)) ==
            if StrKey(s) in Keys(b) then Lookup(b, StrKey(s)) else Lookup(a, StrKey(s))
    ensures a != [] && a[0].0.StrKey? ==> ArrayMerge(a, b) != [] && ArrayMerge(a, b)[0].0 == a[0].0
  {
    var (m, n) := MergeEntries([], 0, a);
    MergeEntriesStringLookup([], 0, a, s);
    MergeEntriesStringLookup(m, n, b, s);
    if a != [] && a[0].0.StrKey? {
      assert Assign([], a[0].0, a[0].1) == [(a[0].0, a[0].1)];
      MergeEntriesKeepsFirst([(a[0].0, a[0].1)], 0, a[1..]);
      MergeEntriesKeepsFirst(m, n, b);
    }
  }

  /** Every key of the array is a string key. */
  predicate StringKeyed(a: Entries)
  {
    forall e :: e in a ==> e.0.StrKey?
  }

  lemma {:induction false} KeysAppend(a: Entries, b: Entries)
    ensures Keys(a + b) == Keys(a) + Keys(b)
  {
    if a == [] {
      assert a + b == b;
    } else {
      KeysAppend(a[1..], b);
      assert (a + b)[1..] == a[1..] + b;
      assert (a + b)[0] == a[0];
    }
  }

  /** Assigning a key the array does not hold appends it. */
  lemma {:induction false} AssignFresh(a: Entries, k: Key, v: Value)
    requires k !in Keys(a)
    ensures Assign(a, k, v) == a + [(k, v)]
  {
    if a != [] {
      AssignFresh(a[1..], k, v);
    }
  }

  /** `a` without its entry under `k`, the other entries kept in order. */
  function Drop(a: Entries, k: Key): (r: Entries)
    ensures Keys(r) == Keys(a) - {k}
    ensures k !in Keys(a) ==> r == a
  {
    if a == [] then []
    else if a[0].0 == k then Drop(a[1..], k)
    else [a[0]] + Drop(a[1..], k)
  }

  /** The first entry of a string-keyed array with unique keys, and the rest. */
  lemma SplitFirstEntry(es: Entries)
    requires es != [] && StringKeyed(es) && UniqueKeys(es)
    ensures es[0].0.StrKey? && es[0].0 !in Keys(es[1..])
    ensures Keys(es) == {es[0].0} + Keys(es[1..])
    ensures StringKeyed(es[1..]) && UniqueKeys(es[1..])
  {
    assert es[0] in es;
    forall x | x in es[1..] ensures x.0.StrKey? { assert x in es; }
  }

  /**
   * Merging string-keyed entries whose keys are all new appends them, in
   * their own order.
   */
  lemma {:induction false} MergeFreshStringEntries(acc: Entries, next: int, es: Entries)
    requires StringKeyed(es) && UniqueKeys(es) && Keys(acc) !! Keys(es)
    ensures MergeEntries(acc, next, es) == (acc + es, next)
    decreases |es|
  {
    if es != [] {
      var e, rest := es[0], es[1..];
      SplitFirstEntry(es);
      assert MergeEntries(acc, next, es) == MergeEntries(Assign(acc, e.0, e.1), next, rest);
      AssignFresh(acc, e.0, e.1);
      KeysAppend(acc, [e]);
      assert Keys([e]) == {e.0};
      MergeFreshStringEntries(acc + [e], next, rest);
      assert acc + [e] + rest == acc + es;
    } else {
      assert acc + es == acc;
    }
  }

  /**
   * `array_merge` of two string-keyed arrays with no key in common is the
   * first array followed by the second.
   */
  lemma ArrayMergeDisjointStringKeys(a: Entries, b: Entries)
    requires StringKeyed(a) && StringKeyed(b) && UniqueKeys(a) && UniqueKeys(b) && Keys(a) !! Keys(b)
    ensures ArrayMerge(a, b) == a + b
  {
    MergeFreshStringEntries([], 0, a);
    assert [] + a == a;
    MergeFreshStringEntries(a, 0, b);
  }

  /**
   * Merging string-keyed entries after a head entry `k0` and a tail `t` of
   * other keys: an entry under `k0` replaces the head's value in place,
   * and the remaining entries follow `t` in their own order.
   */
  lemma {:induction false} MergeAfterHead(k0: Key, v0: Value, t: Entries, next: int, es: Entries)
    requires StringKeyed(es) && UniqueKeys(es)
    requires k0 !in Keys(t) && Keys(t) !! Keys(es)
    ensures MergeEntries([(k0, v0)] + t, next, es).0 ==
            [(k0, if k0 in Keys(es) then Lookup(es, k0).value else v0)] + t + Drop(es, k0)
    decreases |es|, 1
  {
    if es == [] {
      assert [(k0, v0)] + t + Drop(es, k0) == [(k0, v0)] + t;
    } else if es[0].0 == k0 {
      MergeReplacingHead(k0, v0, t, next, es);
    } else {
      MergeAppendingEntry(k0, v0, t, next, es);
    }
  }

  /** `MergeAfterHead` for a head with nothing after it. */
  lemma MergeAfterSingle(k0: Key, v0: Value, next: int, es: Entries)
    requires StringKeyed(es) && UniqueKeys(es)
    ensures MergeEntries([(k0, v0)], next, es).0 ==
            [(k0, if k0 in Keys(es) then Lookup(es, k0).value else v0)] + Drop(es, k0)
  {
    var empty: Entries := [];
    assert [(k0, v0)] + empty == [(k0, v0)];
    MergeAfterHead(k0, v0, empty, next, es);
    assert [(k0, if k0 in Keys(es) then Lookup(es, k0).value else v0)] + empty + Drop(es, k0) ==
           [(k0, if k0 in Keys(es) then Lookup(es, k0).value else v0)] + Drop(es, k0);
  }

  /** The step of `MergeAfterHead` where the first entry replaces the head's value. */
  lemma {:induction false} MergeReplacingHead(k0: Key, v0: Value, t: Entries, next: int, es: Entries)
    requires StringKeyed(es) && UniqueKeys(es)
    requires k0 !in Keys(t) && Keys(t) !! Keys(es)
    requires es != [] && es[0].0 == k0
    ensures MergeEntries([(k0, v0)] + t, next, es).0 ==
            [(k0, if k0 in Keys(es) then Lookup(es, k0).value else v0)] + t + Drop(es, k0)
    decreases |es|, 0
  {
    var e, rest := es[0], es[1..];
    var acc := [(k0, v0)] + t;
    SplitFirstEntry(es);
    assert MergeEntries(acc, next, es) == MergeEntries(Assign(acc, e.0, e.1), next, rest);
    assert acc[1..] == t;
    assert Assign(acc, k0, e.1) == [(k0, e.1)] + t;
    MergeAfterHead(k0, e.1, t, next, rest);
  }

  /** The step of `MergeAfterHead` where the first entry is appended after `t`. */
  lemma {:induction false} MergeAppendingEntry(k0: Key, v0: Value, t: Entries, next: int, es: Entries)
    requires StringKeyed(es) && UniqueKeys(es)
    requires k0 !in Keys(t) && Keys(t) !! Keys(es)
    requires es != [] && es[0].0 != k0
    ensures MergeEntries([(k0, v0)] + t, next, es).0 ==
            [(k0, if k0 in Keys(es) then Lookup(es, k0).value else v0)] + t + Drop(es, k0)
    decreases |es|, 0
  {
    var e, rest := es[0], es[1..];
    assert StringKeyed(rest) && UniqueKeys(rest) && k0 !in Keys(t + [e]) && Keys(t + [e]) !! Keys(rest) &&
           MergeEntries([(k0, v0)] + t, next, es).0 == MergeEntries([(k0, v0)] + (t + [e]), next, rest).0 by {
      SplitFirstEntry(es);
      MergeStringStep([(k0, v0)] + t, next, es);
      AssignAfterHead(k0, v0, t, e, rest);
    }
    MergeAfterHead(k0, v0, t + [e], next, rest);
    SkipOtherKey(es, k0);
    Regroup((k0, if k0 in Keys(rest) then Lookup(rest, k0).value else v0), t, e, Drop(rest, k0));
  }

  lemma Regroup(h: (Key, Value), t: Entries, e: (Key, Value), d: Entries)
    ensures [h] + (t + [e]) + d == [h] + t + ([e] + d)
  {
  }

  lemma MergeStringStep(acc: Entries, next: int, es: Entries)
    requires es != [] && es[0].0.StrKey?
    ensures MergeEntries(acc, next, es) == MergeEntries(Assign(acc, es[0].0, es[0].1), next, es[1..])
  {
  }

  lemma AssignAfterHead(k0: Key, v0: Value, t: Entries, e: (Key, Value), rest: Entries)
    requires e.0 != k0 && k0 !in Keys(t)
    requires Keys(t) !! {e.0} + Keys(rest) && e.0 !in Keys(rest)
    ensures Assign([(k0, v0)] + t, e.0, e.1) == [(k0, v0)] + (t + [e])
    ensures k0 !in Keys(t + [e]) && Keys(t + [e]) !! Keys(rest)
  {
    var acc := [(k0, v0)] + t;
    assert acc[1..] == t;
    AssignFresh(t, e.0, e.1);
    KeysAppend(t, [e]);
    assert Keys([e]) == {e.0};
  }

  lemma SkipOtherKey(es: Entries, k: Key)
    requires es != [] && es[0].0 != k
    ensures Drop(es, k) == [es[0]] + Drop(es[1..], k)
    ensures Lookup(es, k) == Lookup(es[1..], k)
    ensures (k in Keys(es)) == (k in Keys(es[1..]))
  {
  }

  /** PHP truthiness: `false`, `0`, `""`, `"0"`, `null` and the empty array are falsy. */
  predicate Truthy(v: Value)
  {
    match v
    case Null => false
    case Bool(b) => b
    case Int(i) => i != 0
    case Str(s) => s != "" && s != "0"
    case Arr(es) => es != []
  }

  function Digit(d: nat): char
    requires d < 10
  {
    "0123456789"[d]
  }

  function NatToString(n: nat): (r: string)
    ensures r != []
  {
    if n < 10 then [Digit(n)] else NatToString(n / 10) + [Digit(n % 10)]
  }

  /** PHP's decimal rendering of an integer. */
  function IntToString(i: int): string
  {
    if i < 0 then "-" + NatToString(-i) else NatToString(i)
  }

  /** `(string) $v`: `true` is "1", `false` and `null` are "", an array is "Array". */
  function ToStr(v: Value): string
  {
    match v
    case Null => ""
    case Bool(b) => if b then "1" else ""
    case Int(i) => IntToString(i)
    case Str(s) => s
    case Arr(_) => "Array"
  }

  /** A key used as a string, as `str_replace` does with an integer key. */
  function KeyText(k: Key): string
  {
    match k
    case IntKey(i) => IntToString(i)
    case StrKey(s) => s
  }

  /**
   * The value reached by following `path` through nested arrays, one key
   * at a time from the last step back: present when the value before the
   * last step is an array in which the last key is set.
   */
  function PathValue(v: Value, path: seq<string>): (r: Option<Value>)
    ensures path != [] && r.Some? ==> r.value != Null
    decreases |path|
  {
    if path == [] then Some(v)
    else
      match PathValue(v, path[..|path| - 1])
      case Some(u) =>
        if u.Arr? && IsSet(u.entries, StrKey(path[|path| - 1]))
        then Some(Lookup(u.entries, StrKey(path[|path| - 1])).value)
        else None
      case None => None
  }

  /** Following a path is taking its first step and following the rest. */
  lemma {:induction false} PathValueFirstStep(v: Value, path: seq<string>)
    requires path != []
    ensures PathValue(v, path) ==
            if v.Arr? && IsSet(v.entries, StrKey(path[0]))
            then PathValue(Lookup(v.entries, StrKey(path[0])).value, path[1..])
            else None
    decreases |path|
  {
    if |path| > 1 {
      var init := path[..|path| - 1];
      PathValueFirstStep(v, init);
      assert init[0] == path[0];
      assert init[1..] == path[1..][..|path[1..]| - 1];
      assert path[1..][|path[1..]| - 1] == path[|path| - 1];
    } else {
      assert path[..0] == [];
      assert path[1..] == [];
    }
  }

  /**
   * `$v[p0][p1]... ?? $default`: the value at the end of the path when every
   * step is an array holding that key with a non-null value, else `default`.
   */
  function Dig(v: Value, path: seq<string>, default: Value): (r: Value)
    requires path != []
    ensures r == if PathValue(v, path).Some? then PathValue(v, path).value else default
    ensures r == default || r != Null
    ensures !v.Arr? ==> r == default
    ensures v.Arr? && !IsSet(v.entries, StrKey(path[0])) ==> r == default
    decreases |path|
  {
    PathValueFirstStep(v, path);
    if v.Arr? && IsSet(v.entries, StrKey(path[0])) then
      var inner := Lookup(v.entries, StrKey(path[0])).value;
      if |path| == 1 then inner else Dig(inner, path[1..], default)
    else default
  }

  /**
   * `$v[$a][$b] ?? $default`, the shape used to read a created id: the
   * value under `b` in the array under `a`, when both are set.
   */
  lemma DigTwoSteps(v: Value, a: string, b: string, default: Value)
    ensures Dig(v, [a, b], default) ==
            if v.Arr? && IsSet(v.entries, StrKey(a))
               && Lookup(v.entries, StrKey(a)).value.Arr?
               && IsSet(Lookup(v.entries, StrKey(a)).value.entries, StrKey(b))
            then Lookup(Lookup(v.entries, StrKey(a)).value.entries, StrKey(b)).value
            else default
  {
    var path := [a, b];
    assert path[..1] == [a] && path[..1][..0] == [];
  }
}
