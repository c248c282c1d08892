/**
 * Collection operations the Kotlin sources rely on from the standard library:
 * - `sortedBy`, a stable sort by an integer key (Kotlin sorts lists with a stable merge sort);
 * - `LinkedHashMap`, the map that `emptyMap().plus(..)`, `associateBy` and `mapValues` build,
 *   which iterates its entries in the order their keys were first inserted.
 */
module Collections {

  datatype Option<T> = None | Some(value: T) {
    function GetOr(default: T): T {
      match this
      case Some(v) => v
      case None => default
    }
  }

  // ---------------------------------------------------------------------------
  // Stable sort by key
  // ---------------------------------------------------------------------------

  ghost predicate SortedBy<T>(s: seq<T>, key: T -> int) {
    forall i, j :: 0 <= i < j < |s| ==> key(s[i]) <= key(s[j])
  }

  /** The elements of `s` whose key is `k`, in their order in `s`. */
  function KeyFilter<T>(s: seq<T>, key: T -> int, k: int): (r: seq<T>)
    ensures |r| <= |s|
  {
    if s == [] then []
    else (if key(s[0]) == k then [s[0]] else []) + KeyFilter(s[1..], key, k)
  }

  /** Places `x` in front of the first element whose key is not smaller than its own. */
  function Insert<T>(x: T, s: seq<T>, key: T -> int): seq<T>
  {
    if s == [] || key(x) <= key(s[0]) then [x] + s
    else [s[0]] + Insert(x, s[1..], key)
  }

  /** `s.sortedBy(key)`. */
  function SortBy<T>(s: seq<T>, key: T -> int): seq<T>
  {
    if s == [] then [] else Insert(s[0], SortBy(s[1..], key), key)
  }

  lemma {:induction false} InsertPermutes<T>(x: T, s: seq<T>, key: T -> int)
    ensures multiset(Insert(x, s, key)) == multiset{x} + multiset(s)
    ensures |Insert(x, s, key)| == |s| + 1
  {
    if s != [] && key(x) > key(s[0]) {
      InsertPermutes(x, s[1..], key);
      assert s == [s[0]] + s[1..];
    }
  }

  lemma {:induction false} InsertSorted<T>(x: T, s: seq<T>, key: T -> int)
    requires SortedBy(s, key)
    ensures SortedBy(Insert(x, s, key), key)
  {
    if s == [] || key(x) <= key(s[0]) {
    } else {
      var rest := Insert(x, s[1..], key);
      InsertSorted(x, s[1..], key);
      InsertPermutes(x, s[1..], key);
      forall i | 0 <= i < |rest| ensures key(s[0]) <= key(rest[i]) {
        assert rest[i] in multiset(rest);
        if rest[i] != x {
          assert rest[i] in multiset(s[1..]);
          var j :| 0 <= j < |s[1..]| && s[1..][j] == rest[i];
          assert s[1 + j] == rest[i];
        }
      }
    }
  }

  /** Inserting `x` contributes it ahead of every element of `s` that has the same key. */
  lemma {:induction false} InsertKeyFilter<T>(x: T, s: seq<T>, key: T -> int, k: int)
    ensures KeyFilter(Insert(x, s, key), key, k)
         == (if key(x) == k then [x] else []) + KeyFilter(s, key, k)
  {
    if s == [] || key(x) <= key(s[0]) {
      assert ([x] + s)[1..] == s;
    } else {
      var rest := Insert(x, s[1..], key);
      InsertKeyFilter(x, s[1..], key, k);
      assert ([s[0]] + rest)[1..] == rest;
      var head, mine := if key(s[0]) == k then [s[0]] else [], if key(x) == k then [x] else [];
      assert head == [] || mine == [];
      assert KeyFilter(s, key, k) == head + KeyFilter(s[1..], key, k);
      assert KeyFilter([s[0]] + rest, key, k) == head + (mine + KeyFilter(s[1..], key, k));
      AppendAssoc(head, mine, KeyFilter(s[1..], key, k));
      AppendAssoc(mine, head, KeyFilter(s[1..], key, k));
    }
  }

  /**
   * `SortBy` is a stable sort: the result is ordered by key, is a permutation of the input,
   * and the elements that share a key keep their relative order.
   */
  lemma {:induction false} SortByIsStableSort<T>(s: seq<T>, key: T -> int)
    ensures SortedBy(SortBy(s, key), key)
    ensures multiset(SortBy(s, key)) == multiset(s)
    ensures |SortBy(s, key)| == |s|
    ensures forall k :: KeyFilter(SortBy(s, key), key, k) == KeyFilter(s, key, k)
  {
    if s != [] {
      SortByIsStableSort(s[1..], key);
      InsertSorted(s[0], SortBy(s[1..], key), key);
      InsertPermutes(s[0], SortBy(s[1..], key), key);
      assert s == [s[0]] + s[1..];
      forall k ensures KeyFilter(SortBy(s, key), key, k) == KeyFilter(s, key, k) {
        InsertKeyFilter(s[0], SortBy(s[1..], key), key, k);
      }
    }
  }

  /** The number of elements of `s` that satisfy `p`. */
  function CountWhere<T>(s: seq<T>, p: T -> bool): (n: nat)
    ensures n <= |s|
  {
    if s == [] then 0 else (if p(s[0]) then 1 else 0) + CountWhere(s[1..], p)
  }

  lemma {:induction false} CountWhereAppend<T>(a: seq<T>, b: seq<T>, p: T -> bool)
    ensures CountWhere(a + b, p) == CountWhere(a, p) + CountWhere(b, p)
  {
    if a == [] {
      assert a + b == b;
    } else {
      CountWhereAppend(a[1..], b, p);
      assert (a + b)[1..] == a[1..] + b;
    }
  }

  lemma {:induction false} InsertCount<T>(x: T, s: seq<T>, key: T -> int, p: T -> bool)
    ensures CountWhere(Insert(x, s, key), p) == CountWhere([x], p) + CountWhere(s, p)
  {
    if s == [] || key(x) <= key(s[0]) {
      assert ([x] + s)[1..] == s;
      assert [x][1..] == [];
    } else {
      InsertCount(x, s[1..], key, p);
      assert ([s[0]] + Insert(x, s[1..], key))[1..] == Insert(x, s[1..], key);
      assert [x][1..] == [];
    }
  }

  /** Sorting keeps the number of elements that satisfy any predicate. */
  lemma {:induction false} SortByCount<T>(s: seq<T>, key: T -> int, p: T -> bool)
    ensures CountWhere(SortBy(s, key), p) == CountWhere(s, p)
  {
    if s != [] {
      SortByCount(s[1..], key, p);
      InsertCount(s[0], SortBy(s[1..], key), key, p);
      assert [s[0]][1..] == [];
    }
  }

  lemma {:induction false} CountWhereAll<T>(s: seq<T>, p: T -> bool)
    requires forall i :: 0 <= i < |s| ==> p(s[i])
    ensures CountWhere(s, p) == |s|
  {
    if s != [] {
      CountWhereAll(s[1..], p);
    }
  }

  /** `find { p(it) }`: the first element that satisfies `p`, or `None` (Kotlin's `null`). */
  function FindFirst<T>(s: seq<T>, p: T -> bool): (r: Option<T>)
    ensures r.None? <==> forall i :: 0 <= i < |s| ==> !p(s[i])
    ensures r.Some? ==> p(r.value) && r.value in s
    ensures r.Some? ==> exists i :: 0 <= i < |s| && s[i] == r.value && forall j :: 0 <= j < i ==> !p(s[j])
  {
    if s == [] then None
    else if p(s[0]) then Some(s[0])
    else
      var rest := FindFirst(s[1..], p);
      assert rest.Some? ==> exists i :: 0 < i < |s| && s[i] == rest.value && forall j :: 0 <= j < i ==> !p(s[j]) by {
        if rest.Some? {
          var k :| 0 <= k < |s[1..]| && s[1..][k] == rest.value && forall j :: 0 <= j < k ==> !p(s[1..][j]);
          assert forall j :: 0 < j < k + 1 ==> s[j] == s[1..][j - 1];
        }
      }
      rest
  }

  /** Concatenation is associative (stated once, so that proofs with large contexts need not rediscover it). */
  lemma AppendAssoc<T>(a: seq<T>, b: seq<T>, c: seq<T>)
    ensures (a + b) + c == a + (b + c)
  {
  }

  /** A sequence that extends one that extends `all` extends `all`, by the two suffixes one after the other. */
  lemma ExtendedTwice<T>(all: seq<T>, before: seq<T>, after: seq<T>)
    requires |all| <= |before| && before[..|all|] == all
    requires |before| <= |after| && after[..|before|] == before
    ensures |all| <= |after| && after[..|all|] == all
    ensures after[|all|..] == before[|all|..] + after[|before|..]
  {
    assert after[..|all|] == after[..|before|][..|all|];
  }

  /** A sequence is its first `k` elements followed by the rest. */
  lemma TakeDrop<T>(s: seq<T>, k: int)
    requires 0 <= k <= |s|
    ensures s == s[..k] + s[k..]
  {
  }

  /** Taking one more element appends it. */
  lemma TakeNext<T>(s: seq<T>, i: int)
    requires 0 <= i < |s|
    ensures s[..i + 1] == s[..i] + [s[i]]
  {
  }

  /** Taking every element gives the sequence back. */
  lemma TakeAll<T>(s: seq<T>)
    ensures s[..|s|] == s
  {
  }

  /** A sequence split around its element at `k`. */
  lemma SplitAt<T>(s: seq<T>, k: nat)
    requires k < |s|
    ensures s == (s[..k] + [s[k]]) + s[k + 1..]
    ensures s[k..] == [s[k]] + s[k + 1..]
  {
  }

  /** Dropping the head of a sequence of two or more commutes with splitting off its last element. */
  lemma TailSnoc<T>(s: seq<T>)
    requires |s| >= 2
    ensures s[1..] == s[..|s| - 1][1..] + [s[|s| - 1]]
  {
  }

  /** `flatten` / `flatMap { it }`: the sequences one after another. */
  function Concat<T>(ss: seq<seq<T>>): (r: seq<T>)
  {
    if ss == [] then [] else Concat(ss[..|ss| - 1]) + ss[|ss| - 1]
  }

  lemma {:induction false} ConcatAppend<T>(a: seq<seq<T>>, b: seq<seq<T>>)
    ensures Concat(a + b) == Concat(a) + Concat(b)
  {
    if b == [] {
      assert a + b == a;
    } else {
      ConcatAppend(a, b[..|b| - 1]);
      assert (a + b)[..|a + b| - 1] == a + b[..|b| - 1];
    }
  }

  // ---------------------------------------------------------------------------
  // Insertion-ordered maps (LinkedHashMap)
  // ---------------------------------------------------------------------------

  datatype Entry<K, V> = Entry(key: K, value: V)

  function Keys<K, V>(m: seq<Entry<K, V>>): (r: seq<K>)
    ensures |r| == |m|
    ensures forall i :: 0 <= i < |m| ==> r[i] == m[i].key
  {
    if m == [] then [] else [m[0].key] + Keys(m[1..])
  }

  function Values<K, V>(m: seq<Entry<K, V>>): (r: seq<V>)
    ensures |r| == |m|
    ensures forall i :: 0 <= i < |m| ==> r[i] == m[i].value
  {
    if m == [] then [] else [m[0].value] + Values(m[1..])
  }

  ghost predicate UniqueKeys<K, V>(m: seq<Entry<K, V>>) {
    forall i, j :: 0 <= i < j < |m| ==> m[i].key != m[j].key
  }

  /** `m[k]`: the value stored under `k`, or `None` (Kotlin's `null`). */
  function Get<K(==), V>(m: seq<Entry<K, V>>, k: K): (r: Option<V>)
    ensures r.Some? <==> k in Keys(m)
    ensures r.Some? ==> exists i :: 0 <= i < |m| && m[i] == Entry(k, r.value)
  {
    if m == [] then None
    else if m[0].key == k then Some(m[0].value)
    else Get(m[1..], k)
  }

  /**
   * `m.plus(k to v)`: a key already present keeps its position and gets the new value,
   * a new key is appended.
   */
  function Put<K(==), V>(m: seq<Entry<K, V>>, k: K, v: V): (r: seq<Entry<K, V>>)
    ensures Keys(r) == if k in Keys(m) then Keys(m) else Keys(m) + [k]
  {
    if m == [] then [Entry(k, v)]
    else if m[0].key == k then [Entry(k, v)] + m[1..]
    else [m[0]] + Put(m[1..], k, v)
  }

  /** `m.mapValues { f(it.value) }`: same keys in the same order. */
  function MapValues<K, V, W>(m: seq<Entry<K, V>>, f: V -> W): (r: seq<Entry<K, W>>)
    ensures |r| == |m|
    ensures forall i :: 0 <= i < |m| ==> r[i] == Entry(m[i].key, f(m[i].value))
  {
    if m == [] then [] else [Entry(m[0].key, f(m[0].value))] + MapValues(m[1..], f)
  }

  /** Looking up a key after `mapValues` is looking it up before and applying the function. */
  lemma {:induction false} GetMapValues<K, V, W>(m: seq<Entry<K, V>>, f: V -> W, k: K)
    ensures Get(MapValues(m, f), k) == match Get(m, k) case Some(v) => Some(f(v)) case None => None
  {
    if m != [] && m[0].key != k {
      GetMapValues(m[1..], f, k);
    }
  }

  /** In a map, the value `Get` finds for an entry's key is that entry's value. */
  lemma GetEntry<K, V>(m: seq<Entry<K, V>>, i: int)
    requires UniqueKeys(m) && 0 <= i < |m|
    ensures Get(m, m[i].key) == Some(m[i].value)
  {
    var j :| 0 <= j < |m| && m[j] == Entry(m[i].key, Get(m, m[i].key).value);
  }

  /** Every entry of `Put(m, k, v)` is an entry of `m` or the new one. */
  lemma {:induction false} PutEntries<K, V>(m: seq<Entry<K, V>>, k: K, v: V)
    ensures forall e :: e in Put(m, k, v) ==> e in m || e == Entry(k, v)
  {
    if m != [] && m[0].key != k {
      PutEntries(m[1..], k, v);
      assert forall e :: e in m[1..] ==> e in m;
    } else if m != [] {
      assert forall e :: e in m[1..] ==> e in m;
    }
  }

  lemma {:induction false} GetPut<K, V>(m: seq<Entry<K, V>>, k: K, v: V, k': K)
    ensures Get(Put(m, k, v), k') == if k' == k then Some(v) else Get(m, k')
  {
    if m != [] && m[0].key != k {
      GetPut(m[1..], k, v, k');
    }
  }

  lemma {:induction false} PutKeepsUniqueKeys<K, V>(m: seq<Entry<K, V>>, k: K, v: V)
    requires UniqueKeys(m)
    ensures UniqueKeys(Put(m, k, v))
  {
    var r := Put(m, k, v);
    forall i, j | 0 <= i < j < |r| ensures r[i].key != r[j].key {
      assert Keys(r)[i] == r[i].key && Keys(r)[j] == r[j].key;
      assert Keys(m)[..] == Keys(m);
      if k !in Keys(m) && j == |m| {
        assert Keys(r)[i] == Keys(m)[i];
      } else {
        assert Keys(r)[i] == Keys(m)[i] && Keys(r)[j] == Keys(m)[j];
      }
    }
  }

  /** In a map with unique keys, the entry at position `i` is what `Get` finds for its key. */
  lemma {:induction false} GetAt<K, V>(m: seq<Entry<K, V>>, i: nat)
    requires UniqueKeys(m) && i < |m|
    ensures Get(m, m[i].key) == Some(m[i].value)
  {
    if i > 0 {
      assert m[0].key != m[i].key;
      GetAt(m[1..], i - 1);
    }
  }
}
