/** Small sequence utilities shared by the store, the session and the builder:
    an optional value, the first-index lookup that `Array.prototype.findIndex`
    performs, distinctness of keys, and the order-preserving filter that
    `Array.prototype.filter` performs. */
module Common {

  datatype Option<+T> = None | Some(value: T) {
    function GetOr(default: T): T {
      match this
      case Some(v) => v
      case None => default
    }
  }

  /** The first position of `key` in `keys`, or -1 when it does not occur. */
  function IndexOf<T(==)>(keys: seq<T>, key: T): (r: int)
    ensures -1 <= r < |keys|
    ensures r >= 0 ==> keys[r] == key && forall j :: 0 <= j < r ==> keys[j] != key
    ensures r == -1 <==> key !in keys
  {
    if keys == [] then -1
    else if keys[0] == key then 0
    else
      var k := IndexOf(keys[1..], key);
      if k < 0 then -1 else k + 1
  }

  /** Looking a key up after appending another key finds what it found before. */
  lemma {:induction false} IndexOfAppendOther<T>(keys: seq<T>, extra: T, key: T)
    requires key != extra
    ensures IndexOf(keys + [extra], key) == IndexOf(keys, key)
  {
    if keys != [] && keys[0] != key {
      assert (keys + [extra])[1..] == keys[1..] + [extra];
      IndexOfAppendOther(keys[1..], extra, key);
    }
  }

  /** A key whose first occurrence is at `k` is found at `k`. */
  lemma IndexOfFirst<T>(keys: seq<T>, key: T, k: int)
    requires 0 <= k < |keys| && keys[k] == key
    requires forall j :: 0 <= j < k ==> keys[j] != key
    ensures IndexOf(keys, key) == k
  {
  }

  /** In a sequence without repeats, the element at `i` is found at `i`. */
  lemma IndexOfDistinct<T>(keys: seq<T>, i: int)
    requires Distinct(keys) && 0 <= i < |keys|
    ensures IndexOf(keys, keys[i]) == i
  {
  }

  /** No value occurs twice. */
  ghost predicate Distinct<T>(s: seq<T>) {
    forall i, j :: 0 <= i < j < |s| ==> s[i] != s[j]
  }

  /** The elements of `s` that satisfy `keep`, in their original order. */
  function Filter<T>(s: seq<T>, keep: T -> bool): (r: seq<T>)
    ensures |r| <= |s|
  {
    if s == [] then []
    else if keep(s[0]) then [s[0]] + Filter(s[1..], keep)
    else Filter(s[1..], keep)
  }

  /** What survives a filter: exactly the elements that satisfy `keep`. */
  lemma {:induction false} FilterMembers<T>(s: seq<T>, keep: T -> bool)
    ensures forall i :: 0 <= i < |Filter(s, keep)| ==> Filter(s, keep)[i] in s && keep(Filter(s, keep)[i])
    ensures forall i :: 0 <= i < |s| && keep(s[i]) ==> s[i] in Filter(s, keep)
  {
    if s != [] {
      FilterMembers(s[1..], keep);
    }
  }

  /** Filtering distributes over concatenation: survivors keep their relative order. */
  lemma {:induction false} FilterAppend<T>(a: seq<T>, b: seq<T>, keep: T -> bool)
    ensures Filter(a + b, keep) == Filter(a, keep) + Filter(b, keep)
  {
    if a == [] {
      assert a + b == b;
    } else {
      var tail := a[1..] + b;
      assert a + b == [a[0]] + tail && (a + b)[1..] == tail;
      FilterAppend(a[1..], b, keep);
      if keep(a[0]) {
        calc {
          Filter(a + b, keep);
          [a[0]] + Filter(tail, keep);
          [a[0]] + (Filter(a[1..], keep) + Filter(b, keep));
          ([a[0]] + Filter(a[1..], keep)) + Filter(b, keep);
        }
      }
    }
  }

  /** Filtering with a condition every element meets changes nothing. */
  lemma {:induction false} FilterKeepsAll<T>(s: seq<T>, keep: T -> bool)
    requires forall i :: 0 <= i < |s| ==> keep(s[i])
    ensures Filter(s, keep) == s
  {
    if s != [] {
      FilterKeepsAll(s[1..], keep);
    }
  }
}
