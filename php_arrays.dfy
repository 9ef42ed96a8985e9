/**
 * PHP arrays with string keys and string values, as the plugin stores them
 * in its two options: an ordered list of key/value entries in which no key
 * occurs twice. Assignment to a new key appends it; assignment to an existing
 * key replaces its value in place; `unset` removes the entry and keeps the
 * order of the others. `isset($a[$k])` is `HasKey(a, k)`: every value here is
 * a string, never null.
 */
module PhpArrays {

  datatype Option<T> = None | Some(value: T)

  type Entry = (string, string)

  /** No key occurs twice: the invariant every PHP array keeps. */
  predicate DistinctKeys(a: seq<Entry>)
  {
    forall i, j | 0 <= i < j < |a| :: a[i].0 != a[j].0
  }

  type PhpArray = a: seq<Entry> | DistinctKeys(a) witness []

  /** `isset($a[$k])` */
  predicate HasKey(a: seq<Entry>, k: string)
  {
    exists i | 0 <= i < |a| :: a[i].0 == k
  }

  /** Position of the first entry with key `k`. */
  function IndexOf(a: seq<Entry>, k: string): (i: nat)
    requires HasKey(a, k)
    ensures i < |a| && a[i].0 == k
    ensures forall j | 0 <= j < i :: a[j].0 != k
  {
    if a[0].0 == k then 0
    else
      assert HasKey(a[1..], k) by {
        var i :| 0 <= i < |a| && a[i].0 == k;
        assert a[1..][i - 1].0 == k;
      }
      1 + IndexOf(a[1..], k)
  }

  /** In a key-unique array the entry with key `k` is the only one. */
  lemma IndexOfUnique(a: PhpArray, i: int)
    requires 0 <= i < |a|
    ensures HasKey(a, a[i].0) && IndexOf(a, a[i].0) == i
  {
  }

  /** `$a[$k]`, or None when `$k` is not set. */
  function Lookup(a: seq<Entry>, k: string): (r: Option<string>)
    ensures r.Some? <==> HasKey(a, k)
    ensures r.Some? ==> r.value == a[IndexOf(a, k)].1
  {
    if a == [] then None
    else if a[0].0 == k then Some(a[0].1)
    else
      assert HasKey(a, k) ==> HasKey(a[1..], k) by {
        if HasKey(a, k) {
          var i :| 0 <= i < |a| && a[i].0 == k;
          assert a[1..][i - 1].0 == k;
        }
      }
      assert HasKey(a[1..], k) ==> HasKey(a, k) by {
        if HasKey(a[1..], k) {
          var i :| 0 <= i < |a[1..]| && a[1..][i].0 == k;
          assert a[i + 1].0 == k;
        }
      }
      Lookup(a[1..], k)
  }

  /** `$a[$k] = $v` */
  function Put(a: PhpArray, k: string, v: string): (r: PhpArray)
    ensures Lookup(r, k) == Some(v)
    ensures forall k' | k' != k :: Lookup(r, k') == Lookup(a, k')
    // keys already present keep their places; a new key goes last
    ensures |r| == if HasKey(a, k) then |a| else |a| + 1
    ensures forall i | 0 <= i < |a| :: r[i].0 == a[i].0
  {
    if HasKey(a, k) then
      var i := IndexOf(a, k);
      var r := a[i := (k, v)];
      assert forall j | 0 <= j < |r| :: r[j].0 == a[j].0;
      IndexOfUnique(r, i);
      forall k' | k' != k
        ensures Lookup(r, k') == Lookup(a, k')
      {
        if HasKey(a, k') {
          IndexOfUnique(r, IndexOf(a, k'));
        }
      }
      r
    else
      var r := a + [(k, v)];
      assert r[|a|].0 == k;
      assert IndexOf(r, k) == |a|;
      forall k' | k' != k
        ensures Lookup(r, k') == Lookup(a, k')
      {
        if HasKey(a, k') {
          var j := IndexOf(a, k');
          assert r[j].0 == k';
          IndexOfUnique(r, j);
        } else {
          assert !HasKey(r, k');
        }
      }
      r
  }

  /** `unset($a[$k])`: drop the entry with key `k`, keep the rest in order. */
  function Unset(a: PhpArray, k: string): (r: PhpArray)
    ensures forall e | e in r :: e in a && e.0 != k
  {
    if a == [] then []
    else if a[0].0 == k then
      assert forall e | e in a[1..] :: e.0 != k by {
        forall e | e in a[1..] ensures e.0 != k {
          var j :| 0 <= j < |a[1..]| && a[1..][j] == e;
          assert a[j + 1] == e;
        }
      }
      a[1..]
    else
      var tail := Unset(a[1..], k);
      var r := [a[0]] + tail;
      assert DistinctKeys(r) by {
        forall i | 0 < i < |r|
          ensures r[i].0 != a[0].0
        {
          assert r[i] in tail;
          var j :| 0 <= j < |a[1..]| && a[1..][j] == r[i];
          assert a[j + 1] == r[i];
        }
      }
      r
  }

  /** Unsetting `k` leaves every other key's value as it was. */
  lemma {:induction false} UnsetKeepsOthers(a: PhpArray, k: string, k': string)
    requires k' != k
    ensures Lookup(Unset(a, k), k') == Lookup(a, k')
  {
    if a != [] && a[0].0 != k {
      UnsetKeepsOthers(a[1..], k, k');
      if a[0].0 != k' {
        assert Unset(a, k)[1..] == Unset(a[1..], k);
      }
    }
  }

  /** Unsetting a key that is not set changes nothing. */
  lemma {:induction false} UnsetAbsent(a: PhpArray, k: string)
    requires !HasKey(a, k)
    ensures Unset(a, k) == a
  {
    if a != [] {
      UnsetAbsent(a[1..], k);
    }
  }

  /** Unsetting a key that is set removes exactly its entry and keeps the order of the rest. */
  lemma {:induction false} UnsetPresent(a: PhpArray, k: string)
    requires HasKey(a, k)
    ensures Unset(a, k) == a[..IndexOf(a, k)] + a[IndexOf(a, k) + 1..]
  {
    if a[0].0 != k {
      assert HasKey(a[1..], k) by { assert a[1..][IndexOf(a, k) - 1].0 == k; }
      UnsetPresent(a[1..], k);
      var i := IndexOf(a[1..], k);
      assert IndexOf(a, k) == i + 1;
      assert a[..i + 1] == [a[0]] + a[1..][..i];
      assert a[i + 2..] == a[1..][i + 1..];
    }
  }
}
