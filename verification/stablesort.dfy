/**
 * A stable sort of positions by real keys, as Python's `sorted` with a key
 * function orders the B-roll clips: ascending by key, and clips with equal
 * keys keep their original relative order.
 */
module StableSort {

  /** Position `a` comes before position `b`: a smaller key, or an equal key and an earlier position. */
  predicate Before(keys: seq<real>, a: nat, b: nat)
    requires a < |keys| && b < |keys|
  {
    keys[a] < keys[b] || (keys[a] == keys[b] && a < b)
  }

  /** Every element of `s` is a position of `keys`. */
  predicate Positions(keys: seq<real>, s: seq<nat>)
  {
    forall k :: 0 <= k < |s| ==> s[k] < |keys|
  }

  /** Strictly ordered by `Before`, which also makes the elements distinct. */
  predicate SortedBy(keys: seq<real>, s: seq<nat>)
    requires Positions(keys, s)
  {
    forall i, j :: 0 <= i < j < |s| ==> Before(keys, s[i], s[j])
  }

  /** Insert position `x` into a sorted sequence, after every position that comes before it. */
  function Insert(keys: seq<real>, x: nat, s: seq<nat>): (r: seq<nat>)
    requires x < |keys| && Positions(keys, s) && SortedBy(keys, s)
    requires forall k :: 0 <= k < |s| ==> s[k] != x
    ensures |r| == |s| + 1 && Positions(keys, r) && SortedBy(keys, r)
    ensures forall y: nat :: y in r <==> y == x || y in s
  {
    if |s| == 0 then [x]
    else if Before(keys, x, s[0]) then
      assert forall k :: 0 <= k < |s| ==> Before(keys, x, s[k]) by {
        forall k | 0 <= k < |s| ensures Before(keys, x, s[k]) {
          if k > 0 { assert Before(keys, s[0], s[k]); }
        }
      }
      [x] + s
    else
      var rest := Insert(keys, x, s[1..]);
      assert Before(keys, s[0], x);
      assert forall k :: 0 <= k < |rest| ==> Before(keys, s[0], rest[k]) by {
        forall k | 0 <= k < |rest| ensures Before(keys, s[0], rest[k]) {
          assert rest[k] in rest;
          if rest[k] != x {
            var m :| 0 <= m < |s[1..]| && s[1..][m] == rest[k];
            assert s[m + 1] == rest[k];
          }
        }
      }
      var r := [s[0]] + rest;
      assert forall i, j :: 0 <= i < j < |r| ==> Before(keys, r[i], r[j]) by {
        forall i, j | 0 <= i < j < |r| ensures Before(keys, r[i], r[j]) {
          if i == 0 {
            assert r[j] == rest[j - 1];
          } else {
            assert r[i] == rest[i - 1] && r[j] == rest[j - 1];
          }
        }
      }
      r
  }

  /** The first `n` positions of `keys`, stably sorted by key. */
  function SortPrefix(keys: seq<real>, n: nat): (r: seq<nat>)
    requires n <= |keys|
    ensures |r| == n && Positions(keys, r) && SortedBy(keys, r)
    ensures forall y: nat :: y in r <==> y < n
  {
    if n == 0 then []
    else
      var s := SortPrefix(keys, n - 1);
      assert forall k :: 0 <= k < |s| ==> s[k] != n - 1 by {
        forall k | 0 <= k < |s| ensures s[k] != n - 1 {
          assert s[k] in s;
        }
      }
      Insert(keys, n - 1, s)
  }

  /**
   * The stable order of all positions: a permutation of `0..|keys|` in which
   * keys ascend and equal keys keep their original order.
   */
  function StableOrder(keys: seq<real>): (r: seq<nat>)
    ensures |r| == |keys| && Positions(keys, r)
    ensures forall y: nat :: y in r <==> y < |keys|
    ensures forall i, j :: 0 <= i < j < |r| ==> keys[r[i]] <= keys[r[j]]
    ensures forall i, j :: 0 <= i < j < |r| && keys[r[i]] == keys[r[j]] ==> r[i] < r[j]
    ensures forall i, j :: 0 <= i < j < |r| ==> r[i] != r[j]
  {
    var r := SortPrefix(keys, |keys|);
    assert forall i, j :: 0 <= i < j < |r| ==> Before(keys, r[i], r[j]);
    r
  }
}
