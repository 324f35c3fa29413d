/** Python's total order on strings (code point by code point) and `sorted` on a set of strings. */
module Ordering {

  type Key = string

  predicate Leq(a: Key, b: Key) {
    a == [] || (b != [] && (a[0] < b[0] || (a[0] == b[0] && Leq(a[1..], b[1..]))))
  }

  lemma {:induction false} LeqTotal(a: Key, b: Key)
    ensures Leq(a, b) || Leq(b, a)
  {
    if a != [] && b != [] && a[0] == b[0] {
      LeqTotal(a[1..], b[1..]);
    }
  }

  lemma {:induction false} LeqAntisymmetric(a: Key, b: Key)
    requires Leq(a, b) && Leq(b, a)
    ensures a == b
  {
    if a != [] {
      LeqAntisymmetric(a[1..], b[1..]);
      assert a == [a[0]] + a[1..] && b == [b[0]] + b[1..];
    }
  }

  lemma {:induction false} LeqTransitive(a: Key, b: Key, c: Key)
    requires Leq(a, b) && Leq(b, c)
    ensures Leq(a, c)
  {
    if a != [] && a[0] == b[0] && b[0] == c[0] {
      LeqTransitive(a[1..], b[1..], c[1..]);
    }
  }

  ghost function Elements<T>(s: seq<T>): set<T> {
    set x | x in s
  }

  ghost predicate Distinct<T>(s: seq<T>) {
    forall i, j :: 0 <= i < j < |s| ==> s[i] != s[j]
  }

  // Without repetition, there are as many elements as positions.
  lemma {:induction false} Cardinality(a: seq<Key>)
    requires Distinct(a)
    ensures |Elements(a)| == |a|
  {
    if a != [] {
      Cardinality(a[..|a| - 1]);
      assert Elements(a) == Elements(a[..|a| - 1]) + {a[|a| - 1]};
      assert a[|a| - 1] !in Elements(a[..|a| - 1]);
    }
  }

  // A prefix comes first; otherwise the first character that differs decides.
  ghost predicate Lexicographic(a: Key, b: Key) {
    a <= b || exists i :: 0 <= i < |a| && i < |b| && a[..i] == b[..i] && a[i] < b[i]
  }

  lemma {:induction false} LeqMeans(a: Key, b: Key)
    ensures Leq(a, b) <==> Lexicographic(a, b)
  {
    if a != [] && b != [] && a[0] == b[0] {
      LeqMeans(a[1..], b[1..]);
      if Lexicographic(a[1..], b[1..]) && !(a[1..] <= b[1..]) {
        var i :| 0 <= i < |a[1..]| && i < |b[1..]| && a[1..][..i] == b[1..][..i] && a[1..][i] < b[1..][i];
        assert a[..i + 1] == [a[0]] + a[1..][..i] && b[..i + 1] == [b[0]] + b[1..][..i];
      }
      if Lexicographic(a, b) && !(a <= b) {
        var i :| 0 <= i < |a| && i < |b| && a[..i] == b[..i] && a[i] < b[i];
        assert i > 0;
        assert a[1..][..i - 1] == a[..i][1..] && b[1..][..i - 1] == b[..i][1..];
        assert a[1..][i - 1] < b[1..][i - 1];
      }
    } else if a != [] && b != [] {
      if a[0] < b[0] {
        assert a[..0] == b[..0];
      }
      assert forall i :: 0 < i < |a| && i < |b| && a[..i] == b[..i] ==> a[..i][0] == b[..i][0];
    }
  }

  // Strictly ascending: sorted and without repetition.
  ghost predicate Ascending(s: seq<Key>) {
    forall i, j :: 0 <= i < j < |s| ==> s[i] != s[j] && Leq(s[i], s[j])
  }

  lemma {:induction false} LeastExists(s: set<Key>)
    requires s != {}
    ensures exists m :: m in s && forall k :: k in s ==> Leq(m, k)
  {
    var x :| x in s;
    if s == {x} {
      LeqTotal(x, x);
    } else {
      LeastExists(s - {x});
      var m :| m in s - {x} && forall k :: k in s - {x} ==> Leq(m, k);
      LeqTotal(m, x);
      LeqTotal(x, x);
      if Leq(x, m) {
        forall k | k in s ensures Leq(x, k) {
          if k != x { LeqTransitive(x, m, k); }
        }
      } else {
        assert forall k :: k in s ==> k == x || k in s - {x};
      }
    }
  }

  // `sorted(...)` on distinct strings.
  method Sorted(keys: set<Key>) returns (r: seq<Key>)
    ensures Ascending(r) && Elements(r) == keys
  {
    r := [];
    var rest := keys;
    while rest != {}
      invariant rest <= keys && Elements(r) == keys - rest
      invariant Ascending(r)
      invariant forall a, b :: a in r && b in rest ==> Leq(a, b)
      decreases |rest|
    {
      LeastExists(rest);
      var m :| m in rest && forall k :: k in rest ==> Leq(m, k);
      assert Elements(r + [m]) == Elements(r) + {m};
      r := r + [m];
      rest := rest - {m};
    }
  }

  // `list(dict.fromkeys(items))`: first occurrences, in order.
  function Dedup<T(==)>(items: seq<T>): (r: seq<T>)
    ensures Distinct(r) && Elements(r) == Elements(items)
  {
    if items == [] then []
    else
      var front, last := Dedup(items[..|items| - 1]), items[|items| - 1];
      assert items == items[..|items| - 1] + [last];
      assert Elements(items) == Elements(items[..|items| - 1]) + {last};
      if last in front then front
      else
        assert Elements(front + [last]) == Elements(front) + {last};
        front + [last]
  }
}
