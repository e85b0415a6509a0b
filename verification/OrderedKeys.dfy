/** The iteration order of `std::map<std::string, T>`: the keys, each once, in ascending order. */
module OrderedKeys {

  /** Lexicographic comparison of two keys. */
  predicate Less(a: string, b: string)
  {
    b != "" && (a == "" || a[0] < b[0] || (a[0] == b[0] && Less(a[1..], b[1..])))
  }

  lemma {:induction false} LessTransitive(a: string, b: string, c: string)
    requires Less(a, b) && Less(b, c)
    ensures Less(a, c)
  {
    if a != "" && a[0] == b[0] == c[0] {
      LessTransitive(a[1..], b[1..], c[1..]);
    }
  }

  lemma {:induction false} LessTotal(a: string, b: string)
    ensures a == b || Less(a, b) || Less(b, a)
    ensures !(Less(a, b) && Less(b, a)) && !Less(a, a)
  {
    if a != "" && b != "" {
      LessTotal(a[1..], b[1..]);
      assert a == [a[0]] + a[1..] && b == [b[0]] + b[1..];
    }
    if a != "" {
      LessTotal(a[1..], a[1..]);
    }
  }

  predicate IsLeast(k: string, keys: set<string>)
  {
    k in keys && forall other :: other in keys && other != k ==> Less(k, other)
  }

  lemma LeastExists(keys: set<string>)
    requires keys != {}
    ensures exists k :: IsLeast(k, keys)
  {
    var x :| x in keys;
    var rest := keys - {x};
    if rest == {} {
      assert keys == {x};
      assert IsLeast(x, keys);
    } else {
      LeastExists(rest);
      var y :| IsLeast(y, rest);
      LessTotal(x, y);
      var k := if Less(x, y) then x else y;
      forall other | other in keys && other != k
        ensures Less(k, other)
      {
        if Less(x, y) && other != y {
          LessTransitive(x, y, other);
        }
      }
      assert IsLeast(k, keys);
    }
  }

  function Least(keys: set<string>): (k: string)
    requires keys != {}
    ensures IsLeast(k, keys)
  {
    LeastExists(keys);
    assert forall a, b :: IsLeast(a, keys) && IsLeast(b, keys) ==> a == b by {
      forall a, b | IsLeast(a, keys) && IsLeast(b, keys)
        ensures a == b
      {
        LessTotal(a, b);
      }
    }
    var k :| IsLeast(k, keys);
    k
  }

  /** All keys in the order a range-based `for` over the map visits them. */
  function Sorted(keys: set<string>): (order: seq<string>)
    ensures forall k :: k in order <==> k in keys
    ensures forall i, j :: 0 <= i < j < |order| ==> Less(order[i], order[j])
  {
    if keys == {} then
      []
    else
      var k := Least(keys);
      [k] + Sorted(keys - {k})
  }

  lemma SortedDistinct(keys: set<string>)
    ensures forall i, j :: 0 <= i < j < |Sorted(keys)| ==> Sorted(keys)[i] != Sorted(keys)[j]
  {
    forall i, j | 0 <= i < j < |Sorted(keys)|
      ensures Sorted(keys)[i] != Sorted(keys)[j]
    {
      LessTotal(Sorted(keys)[i], Sorted(keys)[j]);
    }
  }

  lemma {:induction false} SortedLength(keys: set<string>)
    ensures |Sorted(keys)| == |keys|
  {
    if keys != {} {
      SortedLength(keys - {Least(keys)});
    }
  }

  /** What comes before a key in the order is what is less than it. */
  lemma SortedPrefix(keys: set<string>, i: nat, k: string)
    requires i < |Sorted(keys)|
    ensures k in Sorted(keys)[..i] <==> k in keys && Less(k, Sorted(keys)[i])
  {
    var order := Sorted(keys);
    if k in keys {
      var j :| 0 <= j < |order| && order[j] == k;
      LessTotal(order[i], k);
      if j < i {
        assert order[..i][j] == k;
      }
      SortedDistinct(keys);
    }
  }
}
