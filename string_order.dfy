/** The order of std::string keys: `operator<` compares character by
    character, and a proper prefix comes first. A `std::map<std::string, _>`
    is iterated in ascending order of this relation. */
module StringOrder {

  /** `a < b` on std::string. */
  predicate Below(a: string, b: string)
    decreases |a|
  {
    if a == [] then b != []
    else b != [] && (a[0] < b[0] || (a[0] == b[0] && Below(a[1..], b[1..])))
  }

  lemma {:induction false} BelowIrreflexive(a: string)
    ensures !Below(a, a)
    decreases |a|
  {
    if a != [] {
      BelowIrreflexive(a[1..]);
    }
  }

  lemma {:induction false} BelowTransitive(a: string, b: string, c: string)
    requires Below(a, b) && Below(b, c)
    ensures Below(a, c)
    decreases |a|
  {
    if a != [] && a[0] == b[0] && b[0] == c[0] {
      BelowTransitive(a[1..], b[1..], c[1..]);
    }
  }

  lemma {:induction false} BelowTotal(a: string, b: string)
    ensures a == b || Below(a, b) || Below(b, a)
    decreases |a|
  {
    if a != [] && b != [] && a[0] == b[0] {
      BelowTotal(a[1..], b[1..]);
      if a[1..] == b[1..] {
        assert a == [a[0]] + a[1..] && b == [b[0]] + b[1..];
      }
    }
  }

  /** `k` is the smallest key of `s`. */
  predicate IsLeast(k: string, s: set<string>)
  {
    k in s && forall j {:trigger Below(k, j)} :: j in s ==> j == k || Below(k, j)
  }

  lemma {:induction false} LeastExists(s: set<string>)
    requires s != {}
    ensures exists k :: IsLeast(k, s)
    decreases |s|
  {
    var x :| x in s;
    var rest := s - {x};
    if rest == {} {
      assert forall j :: j in s ==> j in rest || j == x;
      assert IsLeast(x, s);
    } else {
      LeastExists(rest);
      var y :| IsLeast(y, rest);
      BelowTotal(x, y);
      if Below(x, y) {
        forall j | j in s
          ensures j == x || Below(x, j)
        {
          if j != x && j != y {
            BelowTransitive(x, y, j);
          }
        }
        assert IsLeast(x, s);
      } else {
        assert IsLeast(y, s);
      }
    }
  }

  lemma LeastUnique(s: set<string>)
    ensures forall a, b :: IsLeast(a, s) && IsLeast(b, s) ==> a == b
  {
    forall a, b | IsLeast(a, s) && IsLeast(b, s)
      ensures a == b
    {
      if a != b {
        BelowTransitive(a, b, a);
        BelowIrreflexive(a);
      }
    }
  }

  /** The smallest key of a non-empty set. */
  function Least(s: set<string>): (k: string)
    requires s != {}
    ensures k in s
  {
    LeastExists(s);
    LeastUnique(s);
    var k :| IsLeast(k, s);
    k
  }

  lemma LeastIsLeast(s: set<string>)
    requires s != {}
    ensures IsLeast(Least(s), s)
  {
  }

  /** The keys of `s` in the order a std::map visits them (AscendingKeys,
      AscendingDistinct and AscendingSorted state what that order is). */
  function Ascending(s: set<string>): seq<string>
    decreases |s|
  {
    if s == {} then [] else [Least(s)] + Ascending(s - {Least(s)})
  }

  /** Ascending lists every key of `s` and nothing else. */
  lemma {:induction false} AscendingKeys(s: set<string>)
    ensures forall k :: k in Ascending(s) <==> k in s
    decreases |s|
  {
    if s != {} {
      var k := Least(s);
      AscendingKeys(s - {k});
    }
  }

  /** Ascending lists no key twice. */
  lemma {:induction false} AscendingDistinct(s: set<string>)
    ensures forall i, j :: 0 <= i < j < |Ascending(s)| ==> Ascending(s)[i] != Ascending(s)[j]
    decreases |s|
  {
    if s != {} {
      var r := Ascending(s);
      var k := Least(s);
      assert r[1..] == Ascending(s - {k});
      AscendingDistinct(s - {k});
      AscendingKeys(s - {k});
      forall i, j | 0 <= i < j < |r|
        ensures r[i] != r[j]
      {
        assert r[j] == r[1..][j - 1] && r[1..][j - 1] in Ascending(s - {k});
        if i > 0 {
          assert r[i] == r[1..][i - 1];
        }
      }
    }
  }

  /** Ascending lists the keys in strictly increasing std::string order. */
  lemma {:induction false} AscendingSorted(s: set<string>)
    ensures forall i, j :: 0 <= i < j < |Ascending(s)| ==> Below(Ascending(s)[i], Ascending(s)[j])
    decreases |s|
  {
    if s != {} {
      var r := Ascending(s);
      var k := Least(s);
      LeastIsLeast(s);
      assert r[1..] == Ascending(s - {k});
      AscendingSorted(s - {k});
      AscendingKeys(s - {k});
      AscendingKeys(s);
      forall i, j | 0 <= i < j < |r|
        ensures Below(r[i], r[j])
      {
        if i == 0 {
          assert r[j] == r[1..][j - 1];
          assert r[j] in s && r[j] != k;
        } else {
          assert r[i] == r[1..][i - 1] && r[j] == r[1..][j - 1];
        }
      }
    }
  }
}
