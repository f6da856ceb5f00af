/** The order of `BTreeMap<String, _>`, `BTreeSet<String>` and `Vec<String>::sort`. */
module Ordering {

  /** Lexicographic by character; on UTF-8 this is the order of the bytes. */
  predicate Less(a: string, b: string)
  {
    b != "" && (a == "" || a[0] < b[0] || (a[0] == b[0] && Less(a[1..], b[1..])))
  }

  lemma {:induction false} LessAsymmetric(a: string, b: string)
    ensures !(Less(a, b) && Less(b, a))
  {
    if a != "" && b != "" {
      LessAsymmetric(a[1..], b[1..]);
    }
  }

  lemma {:induction false} LessTotal(a: string, b: string)
    ensures Less(a, b) || a == b || Less(b, a)
  {
    if a != "" && b != "" {
      LessTotal(a[1..], b[1..]);
      if a[0] == b[0] && a[1..] == b[1..] {
        assert a == [a[0]] + a[1..] == b;
      }
    }
  }

  lemma {:induction false} LessTransitive(a: string, b: string, c: string)
    requires Less(a, b) && Less(b, c)
    ensures Less(a, c)
  {
    if a != "" && a[0] == b[0] == c[0] {
      LessTransitive(a[1..], b[1..], c[1..]);
    }
  }

  predicate IsLeast(m: string, s: set<string>)
  {
    m in s && forall x | x in s :: x == m || Less(m, x)
  }

  lemma {:induction false} LeastExists(s: set<string>)
    requires s != {}
    ensures exists m :: IsLeast(m, s)
  {
    var m :| m in s;
    if s == {m} {
      assert IsLeast(m, s);
    } else {
      var rest := s - {m};
      assert s == rest + {m};
      LeastExists(rest);
      var r :| IsLeast(r, rest);
      LessTotal(r, m);
      if Less(r, m) {
        assert IsLeast(r, s);
      } else {
        forall x | x in s ensures x == m || Less(m, x) {
          if x != m && x != r {
            LessTransitive(m, r, x);
          }
        }
        assert IsLeast(m, s);
      }
    }
  }

  lemma LeastUnique(s: set<string>)
    ensures forall a, b | IsLeast(a, s) && IsLeast(b, s) :: a == b
  {
    forall a, b | IsLeast(a, s) && IsLeast(b, s) ensures a == b {
      LessAsymmetric(a, b);
    }
  }

  function Least(s: set<string>): (m: string)
    requires s != {}
    ensures IsLeast(m, s)
  {
    LeastExists(s);
    LeastUnique(s);
    var m :| m in s && IsLeast(m, s);
    m
  }

  ghost predicate Ascending(ss: seq<string>)
  {
    forall i, j | 0 <= i < j < |ss| :: Less(ss[i], ss[j])
  }

  function Elements(ss: seq<string>): (s: set<string>)
  {
    set x | x in ss
  }

  /** The members of a set in order. */
  function Sorted(s: set<string>): (ss: seq<string>)
    ensures Ascending(ss) && Elements(ss) == s
    decreases s
  {
    if s == {} then []
    else
      var m := Least(s);
      var rest := Sorted(s - {m});
      assert forall x | x in rest :: x in Elements(rest) && Less(m, x);
      assert Elements([m] + rest) == {m} + Elements(rest);
      [m] + rest
  }

  lemma {:induction false} SortedUnique(a: seq<string>, b: seq<string>)
    requires Ascending(a) && Ascending(b) && Elements(a) == Elements(b)
    ensures a == b
    decreases |a|
  {
    NoElements(b);
    if a != [] {
      assert a[0] in Elements(b);
      HeadIsLeast(a);
      HeadIsLeast(b);
      LeastUnique(Elements(a));
      TailElements(a);
      TailElements(b);
      SortedUnique(a[1..], b[1..]);
    }
  }

  lemma NoElements(b: seq<string>)
    ensures Elements(b) == {} ==> b == []
  {
    assert b == [] || b[0] in Elements(b);
  }

  lemma HeadIsLeast(a: seq<string>)
    requires a != [] && Ascending(a)
    ensures IsLeast(a[0], Elements(a))
  {
  }

  lemma TailElements(a: seq<string>)
    requires a != [] && Ascending(a)
    ensures Elements(a[1..]) == Elements(a) - {a[0]}
    ensures Ascending(a[1..])
  {
    forall x | x in a[1..] ensures x != a[0] {
      LessAsymmetric(a[0], a[0]);
    }
  }

  lemma AscendingDistinct(a: seq<string>)
    requires Ascending(a)
    ensures forall i, j | 0 <= i < j < |a| :: a[i] != a[j]
  {
    forall i, j | 0 <= i < j < |a| ensures a[i] != a[j] {
      LessAsymmetric(a[i], a[j]);
    }
  }
}
