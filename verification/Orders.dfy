/** The order of identifiers: the iteration order of every ordered set and map of the source. */
module Orders {
  import opened Core

  /** Lexicographic order of strings by character. */
  predicate LexLess(a: string, b: string) {
    if a == "" then b != ""
    else if b == "" then false
    else if a[0] == b[0] then LexLess(a[1..], b[1..])
    else a[0] < b[0]
  }

  predicate Less(a: Id, b: Id) {
    LexLess(a.name, b.name)
  }

  lemma {:induction false} LexTotal(a: string, b: string)
    ensures a != b ==> LexLess(a, b) || LexLess(b, a)
    ensures !(LexLess(a, b) && LexLess(b, a))
    ensures LexLess(a, b) ==> a != b
    decreases |a|
  {
    if a != "" && b != "" && a[0] == b[0] {
      LexTotal(a[1..], b[1..]);
      assert a == [a[0]] + a[1..] && b == [b[0]] + b[1..];
    }
  }

  lemma {:induction false} LexTransitive(a: string, b: string, c: string)
    requires LexLess(a, b) && LexLess(b, c)
    ensures LexLess(a, c)
    decreases |a|
  {
    if a != "" && b != "" && c != "" && a[0] == b[0] == c[0] {
      LexTransitive(a[1..], b[1..], c[1..]);
    }
  }

  predicate IsMin(m: Id, s: set<Id>) {
    m in s && forall x | x in s :: x == m || Less(m, x)
  }

  lemma {:induction false} MinExists(s: set<Id>)
    requires s != {}
    ensures exists m :: IsMin(m, s)
    decreases |s|
  {
    var x :| x in s;
    var rest := s - {x};
    if rest == {} {
      assert s == rest + {x};
      assert IsMin(x, s);
    } else {
      MinExists(rest);
      var m :| IsMin(m, rest);
      LexTotal(m.name, x.name);
      assert m != x;
      if Less(m, x) {
        assert IsMin(m, s);
      } else {
        forall y | y in s ensures y == x || Less(x, y) {
          if y != x && y != m {
            assert y in rest && Less(m, y);
            LexTransitive(x.name, m.name, y.name);
          }
        }
        assert IsMin(x, s);
      }
    }
  }

  lemma {:induction false} MinUnique(s: set<Id>)
    ensures forall m, n | IsMin(m, s) && IsMin(n, s) :: m == n
  {
    forall m, n | IsMin(m, s) && IsMin(n, s) ensures m == n {
      LexTotal(m.name, n.name);
    }
  }

  /** The first element in iteration order. */
  function First(s: set<Id>): (m: Id)
    requires s != {}
    ensures IsMin(m, s)
  {
    MinExists(s);
    MinUnique(s);
    var m :| IsMin(m, s);
    m
  }

  /** The elements of an ordered set in iteration order. */
  function Sorted(s: set<Id>): (r: seq<Id>)
    decreases |s|
  {
    if s == {} then [] else
      var m := First(s);
      [m] + Sorted(s - {m})
  }

  ghost predicate Ascending(s: seq<Id>) {
    forall i, j | 0 <= i < j < |s| :: Less(s[i], s[j])
  }

  /** Sorting a set lists exactly its elements, each once, in ascending order. */
  lemma {:induction false} SortedSpec(s: set<Id>)
    ensures forall x :: x in Sorted(s) <==> x in s
    ensures Ascending(Sorted(s))
    ensures Distinct(Sorted(s))
    ensures |Sorted(s)| == |s|
    decreases |s|
  {
    if s != {} {
      var m := First(s);
      var rest := Sorted(s - {m});
      SortedSpec(s - {m});
      assert Sorted(s) == [m] + rest;
      forall i, j | 0 <= i < j < |rest| + 1
        ensures Less(([m] + rest)[i], ([m] + rest)[j]) && ([m] + rest)[i] != ([m] + rest)[j]
      {
        assert rest[j - 1] in rest;
        if i > 0 {
          assert Less(rest[i - 1], rest[j - 1]);
        }
      }
    }
  }
}
