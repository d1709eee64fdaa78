/** Python's ordering of `str` values and `sorted(set(xs))`, which the
    sidebar uses for its state and district option lists and pandas'
    `groupby` uses for its group keys. */
module Order {

  /** `a < b` on Python strings: lexicographic by code point, a proper
      prefix sorting first. */
  predicate Less(a: string, b: string)
    decreases |a|
  {
    if |a| == 0 then |b| > 0
    else |b| > 0 && (a[0] < b[0] || (a[0] == b[0] && Less(a[1..], b[1..])))
  }

  lemma {:induction false} LessIrreflexive(a: string)
    ensures !Less(a, a)
    decreases |a|
  {
    if |a| > 0 {
      LessIrreflexive(a[1..]);
    }
  }

  lemma {:induction false} LessTransitive(a: string, b: string, c: string)
    requires Less(a, b) && Less(b, c)
    ensures Less(a, c)
    decreases |a|
  {
    if |a| > 0 && a[0] == b[0] && b[0] == c[0] {
      LessTransitive(a[1..], b[1..], c[1..]);
    }
  }

  lemma {:induction false} LessTotal(a: string, b: string)
    ensures a == b || Less(a, b) || Less(b, a)
    decreases |a|
  {
    if |a| > 0 && |b| > 0 && a[0] == b[0] {
      LessTotal(a[1..], b[1..]);
      if a[1..] == b[1..] {
        assert a == [a[0]] + a[1..] && b == [b[0]] + b[1..];
      }
    }
  }

  lemma LessAsymmetric(a: string, b: string)
    requires Less(a, b)
    ensures !Less(b, a)
  {
    if Less(b, a) {
      LessTransitive(a, b, a);
      LessIrreflexive(a);
    }
  }

  /** Ascending with no repeated element. */
  predicate StrictlySorted(s: seq<string>) {
    forall i, j :: 0 <= i < j < |s| ==> Less(s[i], s[j])
  }

  /** `x` placed into the strictly sorted `s`, unless already present. */
  function Insert(x: string, s: seq<string>): seq<string> {
    if s == [] then [x]
    else if x == s[0] then s
    else if Less(x, s[0]) then [x] + s
    else [s[0]] + Insert(x, s[1..])
  }

  lemma {:induction false} InsertKeepsOrder(x: string, s: seq<string>)
    requires StrictlySorted(s)
    ensures StrictlySorted(Insert(x, s))
    ensures forall y :: y in Insert(x, s) <==> y == x || y in s
  {
    if s == [] || x == s[0] {
    } else if Less(x, s[0]) {
      var r := [x] + s;
      forall i, j | 0 <= i < j < |r| ensures Less(r[i], r[j]) {
        if i == 0 && j > 1 {
          LessTransitive(x, s[0], s[j - 1]);
        }
      }
    } else {
      LessTotal(x, s[0]);
      var t := s[1..];
      assert StrictlySorted(t) by {
        forall i, j | 0 <= i < j < |t| ensures Less(t[i], t[j]) {
          assert t[i] == s[i + 1] && t[j] == s[j + 1];
        }
      }
      InsertKeepsOrder(x, t);
      var it := Insert(x, t);
      var r := [s[0]] + it;
      forall i, j | 0 <= i < j < |r| ensures Less(r[i], r[j]) {
        if i == 0 {
          assert r[j] in it;
          if r[j] != x {
            var k :| 0 <= k < |t| && t[k] == r[j];
            assert s[k + 1] == r[j];
          }
        } else {
          assert r[i] == it[i - 1] && r[j] == it[j - 1];
        }
      }
      assert s == [s[0]] + t;
    }
  }

  /** `sorted(set(xs))`: the distinct elements of `xs`, ascending. */
  function SortedUnique(xs: seq<string>): (r: seq<string>)
    ensures StrictlySorted(r)
    ensures forall y :: y in r <==> y in xs
  {
    if xs == [] then []
    else
      var rest := SortedUnique(xs[1..]);
      InsertKeepsOrder(xs[0], rest);
      assert forall y :: y in xs <==> y == xs[0] || y in xs[1..];
      Insert(xs[0], rest)
  }

  /** A strictly sorted sequence is fixed by its elements: `SortedUnique`
      is the only list that `sorted(set(xs))` can return. */
  lemma {:induction false} StrictlySortedUnique(s: seq<string>, t: seq<string>)
    requires StrictlySorted(s) && StrictlySorted(t)
    requires forall y :: y in s <==> y in t
    ensures s == t
  {
    if s != [] || t != [] {
      assert s != [] && t != [] by {
        if s != [] { assert s[0] in t; }
        if t != [] { assert t[0] in s; }
      }
      assert s[0] in t && t[0] in s;
      var k :| 0 <= k < |t| && t[k] == s[0];
      var m :| 0 <= m < |s| && s[m] == t[0];
      if k > 0 {
        assert Less(t[0], s[0]);
        if m > 0 {
          assert Less(s[0], t[0]);
          LessAsymmetric(s[0], t[0]);
        } else {
          LessIrreflexive(s[0]);
        }
      }
      var s', t' := s[1..], t[1..];
      forall y ensures y in s' <==> y in t' {
        if y in s' {
          var i :| 0 <= i < |s'| && s'[i] == y;
          assert Less(s[0], s[i + 1]);
          LessIrreflexive(y);
          assert y in t && y != t[0];
          assert t == [t[0]] + t';
        }
        if y in t' {
          var i :| 0 <= i < |t'| && t'[i] == y;
          assert Less(t[0], t[i + 1]);
          LessIrreflexive(y);
          assert y in s && y != s[0];
          assert s == [s[0]] + s';
        }
      }
      assert StrictlySorted(s') by {
        forall i, j | 0 <= i < j < |s'| ensures Less(s'[i], s'[j]) {
          assert s'[i] == s[i + 1] && s'[j] == s[j + 1];
        }
      }
      assert StrictlySorted(t') by {
        forall i, j | 0 <= i < j < |t'| ensures Less(t'[i], t'[j]) {
          assert t'[i] == t[i + 1] && t'[j] == t[j + 1];
        }
      }
      StrictlySortedUnique(s', t');
      assert s == [s[0]] + s' && t == [t[0]] + t';
    }
  }
}
