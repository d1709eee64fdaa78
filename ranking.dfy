/** The state ranking each tab draws beside its map (dash17.py:214-219,
    263-271 and their copies at 427-432, 476-484, 662-667, 711-719): the
    mean of one metric column per state of `df_filt`, sorted in descending
    order, and the bar table made of its first ten and last ten entries. */
module Ranking {
  import opened Records
  import opened Order
  import Stats
  import Sidebar

  /** The columns a tab's metric selector can name. */
  datatype Metric =
    | FuncElectricity | FuncWater | PctToiletFuncGirls | FuncHandwash | InfraIndex
    | Ramps | Handrails | EquityIndex
    | Internet | IctLab | ComputerYn

  /** One metric cell of a row; every metric is a 0/1 indicator or an index. */
  function Value(s: School, m: Metric): (v: real)
    ensures 0.0 <= v <= 1.0
  {
    match m
    case FuncElectricity => s.funcElectricity as real
    case FuncWater => s.funcWater as real
    case PctToiletFuncGirls => s.pctToiletFuncGirls as real
    case FuncHandwash => s.funcHandwash as real
    case InfraIndex => s.infraIndex
    case Ramps => s.ramps as real
    case Handrails => s.handrails as real
    case EquityIndex => s.equityIndex
    case Internet => s.internet as real
    case IctLab => s.ictLab as real
    case ComputerYn => s.computerYn as real
  }

  /** `df[col]`. */
  function Column(df: seq<School>, m: Metric): (col: seq<real>)
    ensures |col| == |df| && Stats.AllShares(col)
  {
    if df == [] then [] else [Value(df[0], m)] + Column(df[1..], m)
  }

  /** The rows of one `groupby("state")` group, in table order. */
  function RowsOf(df: seq<School>, st: string): seq<School> {
    if df == [] then []
    else (if df[0].state == st then [df[0]] else []) + RowsOf(df[1..], st)
  }

  lemma {:induction false} RowsOfNonEmpty(df: seq<School>, st: string)
    requires st in Sidebar.StateOptions(df)
    ensures |RowsOf(df, st)| > 0
  {
    var s :| s in df && s.state == st;
    if df[0].state != st {
      assert s in df[1..] by {
        assert df == [df[0]] + df[1..];
      }
      RowsOfNonEmpty(df[1..], st);
    }
  }

  /** Every key names a state of `df`. */
  predicate KeysPresent(df: seq<School>, keys: seq<string>) {
    forall i :: 0 <= i < |keys| ==> keys[i] in Sidebar.StateOptions(df)
  }

  /** A state together with the mean of the chosen metric over its rows. */
  datatype StateMean = StateMean(state: string, mean: real)

  function GroupMeans(df: seq<School>, keys: seq<string>, m: Metric): seq<StateMean>
    requires KeysPresent(df, keys)
  {
    if keys == [] then []
    else
      RowsOfNonEmpty(df, keys[0]);
      assert KeysPresent(df, keys[1..]) by {
        forall i | 0 <= i < |keys[1..]| ensures keys[1..][i] in Sidebar.StateOptions(df) {
          assert keys[1..][i] == keys[i + 1];
        }
      }
      [StateMean(keys[0], Stats.Mean(Column(RowsOf(df, keys[0]), m)))] + GroupMeans(df, keys[1..], m)
  }

  /** `df.groupby("state")[col].mean()`: one entry per state of `df`, keys
      ascending as `groupby` sorts them. */
  function StateMeans(df: seq<School>, m: Metric): seq<StateMean> {
    GroupMeans(df, Sidebar.StateOptions(df), m)
  }

  lemma {:induction false} GroupMeansLength(df: seq<School>, keys: seq<string>, m: Metric)
    requires KeysPresent(df, keys)
    ensures |GroupMeans(df, keys, m)| == |keys|
  {
    if keys != [] {
      KeysPresentTail(df, keys);
      GroupMeansLength(df, keys[1..], m);
    }
  }

  lemma KeysPresentTail(df: seq<School>, keys: seq<string>)
    requires keys != [] && KeysPresent(df, keys)
    ensures KeysPresent(df, keys[1..])
  {
    forall i | 0 <= i < |keys[1..]| ensures keys[1..][i] in Sidebar.StateOptions(df) {
      assert keys[1..][i] == keys[i + 1];
    }
  }

  lemma {:induction false} GroupMeansAt(df: seq<School>, keys: seq<string>, m: Metric, i: nat)
    requires KeysPresent(df, keys)
    requires i < |keys|
    ensures |GroupMeans(df, keys, m)| == |keys|
    ensures GroupMeans(df, keys, m)[i].state == keys[i]
    ensures |RowsOf(df, keys[i])| > 0
    ensures GroupMeans(df, keys, m)[i].mean == Stats.Mean(Column(RowsOf(df, keys[i]), m))
  {
    GroupMeansLength(df, keys, m);
    KeysPresentTail(df, keys);
    RowsOfNonEmpty(df, keys[0]);
    var rest := GroupMeans(df, keys[1..], m);
    assert GroupMeans(df, keys, m) ==
           [StateMean(keys[0], Stats.Mean(Column(RowsOf(df, keys[0]), m)))] + rest;
    if i > 0 {
      GroupMeansAt(df, keys[1..], m, i - 1);
      assert keys[1..][i - 1] == keys[i];
      assert GroupMeans(df, keys, m)[i] == rest[i - 1];
    }
  }

  /** The groups are exactly the states of `df`, each once and ascending, and
      each entry is the mean of the metric over that state's rows, which lies
      in [0, 1]. */
  lemma StateMeansSpec(df: seq<School>, m: Metric, i: nat)
    requires i < |StateMeans(df, m)|
    ensures |StateMeans(df, m)| == |Sidebar.StateOptions(df)|
    ensures StateMeans(df, m)[i].state == Sidebar.StateOptions(df)[i]
    ensures |RowsOf(df, StateMeans(df, m)[i].state)| > 0
    ensures StateMeans(df, m)[i].mean == Stats.Mean(Column(RowsOf(df, StateMeans(df, m)[i].state), m))
    ensures 0.0 <= StateMeans(df, m)[i].mean <= 1.0
  {
    var keys := Sidebar.StateOptions(df);
    assert KeysPresent(df, keys);
    GroupMeansLength(df, keys, m);
    GroupMeansAt(df, keys, m, i);
    Stats.MeanBounds(Column(RowsOf(df, keys[i]), m));
  }

  // ---------------------------------------------------------------------
  // sort_values(ascending=False) (line 267)

  predicate NonIncreasing(xs: seq<StateMean>) {
    forall i, j :: 0 <= i < j < |xs| ==> xs[i].mean >= xs[j].mean
  }

  /** What `sort_values(ascending=False)` may return: the same entries with
      means non-increasing. Its sort is not stable, so no order among equal
      means is promised. */
  predicate IsRanking(means: seq<StateMean>, ranked: seq<StateMean>) {
    NonIncreasing(ranked) && multiset(ranked) == multiset(means)
  }

  function InsertByMean(e: StateMean, xs: seq<StateMean>): seq<StateMean> {
    if xs == [] then [e]
    else if e.mean >= xs[0].mean then [e] + xs
    else [xs[0]] + InsertByMean(e, xs[1..])
  }

  lemma {:induction false} InsertByMeanCount(e: StateMean, xs: seq<StateMean>)
    ensures multiset(InsertByMean(e, xs)) == multiset(xs) + multiset{e}
  {
    if xs == [] {
      assert InsertByMean(e, xs) == [e];
    } else if e.mean >= xs[0].mean {
      assert InsertByMean(e, xs) == [e] + xs;
      assert multiset([e] + xs) == multiset{e} + multiset(xs);
    } else {
      InsertByMeanCount(e, xs[1..]);
      var it := InsertByMean(e, xs[1..]);
      assert xs == [xs[0]] + xs[1..];
      calc {
        multiset(InsertByMean(e, xs));
        multiset([xs[0]] + it);
        multiset{xs[0]} + (multiset(xs[1..]) + multiset{e});
        (multiset{xs[0]} + multiset(xs[1..])) + multiset{e};
        multiset(xs) + multiset{e};
      }
    }
  }

  /** An entry no larger than a bound stays under it once inserted among
      entries under it. */
  lemma InsertByMeanBounded(e: StateMean, xs: seq<StateMean>, top: real)
    requires e.mean <= top
    requires forall k :: 0 <= k < |xs| ==> xs[k].mean <= top
    ensures forall k :: 0 <= k < |InsertByMean(e, xs)| ==> InsertByMean(e, xs)[k].mean <= top
  {
    var it := InsertByMean(e, xs);
    InsertByMeanCount(e, xs);
    forall k | 0 <= k < |it| ensures it[k].mean <= top {
      assert it[k] in multiset(xs) + multiset{e};
      if it[k] != e {
        var q :| 0 <= q < |xs| && xs[q] == it[k];
      }
    }
  }

  /** An entry at least as large as every entry of a non-increasing list
      may head it. */
  lemma ConsNonIncreasing(x: StateMean, t: seq<StateMean>)
    requires NonIncreasing(t)
    requires forall k :: 0 <= k < |t| ==> t[k].mean <= x.mean
    ensures NonIncreasing([x] + t)
  {
    var r := [x] + t;
    forall i, j | 0 <= i < j < |r| ensures r[i].mean >= r[j].mean {
      assert r[j] == t[j - 1];
      if i > 0 {
        assert r[i] == t[i - 1];
      }
    }
  }

  lemma {:induction false} InsertByMeanSorted(e: StateMean, xs: seq<StateMean>)
    requires NonIncreasing(xs)
    ensures NonIncreasing(InsertByMean(e, xs))
    ensures multiset(InsertByMean(e, xs)) == multiset(xs) + multiset{e}
  {
    InsertByMeanCount(e, xs);
    if xs == [] {
      assert InsertByMean(e, xs) == [e];
    } else if e.mean >= xs[0].mean {
      assert InsertByMean(e, xs) == [e] + xs;
      ConsNonIncreasing(e, xs);
    } else {
      var t := xs[1..];
      NonIncreasingTail(xs);
      InsertByMeanSorted(e, t);
      assert forall k :: 0 <= k < |t| ==> t[k].mean <= xs[0].mean by {
        forall k | 0 <= k < |t| ensures t[k].mean <= xs[0].mean {
          assert t[k] == xs[k + 1];
        }
      }
      InsertByMeanBounded(e, t, xs[0].mean);
      assert InsertByMean(e, xs) == [xs[0]] + InsertByMean(e, t);
      ConsNonIncreasing(xs[0], InsertByMean(e, t));
    }
  }

  /** Inserting the head into a ranking of the tail ranks the whole list. */
  lemma SortStep(xs: seq<StateMean>, rest: seq<StateMean>)
    requires xs != [] && IsRanking(xs[1..], rest)
    ensures IsRanking(xs, InsertByMean(xs[0], rest))
  {
    InsertByMeanSorted(xs[0], rest);
    assert xs == [xs[0]] + xs[1..];
    assert multiset(xs) == multiset{xs[0]} + multiset(xs[1..]);
  }

  /** One admissible result of `sort_values(ascending=False)`. */
  function SortDescending(xs: seq<StateMean>): (r: seq<StateMean>)
    ensures IsRanking(xs, r)
  {
    if xs == [] then []
    else
      var rest := SortDescending(xs[1..]);
      SortStep(xs, rest);
      InsertByMean(xs[0], rest)
  }

  /** `ranked` of line 263: the states of `df_filt` by descending mean. */
  function Ranked(df: seq<School>, m: Metric): seq<StateMean> {
    SortDescending(StateMeans(df, m))
  }

  /** Two sequences with the same means position by position. */
  predicate SameMeans(a: seq<StateMean>, b: seq<StateMean>) {
    |a| == |b| && forall i :: 0 <= i < |a| ==> a[i].mean == b[i].mean
  }

  lemma NonIncreasingTail(r: seq<StateMean>)
    requires r != [] && NonIncreasing(r)
    ensures NonIncreasing(r[1..])
  {
    forall a, b | 0 <= a < b < |r[1..]| ensures r[1..][a].mean >= r[1..][b].mean {
      assert r[1..][a] == r[a + 1] && r[1..][b] == r[b + 1];
    }
  }

  /** Taking out one entry keeps the order and the other entries. */
  lemma RemoveAt(r: seq<StateMean>, j: nat)
    requires j < |r| && NonIncreasing(r)
    ensures NonIncreasing(r[..j] + r[j + 1..])
    ensures multiset(r[..j] + r[j + 1..]) + multiset{r[j]} == multiset(r)
  {
    var rest := r[..j] + r[j + 1..];
    assert forall i :: 0 <= i < |rest| ==> rest[i] == (if i < j then r[i] else r[i + 1]);
    forall a, b | 0 <= a < b < |rest| ensures rest[a].mean >= rest[b].mean {
      var a', b' := if a < j then a else a + 1, if b < j then b else b + 1;
      assert rest[a] == r[a'] && rest[b] == r[b'] && a' < b';
    }
    assert r == r[..j] + [r[j]] + r[j + 1..];
  }

  /** Where `r[j]` ties with `r[0]`, removing it leaves the means per
      position of `r[1..]`. */
  lemma RemoveTiedMeans(r: seq<StateMean>, j: nat)
    requires j < |r| && NonIncreasing(r) && r[j].mean == r[0].mean
    ensures SameMeans(r[..j] + r[j + 1..], r[1..])
  {
    var rest := r[..j] + r[j + 1..];
    forall i | 0 <= i < |rest| ensures rest[i].mean == r[1..][i].mean {
      if i < j {
        assert rest[i] == r[i] && r[1..][i] == r[i + 1];
        assert r[0].mean >= r[i].mean >= r[i + 1].mean >= r[j].mean;
      } else {
        assert rest[i] == r[i + 1];
      }
    }
  }

  /** Taking the same entry out of two lists with the same entries leaves
      lists with the same entries. */
  lemma HeadRemoved(r1: seq<StateMean>, r2: seq<StateMean>, j: nat)
    requires r1 != [] && j < |r2| && r2[j] == r1[0]
    requires multiset(r1) == multiset(r2)
    requires multiset(r2[..j] + r2[j + 1..]) + multiset{r2[j]} == multiset(r2)
    ensures multiset(r1[1..]) == multiset(r2[..j] + r2[j + 1..])
  {
    assert r1 == [r1[0]] + r1[1..];
    var rest2 := r2[..j] + r2[j + 1..];
    forall y ensures multiset(r1[1..])[y] == multiset(rest2)[y] {
      assert (multiset(rest2) + multiset{r1[0]})[y] == multiset(r1)[y];
      assert (multiset{r1[0]} + multiset(r1[1..]))[y] == multiset(r1)[y];
    }
  }

  /** Two non-increasing lists with the same entries start with the same
      mean; `j` is where the first entry of `r1` sits in `r2`. */
  lemma HeadMeansAgree(r1: seq<StateMean>, r2: seq<StateMean>) returns (j: nat)
    requires NonIncreasing(r1) && NonIncreasing(r2)
    requires multiset(r1) == multiset(r2) && r1 != []
    ensures j < |r2| && r2[j] == r1[0] && r1[0].mean == r2[0].mean
  {
    assert r1[0] in multiset(r2);
    j :| 0 <= j < |r2| && r2[j] == r1[0];
    assert r2[0] in multiset(r1);
    var k :| 0 <= k < |r1| && r1[k] == r2[0];
  }

  /** The order among tied states is the only freedom a descending sort
      has: every admissible ranking of the same entries has the same means
      at every position. */
  lemma {:induction false} RankingMeansDetermined(r1: seq<StateMean>, r2: seq<StateMean>)
    requires NonIncreasing(r1) && NonIncreasing(r2)
    requires multiset(r1) == multiset(r2)
    ensures SameMeans(r1, r2)
    decreases |r1|
  {
    assert |r1| == |multiset(r1)| == |multiset(r2)| == |r2|;
    if r1 != [] {
      var j := HeadMeansAgree(r1, r2);
      var rest2 := r2[..j] + r2[j + 1..];
      RemoveAt(r2, j);
      NonIncreasingTail(r1);
      HeadRemoved(r1, r2, j);
      RankingMeansDetermined(r1[1..], rest2);
      RemoveTiedMeans(r2, j);
      forall i | 0 <= i < |r1| ensures r1[i].mean == r2[i].mean {
        if i > 0 {
          assert r1[i] == r1[1..][i - 1] && r2[i] == r2[1..][i - 1];
        }
      }
    }
  }

  // ---------------------------------------------------------------------
  // Top 10 and bottom 10 (line 271)

  function Min(a: int, b: int): int {
    if a <= b then a else b
  }

  /** `pd.concat([ranked.head(10), ranked.tail(10)])`. */
  function HeadTail(ranked: seq<StateMean>): (bars: seq<StateMean>)
    ensures |bars| == 2 * Min(10, |ranked|)
    ensures forall i :: 0 <= i < Min(10, |ranked|) ==> bars[i] == ranked[i]
    ensures forall i :: Min(10, |ranked|) <= i < |bars| ==> bars[i] == ranked[|ranked| - |bars| + i]
  {
    var k := Min(10, |ranked|);
    ranked[..k] + ranked[|ranked| - k..]
  }

  /** With fewer than 20 ranked states the two halves overlap, so one
      state's bar appears twice. */
  lemma OverlapWhenFewStates(ranked: seq<StateMean>)
    requires 0 < |ranked| < 20
    ensures exists i, j :: 0 <= i < j < |HeadTail(ranked)| && HeadTail(ranked)[i] == HeadTail(ranked)[j]
  {
    var n, k := |ranked|, Min(10, |ranked|);
    var bars := HeadTail(ranked);
    assert bars[n - k] == ranked[n - k] == bars[k];
  }

  /** With at least 20 states whose names are distinct, head and tail do not
      overlap and every bar is a different state. */
  lemma NoOverlapWhenManyStates(ranked: seq<StateMean>)
    requires |ranked| >= 20
    requires forall i, j :: 0 <= i < j < |ranked| ==> ranked[i].state != ranked[j].state
    ensures forall i, j :: 0 <= i < j < |HeadTail(ranked)| ==> HeadTail(ranked)[i].state != HeadTail(ranked)[j].state
  {
    var n := |ranked|;
    var bars := HeadTail(ranked);
    forall i, j | 0 <= i < j < |bars| ensures bars[i].state != bars[j].state {
      var i' := if i < 10 then i else n - 10 + (i - 10);
      var j' := if j < 10 then j else n - 10 + (j - 10);
      assert bars[i] == ranked[i'] && bars[j] == ranked[j'] && i' < j';
    }
  }

  /** Rankings with the same means give bar tables with the same means: the
      bar heights do not depend on how ties were ordered. */
  lemma HeadTailSameMeans(r1: seq<StateMean>, r2: seq<StateMean>)
    requires SameMeans(r1, r2)
    ensures SameMeans(HeadTail(r1), HeadTail(r2))
  {
    var k := Min(10, |r1|);
    forall i | 0 <= i < 2 * k ensures HeadTail(r1)[i].mean == HeadTail(r2)[i].mean {
      if i >= k {
        assert HeadTail(r1)[i] == r1[|r1| - 2 * k + i];
        assert HeadTail(r2)[i] == r2[|r2| - 2 * k + i];
      }
    }
  }

  /** The bar table of line 271 for `df_filt` and one metric. */
  function Bars(df: seq<School>, m: Metric): seq<StateMean> {
    HeadTail(Ranked(df, m))
  }

  /** Any admissible ranking holds the state means, one per state. */
  lemma RankedLength(df: seq<School>, m: Metric, ranked: seq<StateMean>)
    requires IsRanking(StateMeans(df, m), ranked)
    ensures |ranked| == |StateMeans(df, m)| == |Sidebar.StateOptions(df)|
  {
    var means := StateMeans(df, m);
    assert |ranked| == |multiset(ranked)| == |multiset(means)| == |means|;
    GroupMeansLength(df, Sidebar.StateOptions(df), m);
  }

  /** Every entry of an admissible ranking is a state of the table with its
      mean in [0, 1]. */
  lemma RankedEntries(df: seq<School>, m: Metric, ranked: seq<StateMean>, e: StateMean)
    requires IsRanking(StateMeans(df, m), ranked)
    requires e in ranked
    ensures exists s :: s in df && s.state == e.state
    ensures 0.0 <= e.mean <= 1.0
  {
    var means := StateMeans(df, m);
    assert e in multiset(ranked);
    assert e in multiset(means);
    var i :| 0 <= i < |means| && means[i] == e;
    StateMeansSpec(df, m, i);
    assert e.state in Sidebar.StateOptions(df);
  }

  /** No two entries of `s` are equal: each occurs once. */
  lemma {:induction false} CountAtMostOne(s: seq<StateMean>, x: StateMean)
    requires forall i, j :: 0 <= i < j < |s| ==> s[i] != s[j]
    ensures multiset(s)[x] <= 1
  {
    if s != [] {
      assert s == [s[0]] + s[1..];
      CountAtMostOne(s[1..], x);
      if x == s[0] {
        assert x !in s[1..];
      }
    }
  }

  /** An entry found at two positions occurs at least twice. */
  lemma CountTwo(s: seq<StateMean>, i: nat, j: nat)
    requires i < j < |s| && s[i] == s[j]
    ensures multiset(s)[s[i]] >= 2
  {
    assert s == s[..i] + [s[i]] + s[i + 1..j] + [s[j]] + s[j + 1..];
  }

  /** The states of any admissible ranking are pairwise distinct, since the
      groups of `groupby("state")` are. */
  lemma RankedStatesDistinct(df: seq<School>, m: Metric, ranked: seq<StateMean>)
    requires IsRanking(StateMeans(df, m), ranked)
    ensures forall i, j :: 0 <= i < j < |ranked| ==> ranked[i].state != ranked[j].state
  {
    var means, keys := StateMeans(df, m), Sidebar.StateOptions(df);
    RankedLength(df, m, ranked);
    // the groups carry distinct states
    forall a, b | 0 <= a < b < |means| ensures means[a].state != means[b].state {
      StateMeansSpec(df, m, a);
      StateMeansSpec(df, m, b);
      assert Less(keys[a], keys[b]);
      LessIrreflexive(keys[a]);
    }
    forall i, j | 0 <= i < j < |ranked| ensures ranked[i].state != ranked[j].state {
      if ranked[i].state == ranked[j].state {
        assert ranked[i] in multiset(means) && ranked[j] in multiset(means);
        var a :| 0 <= a < |means| && means[a] == ranked[i];
        var b :| 0 <= b < |means| && means[b] == ranked[j];
        assert a == b;
        CountTwo(ranked, i, j);
        CountAtMostOne(means, ranked[i]);
        assert false;
      }
    }
  }

  /** Every bar is an entry of the ranking it was cut from. */
  lemma HeadTailMember(ranked: seq<StateMean>, b: StateMean)
    requires b in HeadTail(ranked)
    ensures b in ranked
  {
    var bars := HeadTail(ranked);
    var i :| 0 <= i < |bars| && bars[i] == b;
    if i >= Min(10, |ranked|) {
      assert bars[i] == ranked[|ranked| - |bars| + i];
    }
  }

  /** The first bar of any admissible ranking is the highest state mean. */
  lemma BarsTop(df: seq<School>, m: Metric, ranked: seq<StateMean>, e: StateMean)
    requires IsRanking(StateMeans(df, m), ranked)
    requires e in StateMeans(df, m)
    ensures |HeadTail(ranked)| > 0 && e.mean <= HeadTail(ranked)[0].mean
  {
    assert e in multiset(ranked);
    var i :| 0 <= i < |ranked| && ranked[i] == e;
    assert HeadTail(ranked)[0] == ranked[0];
  }

  /** What the bar chart shows, whichever order the sort gives ties:
      2·min(10, n) bars for the n states of the filtered table, every bar a
      state of the table with its mean in [0, 1], and the first bar the
      highest state mean. */
  lemma BarsSpec(df: seq<School>, m: Metric, ranked: seq<StateMean>)
    requires IsRanking(StateMeans(df, m), ranked)
    ensures |HeadTail(ranked)| == 2 * Min(10, |Sidebar.StateOptions(df)|)
    ensures forall b :: b in HeadTail(ranked) ==>
              (exists s :: s in df && s.state == b.state) && 0.0 <= b.mean <= 1.0
    ensures forall e :: e in StateMeans(df, m) ==> e.mean <= HeadTail(ranked)[0].mean
  {
    RankedLength(df, m, ranked);
    forall b | b in HeadTail(ranked)
      ensures (exists s :: s in df && s.state == b.state) && 0.0 <= b.mean <= 1.0
    {
      HeadTailMember(ranked, b);
      RankedEntries(df, m, ranked, b);
    }
    forall e | e in StateMeans(df, m) ensures e.mean <= HeadTail(ranked)[0].mean {
      BarsTop(df, m, ranked, e);
    }
  }

  /** With at least 20 states in the filtered table, every bar of the chart
      is a different state, whichever order the sort gives ties. */
  lemma BarsDistinctWhenManyStates(df: seq<School>, m: Metric, ranked: seq<StateMean>)
    requires IsRanking(StateMeans(df, m), ranked)
    requires |Sidebar.StateOptions(df)| >= 20
    ensures forall i, j :: 0 <= i < j < |HeadTail(ranked)| ==> HeadTail(ranked)[i].state != HeadTail(ranked)[j].state
  {
    RankedLength(df, m, ranked);
    RankedStatesDistinct(df, m, ranked);
    NoOverlapWhenManyStates(ranked);
  }

  // ---------------------------------------------------------------------
  // The metric selectors (lines 195-204, 409-417, 645-652)

  /** The columns of the enriched table that a metric selector may name;
      `df_filt.groupby("state")[name]` raises KeyError for any other. */
  function ColumnNamed(name: string): Option<Metric> {
    if name == "func_electricity" then Some(FuncElectricity)
    else if name == "func_water" then Some(FuncWater)
    else if name == "pct_toilet_func_girls" then Some(PctToiletFuncGirls)
    else if name == "func_handwash" then Some(FuncHandwash)
    else if name == "infra_index" then Some(InfraIndex)
    else if name == "ramps" then Some(Ramps)
    else if name == "handrails" then Some(Handrails)
    else if name == "equity_index" then Some(EquityIndex)
    else if name == "internet" then Some(Internet)
    else if name == "ict_lab" then Some(IctLab)
    else if name == "computer_yn" then Some(ComputerYn)
    else None
  }

  /** The three tabs' `metrics` dicts for the map and ranking, as written. */
  const WashMetrics: seq<(string, string)> := [
    ("Functional Electricity", "func_electricity"), ("Functional Water", "func_water"),
    ("Girls’ Toilets (%)", "pct_toilet_func_girls"), ("Functional Handwash", "func_handwash"),
    ("Composite Infra Index", "infra_index")]
  const EquityMetrics: seq<(string, string)> := [
    ("Ramps", "ramps"), ("Handrails", "handrails"),
    ("Girls’ Toilets (%)", "pct_toilet_func_girls"), ("Composite Equity Index", "equity_index")]
  const DigitalMetrics: seq<(string, string)> := [
    ("Internet", "internet"), ("ICT Labs", "ict_lan"), ("Computers", "computer_yn")]

  /** `metrics[choice]`: the column name of the first entry with that label. */
  function Lookup(metrics: seq<(string, string)>, choice: string): Option<string> {
    if metrics == [] then None
    else if metrics[0].0 == choice then Some(metrics[0].1)
    else Lookup(metrics[1..], choice)
  }

  /** The bar table a tab draws for the chosen label, or None where the
      lookup fails or names a column the table does not have (KeyError). */
  function TabBars(df: seq<School>, metrics: seq<(string, string)>, choice: string): Option<seq<StateMean>> {
    var name := Lookup(metrics, choice);
    if name.None? then None
    else
      var m := ColumnNamed(name.value);
      if m.None? then None else Some(Bars(df, m.value))
  }

  /** Choosing "ICT Labs" in the digital tab names `ict_lan`, which is no
      column, so that tab fails for that choice. */
  lemma IctLabsChoiceFails(df: seq<School>)
    ensures TabBars(df, DigitalMetrics, "ICT Labs") == None
  {
    assert Lookup(DigitalMetrics, "ICT Labs") == Some("ict_lan");
  }

  /** Every choice of the WASH selector names a column. */
  lemma WashChoicesResolve(df: seq<School>)
    ensures forall i :: 0 <= i < |WashMetrics| ==> TabBars(df, WashMetrics, WashMetrics[i].0).Some?
  {
  }

  /** Every choice of the equity selector names a column. */
  lemma EquityChoicesResolve(df: seq<School>)
    ensures forall i :: 0 <= i < |EquityMetrics| ==> TabBars(df, EquityMetrics, EquityMetrics[i].0).Some?
  {
  }

  /** The other two choices of the digital selector name columns. */
  lemma DigitalChoicesResolve(df: seq<School>)
    ensures TabBars(df, DigitalMetrics, "Internet").Some? && TabBars(df, DigitalMetrics, "Computers").Some?
  {
  }
}
