/** `load_data` (dash17.py:32-105): inner-join the profile and facility
    rows on `pseudocode`, turn the raw availability codes into 0/1
    indicators, build the two composite indices and decode the six coded
    profile columns into labels. Reading the two CSV files is not part of
    this model: their rows are the inputs. */
module Load {
  import opened Records
  import Stats

  // ---------------------------------------------------------------------
  // Inner join (line 58)

  /** True when the two halves of `m` share the join key. */
  predicate SameKey(m: Merged) {
    m.profile.pseudocode == m.facility.pseudocode
  }

  /** `p` paired with every facility row carrying its key, in facility order. */
  function Matches(p: Profile, fac: seq<Facility>): seq<Merged> {
    if fac == [] then []
    else (if fac[0].pseudocode == p.pseudocode then [Merged(p, fac[0])] else []) + Matches(p, fac[1..])
  }

  /** `prof.merge(fac, on="pseudocode", how="inner")`: for each profile row
      in order, one merged row per facility row with the same key. */
  function Join(prof: seq<Profile>, fac: seq<Facility>): seq<Merged> {
    if prof == [] then [] else Matches(prof[0], fac) + Join(prof[1..], fac)
  }

  lemma {:induction false} MatchesCount(p: Profile, fac: seq<Facility>, m: Merged)
    ensures multiset(Matches(p, fac))[m] ==
            if m.profile == p && SameKey(m) then multiset(fac)[m.facility] else 0
  {
    if fac != [] {
      MatchesCount(p, fac[1..], m);
      assert fac == [fac[0]] + fac[1..];
    }
  }

  /** The join keeps duplicates: a (profile, facility) pair with equal keys
      occurs as often as the product of its multiplicities in the inputs,
      and a pair with different keys never occurs. */
  lemma {:induction false} JoinCount(prof: seq<Profile>, fac: seq<Facility>, m: Merged)
    ensures multiset(Join(prof, fac))[m] ==
            if SameKey(m) then multiset(prof)[m.profile] * multiset(fac)[m.facility] else 0
  {
    if prof != [] {
      var c := multiset(fac)[m.facility];
      var here := if prof[0] == m.profile then 1 else 0;
      var before := multiset(prof[1..])[m.profile];
      JoinCount(prof[1..], fac, m);
      MatchesCount(prof[0], fac, m);
      JoinHeadCount(prof, fac, m);
      HeadCount(prof, m.profile);
      assert multiset(prof)[m.profile] == here + before;
      if SameKey(m) {
        assert multiset(Matches(prof[0], fac))[m] == here * c;
        assert multiset(Join(prof[1..], fac))[m] == before * c;
        Distribute(here, before, c);
      }
    }
  }

  /** The join's count of a row splits into the first profile row's share
      and the rest's. */
  lemma JoinHeadCount(prof: seq<Profile>, fac: seq<Facility>, m: Merged)
    requires prof != []
    ensures multiset(Join(prof, fac))[m] ==
            multiset(Matches(prof[0], fac))[m] + multiset(Join(prof[1..], fac))[m]
  {
    assert Join(prof, fac) == Matches(prof[0], fac) + Join(prof[1..], fac);
    assert multiset(Join(prof, fac)) == multiset(Matches(prof[0], fac)) + multiset(Join(prof[1..], fac));
  }

  lemma HeadCount<T>(xs: seq<T>, x: T)
    requires xs != []
    ensures multiset(xs)[x] == (if xs[0] == x then 1 else 0) + multiset(xs[1..])[x]
  {
    assert xs == [xs[0]] + xs[1..];
  }

  lemma Distribute(here: int, before: int, c: int)
    ensures (here + before) * c == here * c + before * c
  {
  }

  /** A row of the join is exactly a profile row and a facility row of the
      inputs that share a key. */
  lemma JoinMember(prof: seq<Profile>, fac: seq<Facility>, m: Merged)
    ensures m in Join(prof, fac) <==> m.profile in prof && m.facility in fac && SameKey(m)
  {
    JoinCount(prof, fac, m);
    var a, b := multiset(prof)[m.profile], multiset(fac)[m.facility];
    assert a > 0 && b > 0 ==> a * b > 0;
  }

  /** The join keeps profile-row order. */
  lemma {:induction false} JoinAppend(p1: seq<Profile>, p2: seq<Profile>, fac: seq<Facility>)
    ensures Join(p1 + p2, fac) == Join(p1, fac) + Join(p2, fac)
  {
    if p1 != [] {
      assert (p1 + p2)[0] == p1[0] && (p1 + p2)[1..] == p1[1..] + p2;
      JoinAppend(p1[1..], p2, fac);
      assert Join(p1 + p2, fac) == Matches(p1[0], fac) + Join(p1[1..] + p2, fac);
    } else {
      assert p1 + p2 == p2;
    }
  }

  lemma {:induction false} NoMatches(p: Profile, fac: seq<Facility>)
    requires forall f :: f in fac ==> f.pseudocode != p.pseudocode
    ensures Matches(p, fac) == []
  {
    if fac != [] {
      assert fac[0] in fac;
      NoMatches(p, fac[1..]);
    }
  }

  /** A profile row whose key is in no facility row contributes no row. */
  lemma UnmatchedProfileDropped(xs: seq<Profile>, p: Profile, ys: seq<Profile>, fac: seq<Facility>)
    requires forall f :: f in fac ==> f.pseudocode != p.pseudocode
    ensures Join(xs + [p] + ys, fac) == Join(xs + ys, fac)
  {
    JoinAppend(xs + [p], ys, fac);
    JoinAppend(xs, [p], fac);
    JoinAppend(xs, ys, fac);
    NoMatches(p, fac);
    assert Join([p], fac) == Matches(p, fac) + Join([], fac);
  }

  // ---------------------------------------------------------------------
  // Indicator columns (lines 61-72 and the loop at 86-87)

  /** `col == 1` on a raw column: a missing cell compares unequal to 1. */
  function IsOne(v: Option<int>): bool {
    v == Some(1)
  }

  /** `.astype(int)` of a boolean column. */
  function AsInt(b: bool): Bit {
    if b then 1 else 0
  }

  /** `col == 1` on a column that already holds booleans: a Python bool is
      an int, and `True == 1`. */
  function BoolIsOne(b: bool): bool {
    AsInt(b) == 1
  }

  /** What dividing two integer columns yields per row (line 69-71): a
      missing operand or 0/0 gives NaN, a non-zero number over 0 gives an
      infinity. */
  datatype Quotient = NaN | PosInf | NegInf | Finite(value: real)

  function Divide(num: Option<int>, den: Option<int>): Quotient {
    if num.None? || den.None? then NaN
    else if den.value != 0 then Finite(num.value as real / den.value as real)
    else if num.value > 0 then PosInf
    else if num.value < 0 then NegInf
    else NaN
  }

  /** An availability column after both of its steps: `raw == 1` (lines
      61-68), then `(col == 1).astype(int)` in the loop at lines 86-87. */
  function Flag(raw: Option<int>): (flag: Bit)
    ensures flag == 1 <==> raw == Some(1)
  {
    AsInt(BoolIsOne(IsOne(raw)))
  }

  /** `col == 1` on the quotient column: NaN and the infinities are unequal to 1. */
  function QuotientIsOne(q: Quotient): bool {
    q == Finite(1.0)
  }

  /** `np.where(df["desktop"] > 0, 1, 0)`: a missing count is not > 0. */
  function Positive(v: Option<int>): bool {
    v.Some? && v.value > 0
  }

  /** `pct_toilet_func_girls` after line 87: the functional-to-total ratio of
      girls' toilets, compared with 1. */
  function GirlsToiletFlag(f: Facility): (flag: Bit)
    ensures flag == 1 <==>
              f.totalGirlsToilet.Some? && f.totalGirlsFuncToilet.Some? &&
              f.totalGirlsToilet.value != 0 &&
              f.totalGirlsFuncToilet.value == f.totalGirlsToilet.value
  {
    QuotientIsOneExactly(f.totalGirlsFuncToilet, f.totalGirlsToilet);
    AsInt(QuotientIsOne(Divide(f.totalGirlsFuncToilet, f.totalGirlsToilet)))
  }

  /** A quotient of two cells equals 1 exactly when both are present, the
      denominator is not 0 and the two are equal. */
  lemma QuotientIsOneExactly(num: Option<int>, den: Option<int>)
    ensures QuotientIsOne(Divide(num, den)) <==>
              num.Some? && den.Some? && den.value != 0 && num.value == den.value
  {
    if num.Some? && den.Some? && den.value != 0 {
      var n, d := num.value as real, den.value as real;
      assert (n / d) * d == n;
    }
  }

  // ---------------------------------------------------------------------
  // Composite indices (lines 89-95)

  /** `df[["func_electricity","func_water","pct_toilet_func_girls","func_handwash"]].mean(axis=1)` */
  function InfraIndex(electricity: Bit, water: Bit, girlsToilet: Bit, handwash: Bit): Share {
    var cols := [electricity as real, water as real, girlsToilet as real, handwash as real];
    Stats.MeanBounds(cols);
    Stats.Mean(cols)
  }

  /** `df[["ramps","handrails","pct_toilet_func_girls"]].mean(axis=1)` */
  function EquityIndex(ramps: Bit, handrails: Bit, girlsToilet: Bit): Share {
    var cols := [ramps as real, handrails as real, girlsToilet as real];
    Stats.MeanBounds(cols);
    Stats.Mean(cols)
  }

  /** The infrastructure index is a quarter of the number of its four
      indicators that are 1; it is 1 exactly when all four are. */
  lemma InfraIndexValues(electricity: Bit, water: Bit, girlsToilet: Bit, handwash: Bit)
    ensures InfraIndex(electricity, water, girlsToilet, handwash) ==
            (electricity + water + girlsToilet + handwash) as real / 4.0
    ensures InfraIndex(electricity, water, girlsToilet, handwash) in {0.0, 0.25, 0.5, 0.75, 1.0}
    ensures InfraIndex(electricity, water, girlsToilet, handwash) == 1.0 <==>
            electricity == 1 && water == 1 && girlsToilet == 1 && handwash == 1
  {
    var cols := [electricity as real, water as real, girlsToilet as real, handwash as real];
    assert Stats.Sum([handwash as real]) == handwash as real by {
      assert [handwash as real][1..] == [];
    }
    assert Stats.Sum([girlsToilet as real, handwash as real]) == (girlsToilet + handwash) as real by {
      assert [girlsToilet as real, handwash as real][1..] == [handwash as real];
    }
    assert Stats.Sum([water as real, girlsToilet as real, handwash as real]) == (water + girlsToilet + handwash) as real by {
      assert [water as real, girlsToilet as real, handwash as real][1..] == [girlsToilet as real, handwash as real];
    }
    assert cols[1..] == [water as real, girlsToilet as real, handwash as real];
    assert Stats.Sum(cols) == (electricity + water + girlsToilet + handwash) as real;
  }

  /** The equity index is a third of the number of its three indicators
      that are 1. */
  lemma EquityIndexValues(ramps: Bit, handrails: Bit, girlsToilet: Bit)
    ensures EquityIndex(ramps, handrails, girlsToilet) == (ramps + handrails + girlsToilet) as real / 3.0
    ensures EquityIndex(ramps, handrails, girlsToilet) in {0.0, 1.0 / 3.0, 2.0 / 3.0, 1.0}
    ensures EquityIndex(ramps, handrails, girlsToilet) == 1.0 <==>
            ramps == 1 && handrails == 1 && girlsToilet == 1
  {
    var cols := [ramps as real, handrails as real, girlsToilet as real];
    assert Stats.Sum([girlsToilet as real]) == girlsToilet as real by {
      assert [girlsToilet as real][1..] == [];
    }
    assert cols[1..] == [handrails as real, girlsToilet as real];
    assert cols[1..][1..] == [girlsToilet as real];
    assert Stats.Sum(cols) == (ramps + handrails + girlsToilet) as real;
  }

  // ---------------------------------------------------------------------
  // Decoding the coded profile columns (lines 98-103)

  const LocationLabels: map<int, string> := map[1 := "Rural", 2 := "Urban"]
  const ManagementLabels: map<int, string> := map[1 := "Government", 2 := "Government Aided", 3 := "Private"]
  const CategoryLabels: map<int, string> :=
    map[1 := "Primary", 2 := "Upper Primary", 3 := "Secondary", 4 := "Higher Secondary"]
  const MinorityLabels: map<int, string> := map[1 := "Yes", 2 := "No"]
  const ResidentialLabels: map<int, string> := map[1 := "Completely", 2 := "Partially", 3 := "Non-residential"]
  const CwsnLabels: map<int, string> := map[1 := "Yes", 2 := "No"]

  /** `series.map(labels)`: a code outside the table, or a missing code,
      becomes NaN. */
  function Decode(labels: map<int, string>, code: Option<int>): Option<string> {
    if code.Some? && code.value in labels then Some(labels[code.value]) else None
  }

  // Which label each code of a table decodes to: code k gives the k-th
  // label, and any other code, or a missing one, gives none.

  lemma LocationDecoding(code: Option<int>)
    ensures (Decode(LocationLabels, code) == Some("Rural") <==> code == Some(1))
            && (Decode(LocationLabels, code) == Some("Urban") <==> code == Some(2))
            && (Decode(LocationLabels, code).None? <==> code !in {Some(1), Some(2)})
  {
  }

  lemma ManagementDecoding(code: Option<int>)
    ensures (Decode(ManagementLabels, code) == Some("Government") <==> code == Some(1))
            && (Decode(ManagementLabels, code) == Some("Government Aided") <==> code == Some(2))
            && (Decode(ManagementLabels, code) == Some("Private") <==> code == Some(3))
            && (Decode(ManagementLabels, code).None? <==> code !in {Some(1), Some(2), Some(3)})
  {
  }

  lemma CategoryDecoding(code: Option<int>)
    ensures (Decode(CategoryLabels, code) == Some("Primary") <==> code == Some(1))
            && (Decode(CategoryLabels, code) == Some("Upper Primary") <==> code == Some(2))
            && (Decode(CategoryLabels, code) == Some("Secondary") <==> code == Some(3))
            && (Decode(CategoryLabels, code) == Some("Higher Secondary") <==> code == Some(4))
            && (Decode(CategoryLabels, code).None? <==> code !in {Some(1), Some(2), Some(3), Some(4)})
  {
  }

  lemma MinorityDecoding(code: Option<int>)
    ensures (Decode(MinorityLabels, code) == Some("Yes") <==> code == Some(1))
            && (Decode(MinorityLabels, code) == Some("No") <==> code == Some(2))
            && (Decode(MinorityLabels, code).None? <==> code !in {Some(1), Some(2)})
  {
  }

  lemma ResidentialDecoding(code: Option<int>)
    ensures (Decode(ResidentialLabels, code) == Some("Completely") <==> code == Some(1))
            && (Decode(ResidentialLabels, code) == Some("Partially") <==> code == Some(2))
            && (Decode(ResidentialLabels, code) == Some("Non-residential") <==> code == Some(3))
            && (Decode(ResidentialLabels, code).None? <==> code !in {Some(1), Some(2), Some(3)})
  {
  }

  lemma CwsnDecoding(code: Option<int>)
    ensures (Decode(CwsnLabels, code) == Some("Yes") <==> code == Some(1))
            && (Decode(CwsnLabels, code) == Some("No") <==> code == Some(2))
            && (Decode(CwsnLabels, code).None? <==> code !in {Some(1), Some(2)})
  {
  }

  // ---------------------------------------------------------------------
  // One enriched row

  /** The enriched columns of one merged row, each step in the order
      `load_data` performs it. */
  function Enrich(m: Merged): School
  {
    var p, f := m.profile, m.facility;
    // lines 61-68 and 86-87 for the availability flags; ict_lab is only
    // compared with 1 once (line 87), playground and library stay boolean
    var electricity, water, handwash := Flag(f.electricityAvailability), Flag(f.tapFunYn), Flag(f.handwashFacilityForMeal);
    var internet, ramps, handrails := Flag(f.internet), Flag(f.ramps), Flag(f.handrails);
    var ictLab := AsInt(IsOne(f.ictLab));
    // lines 69-71 and 87
    var girls := GirlsToiletFlag(f);
    // line 72
    var computer: Bit := if Positive(f.desktop) then 1 else 0;
    School(
      p.pseudocode, p.state, p.district,
      // lines 98-103
      Decode(LocationLabels, p.location),
      Decode(ManagementLabels, p.management),
      Decode(CategoryLabels, p.category),
      Decode(MinorityLabels, p.minority),
      Decode(ResidentialLabels, p.residential),
      Decode(CwsnLabels, p.specialCwsn),
      electricity, water, handwash,
      IsOne(f.playgroundAvailable), IsOne(f.libraryAvailability),
      internet, ramps, handrails, ictLab, girls, computer,
      // lines 89-95
      InfraIndex(electricity, water, girls, handwash),
      EquityIndex(ramps, handrails, girls),
      f.desktop)
  }

  /** Each indicator of an enriched row is 1 exactly when its raw code is
      1, a missing code counting as "not 1"; the desktop count and the
      school's key, state and district pass through. */
  lemma EnrichFlags(m: Merged)
    ensures var s, f := Enrich(m), m.facility;
            && s.pseudocode == m.profile.pseudocode
            && s.state == m.profile.state && s.district == m.profile.district
            && (s.funcElectricity == 1 <==> f.electricityAvailability == Some(1))
            && (s.funcWater == 1 <==> f.tapFunYn == Some(1))
            && (s.funcHandwash == 1 <==> f.handwashFacilityForMeal == Some(1))
            && (s.internet == 1 <==> f.internet == Some(1))
            && (s.ramps == 1 <==> f.ramps == Some(1))
            && (s.handrails == 1 <==> f.handrails == Some(1))
            && (s.ictLab == 1 <==> f.ictLab == Some(1))
            && (s.playground <==> f.playgroundAvailable == Some(1))
            && (s.library <==> f.libraryAvailability == Some(1))
            && (s.computerYn == 1 <==> f.desktop.Some? && f.desktop.value > 0)
            && s.desktop == f.desktop
  {
  }

  /** The girls'-toilet indicator of an enriched row is 1 exactly when the
      school has girls' toilets and all of them work; a zero or missing
      total gives 0, not a missing value. */
  lemma EnrichGirlsToilet(m: Merged)
    ensures var g, f := Enrich(m).pctToiletFuncGirls, m.facility;
            g == 1 <==> f.totalGirlsToilet.Some? && f.totalGirlsFuncToilet.Some? &&
                        f.totalGirlsToilet.value != 0 &&
                        f.totalGirlsFuncToilet.value == f.totalGirlsToilet.value
  {
  }

  /** The two indices of an enriched row are the row means of its own
      indicator columns (lines 89-95). */
  lemma EnrichIndices(m: Merged)
    ensures var s := Enrich(m);
            && s.infraIndex == (s.funcElectricity + s.funcWater + s.pctToiletFuncGirls + s.funcHandwash) as real / 4.0
            && s.infraIndex in {0.0, 0.25, 0.5, 0.75, 1.0}
            && s.equityIndex == (s.ramps + s.handrails + s.pctToiletFuncGirls) as real / 3.0
            && s.equityIndex in {0.0, 1.0 / 3.0, 2.0 / 3.0, 1.0}
  {
    var s := Enrich(m);
    InfraIndexValues(s.funcElectricity, s.funcWater, s.pctToiletFuncGirls, s.funcHandwash);
    EquityIndexValues(s.ramps, s.handrails, s.pctToiletFuncGirls);
  }

  /** The six label columns of an enriched row are the decodings of the
      row's raw codes. */
  lemma EnrichLabelColumns(m: Merged)
    ensures Enrich(m).location == Decode(LocationLabels, m.profile.location)
    ensures Enrich(m).management == Decode(ManagementLabels, m.profile.management)
    ensures Enrich(m).category == Decode(CategoryLabels, m.profile.category)
    ensures Enrich(m).minority == Decode(MinorityLabels, m.profile.minority)
    ensures Enrich(m).residential == Decode(ResidentialLabels, m.profile.residential)
    ensures Enrich(m).specialCwsn == Decode(CwsnLabels, m.profile.specialCwsn)
  {
  }

  /** Each label column of an enriched row names the table entry of its raw
      code: code k gives the k-th label, and any other code, or a missing
      one, gives no label. */
  lemma EnrichLabels(m: Merged)
    ensures (Enrich(m).location == Some("Rural") <==> m.profile.location == Some(1))
            && (Enrich(m).location == Some("Urban") <==> m.profile.location == Some(2))
            && (Enrich(m).location.None? <==> m.profile.location !in {Some(1), Some(2)})
    ensures (Enrich(m).management == Some("Government") <==> m.profile.management == Some(1))
            && (Enrich(m).management == Some("Government Aided") <==> m.profile.management == Some(2))
            && (Enrich(m).management == Some("Private") <==> m.profile.management == Some(3))
            && (Enrich(m).management.None? <==> m.profile.management !in {Some(1), Some(2), Some(3)})
    ensures (Enrich(m).category == Some("Primary") <==> m.profile.category == Some(1))
            && (Enrich(m).category == Some("Upper Primary") <==> m.profile.category == Some(2))
            && (Enrich(m).category == Some("Secondary") <==> m.profile.category == Some(3))
            && (Enrich(m).category == Some("Higher Secondary") <==> m.profile.category == Some(4))
            && (Enrich(m).category.None? <==> m.profile.category !in {Some(1), Some(2), Some(3), Some(4)})
    ensures (Enrich(m).minority == Some("Yes") <==> m.profile.minority == Some(1))
            && (Enrich(m).minority == Some("No") <==> m.profile.minority == Some(2))
            && (Enrich(m).minority.None? <==> m.profile.minority !in {Some(1), Some(2)})
    ensures (Enrich(m).residential == Some("Completely") <==> m.profile.residential == Some(1))
            && (Enrich(m).residential == Some("Partially") <==> m.profile.residential == Some(2))
            && (Enrich(m).residential == Some("Non-residential") <==> m.profile.residential == Some(3))
            && (Enrich(m).residential.None? <==> m.profile.residential !in {Some(1), Some(2), Some(3)})
    ensures (Enrich(m).specialCwsn == Some("Yes") <==> m.profile.specialCwsn == Some(1))
            && (Enrich(m).specialCwsn == Some("No") <==> m.profile.specialCwsn == Some(2))
            && (Enrich(m).specialCwsn.None? <==> m.profile.specialCwsn !in {Some(1), Some(2)})
  {
    EnrichLabelColumns(m);
    LocationDecoding(m.profile.location);
    ManagementDecoding(m.profile.management);
    CategoryDecoding(m.profile.category);
    MinorityDecoding(m.profile.minority);
    ResidentialDecoding(m.profile.residential);
    CwsnDecoding(m.profile.specialCwsn);
  }

  /** The table `load_data` returns. */
  function Enriched(prof: seq<Profile>, fac: seq<Facility>): seq<School> {
    var merged := Join(prof, fac);
    seq(|merged|, i requires 0 <= i < |merged| => Enrich(merged[i]))
  }

  /** `load_data` over the two files' rows: the merge, then every derived
      column, row by row into a fresh table. */
  method LoadData(prof: seq<Profile>, fac: seq<Facility>) returns (df: array<School>)
    ensures fresh(df)
    ensures df[..] == Enriched(prof, fac)
  {
    var merged := Join(prof, fac);
    df := new School[|merged|];
    ghost var table := Enriched(prof, fac);
    for i := 0 to |merged|
      invariant df[..i] == table[..i]
    {
      df[i] := Enrich(merged[i]);
    }
    assert df[..] == df[..|merged|];
  }

  /** Every row of the loaded table comes from one profile row and one
      facility row with the same key. */
  lemma EnrichedOrigin(prof: seq<Profile>, fac: seq<Facility>, s: School)
    requires s in Enriched(prof, fac)
    ensures exists p, f :: p in prof && f in fac && p.pseudocode == f.pseudocode && s == Enrich(Merged(p, f))
  {
    var t := Enriched(prof, fac);
    var i :| 0 <= i < |t| && t[i] == s;
    var m := Join(prof, fac)[i];
    JoinMember(prof, fac, m);
    assert m.profile in prof && m.facility in fac && s == Enrich(Merged(m.profile, m.facility));
  }

  /** The first worked example: a rural, government-aided school with ramps
      and no ICT lab. */
  lemma ScenarioMatched(p: Profile, f: Facility)
    requires p.pseudocode == f.pseudocode
    requires p.location == Some(1) && p.management == Some(2)
    requires f.ramps == Some(1) && f.ictLab == Some(0)
    ensures Join([p], [f]) == [Merged(p, f)]
    ensures var s := Enriched([p], [f])[0];
            s.location == Some("Rural") && s.management == Some("Government Aided") &&
            s.ramps == 1 && s.ictLab == 0
  {
    assert [f][1..] == [] && [p][1..] == [];
    assert Matches(p, [f]) == [Merged(p, f)] + Matches(p, []);
    assert Join([p], [f]) == Matches(p, [f]) + Join([], [f]);
  }

  /** The second worked example: a profile row with no facility row. */
  lemma ScenarioUnmatched(p: Profile, fac: seq<Facility>)
    requires forall f :: f in fac ==> f.pseudocode != p.pseudocode
    ensures Enriched([p], fac) == []
  {
    UnmatchedProfileDropped([], p, [], fac);
    assert [] + [p] + [] == [p];
  }
}
