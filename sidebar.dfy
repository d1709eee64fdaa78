/** The sidebar filters (dash17.py:111-131): the option lists of the eight
    multiselects, the mask that ANDs their eight membership tests, and the
    filtered table `df_filt`. The widgets themselves are not modelled: a
    selection is the list each multiselect returns. */
module Sidebar {
  import opened Records
  import opened Order
  import Load

  /** What the eight multiselects hold. */
  datatype Selection = Selection(
    states: seq<string>,
    districts: seq<string>,
    locations: seq<string>,
    managements: seq<string>,
    categories: seq<string>,
    minorities: seq<string>,
    residentials: seq<string>,
    cwsn: seq<string>)

  // ---------------------------------------------------------------------
  // Option lists (lines 111-118)

  const LocationOptions: seq<string> := ["Rural", "Urban"]
  const ManagementOptions: seq<string> := ["Government", "Government Aided", "Private"]
  const CategoryOptions: seq<string> := ["Primary", "Upper Primary", "Secondary", "Higher Secondary"]
  const MinorityOptions: seq<string> := ["Yes", "No"]
  const ResidentialOptions: seq<string> := ["Completely", "Partially", "Non-residential"]
  const CwsnOptions: seq<string> := ["Yes", "No"]

  function StatesOf(df: seq<School>): seq<string> {
    if df == [] then [] else [df[0].state] + StatesOf(df[1..])
  }

  /** `df[df.state.isin(states)].district`, in table order. */
  function DistrictsIn(df: seq<School>, states: seq<string>): seq<string> {
    if df == [] then []
    else (if df[0].state in states then [df[0].district] else []) + DistrictsIn(df[1..], states)
  }

  lemma {:induction false} StatesOfMember(df: seq<School>, st: string)
    ensures st in StatesOf(df) <==> exists s :: s in df && s.state == st
  {
    if df != [] {
      StatesOfMember(df[1..], st);
      assert df == [df[0]] + df[1..];
    }
  }

  lemma {:induction false} DistrictsInMember(df: seq<School>, states: seq<string>, d: string)
    ensures d in DistrictsIn(df, states) <==> exists s :: s in df && s.state in states && s.district == d
  {
    if df != [] {
      DistrictsInMember(df[1..], states, d);
      assert df == [df[0]] + df[1..];
    }
  }

  /** `sorted(df.state.unique())`: the state options, and the default
      state selection. */
  function StateOptions(df: seq<School>): (r: seq<string>)
    ensures StrictlySorted(r)
    ensures forall st :: st in r <==> exists s :: s in df && s.state == st
  {
    forall st ensures st in StatesOf(df) <==> exists s :: s in df && s.state == st {
      StatesOfMember(df, st);
    }
    SortedUnique(StatesOf(df))
  }

  /** `sorted(df[df.state.isin(state_sel)].district.unique())` (line 112):
      every district of a row in a selected state, once each, ascending. */
  function DistrictOptions(df: seq<School>, states: seq<string>): (r: seq<string>)
    ensures StrictlySorted(r)
    ensures forall d :: d in r <==> exists s :: s in df && s.state in states && s.district == d
  {
    forall d ensures d in DistrictsIn(df, states) <==> exists s :: s in df && s.state in states && s.district == d {
      DistrictsInMember(df, states, d);
    }
    SortedUnique(DistrictsIn(df, states))
  }

  /** The selections the sidebar starts with: every state, no district,
      every label of the six coded columns. */
  function DefaultSelection(df: seq<School>): Selection {
    Selection(StateOptions(df), [], LocationOptions, ManagementOptions, CategoryOptions,
              MinorityOptions, ResidentialOptions, CwsnOptions)
  }

  // ---------------------------------------------------------------------
  // The mask (lines 120-129) and df_filt (line 131)

  /** `column.isin(sel)` on a decoded column: a missing label is in no list. */
  predicate LabelIn(v: Option<string>, sel: seq<string>) {
    v.Some? && v.value in sel
  }

  /** One row of the mask. Only the district test is skipped when its list
      is empty (`if district_sel`); every other test with an empty list
      fails. */
  predicate Keep(s: School, sel: Selection) {
    && s.state in sel.states
    && (sel.districts == [] || s.district in sel.districts)
    && LabelIn(s.location, sel.locations)
    && LabelIn(s.management, sel.managements)
    && LabelIn(s.category, sel.categories)
    && LabelIn(s.minority, sel.minorities)
    && LabelIn(s.residential, sel.residentials)
    && LabelIn(s.specialCwsn, sel.cwsn)
  }

  /** `df[mask]`: the kept rows, in table order. */
  function Filter(df: seq<School>, sel: Selection): seq<School> {
    if df == [] then []
    else (if Keep(df[0], sel) then [df[0]] else []) + Filter(df[1..], sel)
  }

  /** `xs` is `ys` with some rows left out and the rest in their order. */
  predicate Subsequence<T(==)>(xs: seq<T>, ys: seq<T>)
    decreases |ys|
  {
    if xs == [] then true
    else if ys == [] then false
    else if xs[0] == ys[0] then Subsequence(xs[1..], ys[1..])
    else Subsequence(xs, ys[1..])
  }

  /** The filter keeps every copy of a kept row and no copy of any other. */
  lemma {:induction false} FilterCount(df: seq<School>, sel: Selection, x: School)
    ensures multiset(Filter(df, sel))[x] == if Keep(x, sel) then multiset(df)[x] else 0
  {
    if df != [] {
      FilterCount(df[1..], sel, x);
      assert df == [df[0]] + df[1..];
      assert multiset(Filter(df, sel)) ==
             multiset(if Keep(df[0], sel) then [df[0]] else []) + multiset(Filter(df[1..], sel));
    }
  }

  /** A row is in `df_filt` exactly when it is in `df` and passes all eight tests. */
  lemma FilterMember(df: seq<School>, sel: Selection, x: School)
    ensures x in Filter(df, sel) <==> x in df && Keep(x, sel)
  {
    FilterCount(df, sel, x);
  }

  /** The filtered table is the enriched table with rows left out, in order. */
  lemma {:induction false} FilterSubsequence(df: seq<School>, sel: Selection)
    ensures Subsequence(Filter(df, sel), df)
  {
    if df != [] {
      FilterSubsequence(df[1..], sel);
      if Keep(df[0], sel) {
        assert Filter(df, sel) == [df[0]] + Filter(df[1..], sel);
        assert ([df[0]] + Filter(df[1..], sel))[1..] == Filter(df[1..], sel);
      } else {
        assert Filter(df, sel) == [] + Filter(df[1..], sel) == Filter(df[1..], sel);
        SubsequenceSkip(Filter(df[1..], sel), df);
      }
    }
  }

  /** Dropping the head of `ys` keeps a subsequence of its tail a subsequence. */
  lemma {:induction false} SubsequenceSkip<T>(xs: seq<T>, ys: seq<T>)
    requires ys != [] && Subsequence(xs, ys[1..])
    ensures Subsequence(xs, ys)
    decreases |ys|, |xs|
  {
    if xs != [] && xs[0] == ys[0] {
      // Subsequence(xs, ys) needs Subsequence(xs[1..], ys[1..]): drop xs[0]
      SubsequenceTail(xs, ys[1..]);
    }
  }

  /** A subsequence stays one when its first element is dropped. */
  lemma {:induction false} SubsequenceTail<T>(xs: seq<T>, ys: seq<T>)
    requires xs != [] && Subsequence(xs, ys)
    ensures Subsequence(xs[1..], ys)
    decreases |ys|, |xs|
  {
    if xs[0] == ys[0] {
      if xs[1..] != [] {
        SubsequenceSkip(xs[1..], ys);
      }
    } else {
      SubsequenceTail(xs, ys[1..]);
      if xs[1..] != [] {
        SubsequenceSkip(xs[1..], ys);
      }
    }
  }

  lemma {:induction false} FilterAllKept(df: seq<School>, sel: Selection)
    requires forall i :: 0 <= i < |df| ==> Keep(df[i], sel)
    ensures Filter(df, sel) == df
  {
    if df != [] {
      FilterAllKept(df[1..], sel);
      assert df == [df[0]] + df[1..];
    }
  }

  /** Filtering `df_filt` again with the same selections changes nothing. */
  lemma FilterIdempotent(df: seq<School>, sel: Selection)
    ensures Filter(Filter(df, sel), sel) == Filter(df, sel)
  {
    var r := Filter(df, sel);
    forall i | 0 <= i < |r| ensures Keep(r[i], sel) {
      FilterMember(df, sel, r[i]);
    }
    FilterAllKept(r, sel);
  }

  /** A row whose code did not decode passes no test on that column,
      whatever is selected. */
  lemma UnknownLabelNeverKept(s: School, sel: Selection)
    requires s.location.None? || s.management.None? || s.category.None? ||
             s.minority.None? || s.residential.None? || s.specialCwsn.None?
    ensures !Keep(s, sel)
  {
  }

  /** An empty state list, or an empty list for any of the six coded
      columns, keeps no row. */
  lemma {:induction false} EmptySelectionKeepsNothing(df: seq<School>, sel: Selection)
    requires sel.states == [] || sel.locations == [] || sel.managements == [] ||
             sel.categories == [] || sel.minorities == [] || sel.residentials == [] || sel.cwsn == []
    ensures Filter(df, sel) == []
  {
    if df != [] {
      EmptySelectionKeepsNothing(df[1..], sel);
    }
  }

  /** An empty district list imposes no constraint: it filters exactly as
      selecting every district the sidebar offers for the chosen states. */
  lemma {:induction false} EmptyDistrictsSameAsAllOffered(df: seq<School>, t: seq<School>, sel: Selection)
    requires forall s :: s in t ==> s in df
    ensures Filter(t, sel.(districts := [])) == Filter(t, sel.(districts := DistrictOptions(df, sel.states)))
  {
    if t != [] {
      assert t[0] in t;
      var s := t[0];
      assert s.state in sel.states ==> s.district in DistrictOptions(df, sel.states);
      assert forall x :: x in t[1..] ==> x in t;
      EmptyDistrictsSameAsAllOffered(df, t[1..], sel);
    }
  }

  /** A decoded label is always one of the labels its multiselect offers. */
  lemma DecodedLabelsOffered(code: Option<int>)
    ensures var l := Load.Decode(Load.LocationLabels, code); l.Some? ==> l.value in LocationOptions
    ensures var l := Load.Decode(Load.ManagementLabels, code); l.Some? ==> l.value in ManagementOptions
    ensures var l := Load.Decode(Load.CategoryLabels, code); l.Some? ==> l.value in CategoryOptions
    ensures var l := Load.Decode(Load.MinorityLabels, code); l.Some? ==> l.value in MinorityOptions
    ensures var l := Load.Decode(Load.ResidentialLabels, code); l.Some? ==> l.value in ResidentialOptions
    ensures var l := Load.Decode(Load.CwsnLabels, code); l.Some? ==> l.value in CwsnOptions
  {
    Load.LocationDecoding(code);
    Load.ManagementDecoding(code);
    Load.CategoryDecoding(code);
    Load.MinorityDecoding(code);
    Load.ResidentialDecoding(code);
    Load.CwsnDecoding(code);
  }

  /** Each decoded label of a row is one its multiselect offers. */
  predicate LabelsOffered(s: School) {
    && (s.location.Some? ==> s.location.value in LocationOptions)
    && (s.management.Some? ==> s.management.value in ManagementOptions)
    && (s.category.Some? ==> s.category.value in CategoryOptions)
    && (s.minority.Some? ==> s.minority.value in MinorityOptions)
    && (s.residential.Some? ==> s.residential.value in ResidentialOptions)
    && (s.specialCwsn.Some? ==> s.specialCwsn.value in CwsnOptions)
  }

  /** Every row `load_data` builds carries only offered labels. */
  lemma EnrichedLabelsOffered(prof: seq<Profile>, fac: seq<Facility>, s: School)
    requires s in Load.Enriched(prof, fac)
    ensures LabelsOffered(s)
  {
    Load.EnrichedOrigin(prof, fac, s);
    var p, f :| p in prof && f in fac && p.pseudocode == f.pseudocode && s == Load.Enrich(Merged(p, f));
    Load.EnrichLabelColumns(Merged(p, f));
    DecodedLabelsOffered(p.location);
    DecodedLabelsOffered(p.management);
    DecodedLabelsOffered(p.category);
    DecodedLabelsOffered(p.minority);
    DecodedLabelsOffered(p.residential);
    DecodedLabelsOffered(p.specialCwsn);
  }

  /** With the sidebar's default selections, a loaded row is shown exactly
      when all six of its coded columns decoded: rows with an unmapped or
      missing code are hidden from the start. */
  lemma DefaultSelectionKeeps(prof: seq<Profile>, fac: seq<Facility>, s: School)
    requires s in Load.Enriched(prof, fac)
    ensures Keep(s, DefaultSelection(Load.Enriched(prof, fac))) <==>
            s.location.Some? && s.management.Some? && s.category.Some? &&
            s.minority.Some? && s.residential.Some? && s.specialCwsn.Some?
  {
    var df := Load.Enriched(prof, fac);
    assert s.state in StateOptions(df);
    EnrichedLabelsOffered(prof, fac, s);
  }
}
