# UDISE+ school dashboard: data pipeline model

This project models the data pipeline behind the Streamlit dashboard
`dash17.py`. The dashboard shows Indian school infrastructure, equity and
digital indicators from the UDISE+ census. The model has three parts:

- **Loading** (`load_data`). The profile rows and the facility rows are
  inner-joined on `pseudocode`. Raw availability codes become 0/1
  indicators, and `computer_yn` is derived from the desktop count. Two
  composite indices are built, and the six coded profile columns are
  decoded into labels. `Load.LoadData` is a method that fills a fresh
  array of enriched rows. Every per-row step is a function with its own
  lemmas.
- **Sidebar filter**. This part covers the state and district option lists
  and the eight-way AND mask. `df_filt` is the rows the mask keeps.
- **State ranking**. Each tab computes the per-state mean of one metric.
  It sorts the means in descending order and draws a bar for each of the
  first ten and the last ten. Each tab's metric selector maps a label to
  a column name.

Modules: `Records` holds the row types. `Order` holds Python's string order
and `sorted(set(…))`. `Stats` holds the mean. `Load`, `Sidebar` and
`Ranking` hold the three parts above.

How pandas and Python semantics are modelled:

- A cell that may be empty is an `Option`, so a missing cell is `None`.
- `x == 1` on a missing cell is false. `True == 1` holds.
- Float division is exact `real` division. A missing operand or `0/0` is
  NaN. A non-zero number over zero is an infinity. Neither NaN nor an
  infinity equals 1.
- `.map(dict)` yields `None` for a code missing from the table.
- `isin` never matches a missing label, and it matches nothing when its
  list is empty.
- `groupby` returns its keys in ascending order.
- `sort_values(ascending=False)` is pinned down only up to the order of
  ties. `Ranking.IsRanking` says what any admissible result satisfies.
  `Ranking.SortDescending` is one such result.

Two points of the code decide what the model does:

- **The girls' toilet column is a 0/1 flag.** It is named
  `pct_toilet_func_girls` and computed as a ratio at dash17.py:69-71.
  But the loop at dash17.py:86-87 applies `== 1` to it as well. So the
  column ends as 1 exactly when the school has girls' toilets and all of
  them work, and 0 otherwise, a zero or missing total included. Both
  indices are therefore plain means of 0/1 values with no missing entry.
- **Empty selections.** Only the district test treats an empty list as no
  constraint (`if district_sel`, dash17.py:122). An empty list for any
  other multiselect keeps no row.

## Model

| member | source | states |
|---|---|---|
| Order.LessIrreflexive | dash17.py:111 | No string sorts before itself. |
| Order.LessTransitive | dash17.py:111 | Python's string order is transitive. |
| Order.LessTotal | dash17.py:111 | Any two strings are equal or one sorts before the other. |
| Order.LessAsymmetric | dash17.py:111 | Two strings never each sort before the other. |
| Order.InsertKeepsOrder | dash17.py:111-112 | Inserting into an ascending duplicate-free list keeps it ascending and duplicate-free, and adds exactly the new element. |
| Order.SortedUnique | dash17.py:111-112 | `sorted(unique())` is strictly ascending and holds exactly the elements of its input. |
| Order.StrictlySortedUnique | dash17.py:111-112 | Two strictly ascending lists with the same elements are equal, so the option list is determined by the values alone. |
| Stats.SumBounds | dash17.py:89-95 | A sum of values in [0, 1] lies between 0 and the number of values. |
| Stats.MeanBounds | dash17.py:89-95 | A mean of values in [0, 1] lies in [0, 1]. |
| Load.MatchesCount | dash17.py:58 | One profile row is paired with each facility row carrying its key, as often as that facility row occurs, and with no other. |
| Load.JoinCount | dash17.py:58 | The inner join keeps duplicates. A key-sharing (profile, facility) pair occurs as often as the product of its input multiplicities, and a pair with different keys never occurs. |
| Load.JoinMember | dash17.py:58 | A merged row is in the join exactly when its profile row and facility row are inputs that share a `pseudocode`. |
| Load.JoinAppend | dash17.py:58 | The join keeps profile-row order: joining a concatenation gives the concatenation of the joins. |
| Load.NoMatches | dash17.py:58 | A profile row whose key is in no facility row finds no partner. |
| Load.UnmatchedProfileDropped | dash17.py:58 | A profile row with no matching facility row contributes nothing, wherever it stands. |
| Load.Flag | dash17.py:61-68 | An availability indicator is 1 exactly when the raw code is 1. Any other value, or a missing cell, gives 0. |
| Load.QuotientIsOneExactly | dash17.py:69-71 | The quotient of two cells equals 1 exactly when both are present, the denominator is non-zero and the two are equal. |
| Load.GirlsToiletFlag | dash17.py:69-71 | `pct_toilet_func_girls` after line 87 is 1 exactly when the total is present and non-zero and the functional count equals it. |
| Load.InfraIndexValues | dash17.py:89-91 | `infra_index` is (electricity + water + girls' toilet + handwash) / 4. It lies in {0, 1/4, 1/2, 3/4, 1} and is 1 exactly when all four indicators are 1. |
| Load.EquityIndexValues | dash17.py:93-95 | `equity_index` is (ramps + handrails + girls' toilet) / 3. It lies in {0, 1/3, 2/3, 1} and is 1 exactly when all three indicators are 1. |
| Load.LocationDecoding | dash17.py:98 | Code 1 decodes to "Rural" and code 2 to "Urban", each exactly. Any other code, or a missing one, decodes to no label. |
| Load.ManagementDecoding | dash17.py:99 | Codes 1, 2 and 3 decode exactly to "Government", "Government Aided" and "Private". Any other code, or a missing one, decodes to no label. |
| Load.CategoryDecoding | dash17.py:100 | Codes 1 to 4 decode exactly to "Primary", "Upper Primary", "Secondary" and "Higher Secondary". Any other code, or a missing one, decodes to no label. |
| Load.MinorityDecoding | dash17.py:101 | Code 1 decodes exactly to "Yes" and code 2 to "No". Any other code, or a missing one, decodes to no label. |
| Load.ResidentialDecoding | dash17.py:102 | Codes 1, 2 and 3 decode exactly to "Completely", "Partially" and "Non-residential". Any other code, or a missing one, decodes to no label. |
| Load.CwsnDecoding | dash17.py:103 | Code 1 decodes exactly to "Yes" and code 2 to "No". Any other code, or a missing one, decodes to no label. |
| Load.EnrichFlags | dash17.py:61-87 | In an enriched row, each availability indicator, including `ict_lab`, is 1 exactly when its raw code is 1. `playground` and `library` hold exactly when their codes are 1. `computer_yn` is 1 exactly when `desktop > 0`. Key, state, district and desktop count pass through. |
| Load.EnrichGirlsToilet | dash17.py:69-71 | In an enriched row, the girls' toilet indicator is 1 exactly when the school has girls' toilets and all of them work. |
| Load.EnrichIndices | dash17.py:89-95 | The two indices of an enriched row are the row means of that row's own indicator columns. |
| Load.EnrichLabels | dash17.py:98-103 | In an enriched row, each of the six label columns holds the k-th label of its table exactly when the raw code is k. It holds no label exactly when the code is outside the table or missing. |
| Load.LoadData | dash17.py:32-105 | Returns a fresh table holding, in join order, the enriched form of every row of the inner join. |
| Load.EnrichedOrigin | dash17.py:58 | Every loaded row comes from one profile row and one facility row with the same key. |
| Load.ScenarioMatched | dash17.py:58 | A matched rural, government-aided school with ramps and no ICT lab loads as one row with those labels and indicators. |
| Load.ScenarioUnmatched | dash17.py:58 | A profile row with no facility partner loads as an empty table. |
| Sidebar.StatesOfMember | dash17.py:111 | The state column holds exactly the states of the table's rows. |
| Sidebar.DistrictsInMember | dash17.py:112 | The district column of `df[df.state.isin(state_sel)]` holds exactly the districts of rows in a selected state. |
| Sidebar.StateOptions | dash17.py:111 | The state options are strictly ascending and are exactly the states that occur in the table. |
| Sidebar.DistrictOptions | dash17.py:112 | The district options are strictly ascending and are exactly the districts of rows whose state is selected. |
| Sidebar.FilterCount | dash17.py:120-131 | `df_filt` keeps every copy of a row that passes the mask and no copy of any other. |
| Sidebar.FilterMember | dash17.py:120-131 | A row is in `df_filt` exactly when it is in the table and passes all eight tests. |
| Sidebar.FilterSubsequence | dash17.py:131 | `df_filt` is the table with some rows left out and the rest in their order. |
| Sidebar.FilterAllKept | dash17.py:131 | A table whose rows all pass the mask is returned unchanged. |
| Sidebar.FilterIdempotent | dash17.py:120-131 | Filtering `df_filt` again with the same selections changes nothing. |
| Sidebar.UnknownLabelNeverKept | dash17.py:123-128 | A row with a missing label in any coded column fails the mask, whatever is selected. |
| Sidebar.EmptySelectionKeepsNothing | dash17.py:121-128 | An empty state list, or an empty list for any of the six coded columns, leaves `df_filt` empty. |
| Sidebar.EmptyDistrictsSameAsAllOffered | dash17.py:112-122 | An empty district list filters exactly like selecting every district offered for the chosen states. |
| Sidebar.DecodedLabelsOffered | dash17.py:98-118 | Every label a code decodes to is one of those its multiselect offers. |
| Sidebar.EnrichedLabelsOffered | dash17.py:98-118 | Every loaded row carries only labels its multiselects offer. |
| Sidebar.DefaultSelectionKeeps | dash17.py:111-131 | Under the default selections, a loaded row is shown exactly when all six of its coded columns decoded. |
| Ranking.Value | dash17.py:216 | Each metric cell of a row lies in [0, 1]. |
| Ranking.Column | dash17.py:216 | A metric column has one entry per row, each in [0, 1]. |
| Ranking.RowsOfNonEmpty | dash17.py:214-217 | Every state of the table has at least one row in its group. |
| Ranking.GroupMeansLength | dash17.py:214-217 | There is one group mean per key. |
| Ranking.GroupMeansAt | dash17.py:214-217 | Entry i of the group means is key i with the mean of the metric over that key's rows. |
| Ranking.StateMeansSpec | dash17.py:214-219 | The groups are the table's states, once each and ascending. Each entry is the mean of the metric over that state's rows, and it lies in [0, 1]. |
| Ranking.InsertByMeanCount | dash17.py:267 | Inserting an entry adds exactly that entry. |
| Ranking.InsertByMeanSorted | dash17.py:267 | Inserting into a non-increasing list keeps it non-increasing. |
| Ranking.SortDescending | dash17.py:267 | The result is a permutation of the state means, in non-increasing order of mean. |
| Ranking.RankingMeansDetermined | dash17.py:267 | Any two non-increasing permutations of the same entries have the same mean at every position. The sort's freedom is only the order within ties. |
| Ranking.HeadTail | dash17.py:271 | The bar table has 2·min(10, n) entries: the first min(10, n) ranked entries, then the last min(10, n). |
| Ranking.OverlapWhenFewStates | dash17.py:271 | With fewer than 20 ranked states, some state appears twice in the bar table. |
| Ranking.NoOverlapWhenManyStates | dash17.py:271 | With 20 or more distinct states, every bar is a different state. |
| Ranking.HeadTailSameMeans | dash17.py:271 | Rankings with the same means give bar tables with the same means, so the bar heights do not depend on tie order. |
| Ranking.RankedLength | dash17.py:263-268 | Any admissible descending sort of the state means has one entry per state of the table. |
| Ranking.RankedEntries | dash17.py:263-268 | Every entry of any admissible descending sort is a state of the table, with its mean in [0, 1]. |
| Ranking.RankedStatesDistinct | dash17.py:214-268 | The states of any admissible descending sort are pairwise distinct, because the `groupby` keys are. |
| Ranking.HeadTailMember | dash17.py:271 | Every bar is an entry of the ranking. |
| Ranking.BarsTop | dash17.py:263-271 | Under any admissible descending sort, the first bar carries the highest state mean. |
| Ranking.BarsSpec | dash17.py:263-271 | Whatever order the sort gives ties, the chart has 2·min(10, n) bars for the n states of `df_filt`. Every bar is a state of the table with its mean in [0, 1], and no state mean exceeds the first bar. |
| Ranking.BarsDistinctWhenManyStates | dash17.py:263-271 | Whatever order the sort gives ties, a chart for 20 or more states shows every state at most once. |
| Ranking.IctLabsChoiceFails | dash17.py:645-652 | Choosing "ICT Labs" in the digital tab names `ict_lan`, which is no column, so that tab's ranking fails. |
| Ranking.WashChoicesResolve | dash17.py:195-204 | Every choice of the WASH selector names a column and yields a bar table. |
| Ranking.EquityChoicesResolve | dash17.py:409-417 | Every choice of the equity selector names a column and yields a bar table. |
| Ranking.DigitalChoicesResolve | dash17.py:645-652 | "Internet" and "Computers" in the digital selector name columns and yield bar tables. |

## Left out

- Reading the two CSV files (dash17.py:35-37) is file I/O. The model takes their rows as inputs.
- The column renames (dash17.py:41-55) are field names of the row records. The merge's `_x`/`_y` suffixes for overlapping columns are not modelled.
- The `st.cache_data` memoisation (dash17.py:31) is not modelled. Neither is any Streamlit or Plotly work: page setup, widgets, tabs, pies, choropleths and bar styling.
- Loading the GeoJSON file and title-casing state names for the map (dash17.py:210-211, 220) are I/O and library case-folding.
- The unused `summary` helper (dash17.py:140-142) and the KPI figures formatted with `:.0%` (dash17.py:569-578) are display formatting.
- `tb.reset_index()` and the column rename at dash17.py:271-272 only name columns, so they are not modelled.
- subset_data.py is seeded random sampling plus file writes. simple.py is a smoke test that reads one CSV. Both are not part of this model.
- Records: `pseudocode`, `state` and `district` are never missing in the model. So `groupby`'s dropping of a missing state key and `isin` on a missing state or district are not modelled.
- Load.Divide: floating-point rounding is not modelled; division is exact. For integer counts below 2^53, IEEE division equals 1 exactly when the two counts are equal, so the flags agree.
- Ranking.SortDescending: it fixes one order among tied means, which pandas' unstable sort does not promise. The chart lemmas (`RankedLength`, `RankedEntries`, `RankedStatesDistinct`, `BarsTop`, `BarsSpec`, `BarsDistinctWhenManyStates`) therefore take any ranking that satisfies `IsRanking`. `RankingMeansDetermined` relates any two such rankings. Only `TabBars` draws its bars from this one sort.
- Ranking.TabBars: a failed lookup or an unknown column becomes `None`. The KeyError and Streamlit's error display are not modelled.
