/** The rows of the UDISE+ dashboard's tables: the two raw inputs, their
    inner join, and the enriched row that every filter and chart reads. */
module Records {

  /** A CSV cell that may be empty (pandas reads an empty cell as NaN). */
  datatype Option<+T> = None | Some(value: T)

  /** A 0/1 indicator column, as produced by `.astype(int)` or `np.where(…, 1, 0)`. */
  type Bit = b: int | 0 <= b <= 1

  /** A share: a mean of 0/1 values. */
  type Share = r: real | 0.0 <= r <= 1.0

  /** One row of the profile file, after the fixed column renames. The coded
      columns are raw integer codes; a missing cell is None. */
  datatype Profile = Profile(
    pseudocode: int,
    state: string,
    district: string,
    management: Option<int>,
    location: Option<int>,
    category: Option<int>,
    minority: Option<int>,
    residential: Option<int>,
    specialCwsn: Option<int>)

  /** One row of the facility file, after the fixed column renames. */
  datatype Facility = Facility(
    pseudocode: int,
    electricityAvailability: Option<int>,
    tapFunYn: Option<int>,
    handwashFacilityForMeal: Option<int>,
    playgroundAvailable: Option<int>,
    libraryAvailability: Option<int>,
    internet: Option<int>,
    ramps: Option<int>,
    handrails: Option<int>,
    ictLab: Option<int>,
    totalGirlsFuncToilet: Option<int>,
    totalGirlsToilet: Option<int>,
    desktop: Option<int>)

  /** One row of the inner join: a profile row and a facility row that share
      a `pseudocode`. */
  datatype Merged = Merged(profile: Profile, facility: Facility)

  /** One row of the enriched table returned by the loader. The coded profile
      columns are replaced by their decoded labels (None where the code has
      no label); the availability columns are replaced by 0/1 indicators. */
  datatype School = School(
    pseudocode: int,
    state: string,
    district: string,
    location: Option<string>,
    management: Option<string>,
    category: Option<string>,
    minority: Option<string>,
    residential: Option<string>,
    specialCwsn: Option<string>,
    funcElectricity: Bit,
    funcWater: Bit,
    funcHandwash: Bit,
    playground: bool,
    library: bool,
    internet: Bit,
    ramps: Bit,
    handrails: Bit,
    ictLab: Bit,
    pctToiletFuncGirls: Bit,
    computerYn: Bit,
    infraIndex: Share,
    equityIndex: Share,
    desktop: Option<int>)
}
