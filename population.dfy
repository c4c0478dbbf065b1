/**
 * The population table loaded at start-up and the per-year view derived from
 * it (`get_data`), the metric column chosen by the display mode and the colour
 * range of the choropleth map.
 */
module Population {

  /** The census years for which the table has a "<year> Population" column. */
  const Years: set<int> := {1970, 1980, 1990, 2000, 2010, 2015, 2020, 2022}

  /** A year the year slider can emit. */
  type Year = y: int | y in Years witness 2022

  type Pos = n: nat | 0 < n witness 1

  /** One row of the population table: the 'Country/Territory' name, its
      'Continent', its 'Area' in km² and one population per census year. */
  datatype Country = Country(name: string, continent: string, area: nat, census: map<int, nat>)

  /** A row as the data file provides it: a positive area and a population for every census year. */
  predicate WellFormed(c: Country)
  {
    c.area > 0 && Years <= c.census.Keys
  }

  predicate Loaded(t: seq<Country>)
  {
    forall i :: 0 <= i < |t| ==> WellFormed(t[i])
  }

  /** An exact non-negative fraction num / den; densities are kept this way instead of as floats. */
  datatype Ratio = Ratio(num: nat, den: Pos)

  /** a >= b as fractions, decided on cross products. */
  predicate AtLeast(a: Ratio, b: Ratio)
  {
    a.num * b.den >= b.num * a.den
  }

  /** A derived row with the columns 'Country/Territory', 'Population' and 'Density'. */
  datatype Row = Row(name: string, population: nat, density: Ratio)

  /** The colours the bar and pie tables assign to their rows. */
  datatype Color = Gray | Orange | DarkRed

  /** The metric column a chart is coloured or ranked by. */
  datatype Column = PopulationColumn | DensityColumn

  /** The 'Population' and 'Density' columns of one country for the chosen year. */
  function ProjectRow(c: Country, year: Year): Row
    requires WellFormed(c)
  {
    Row(c.name, c.census[year], Ratio(c.census[year], c.area))
  }

  /** ProjectRow applied to every row of the table, in table order. */
  function ProjectAll(t: seq<Country>, year: Year): (rows: seq<Row>)
    requires Loaded(t)
    ensures |rows| == |t|
    ensures forall i :: 0 <= i < |t| ==> rows[i] == ProjectRow(t[i], year)
  {
    if t == [] then [] else [ProjectRow(t[0], year)] + ProjectAll(t[1..], year)
  }

  /** The metric column for a display mode: 'Density' exactly for "density". */
  function MetricColumn(mode: string): (col: Column)
    ensures col == DensityColumn <==> mode == "density"
  {
    if mode == "density" then DensityColumn else PopulationColumn
  }

  /** The value a row is ranked by in the given column. */
  function Key(r: Row, col: Column): Ratio
  {
    match col
    case PopulationColumn => Ratio(r.population, 1)
    case DensityColumn => r.density
  }

  /** The data `get_data` prepares: one row per country and the metric column. */
  datatype View = View(rows: seq<Row>, column: Column)

  function GetData(t: seq<Country>, year: Year, mode: string): (v: View)
    requires Loaded(t)
    ensures |v.rows| == |t|
    ensures forall i :: 0 <= i < |t| ==>
      v.rows[i].name == t[i].name && v.rows[i].population == t[i].census[year] &&
      v.rows[i].density.num * t[i].area == v.rows[i].population * v.rows[i].density.den
    ensures v.column == DensityColumn <==> mode == "density"
  {
    View(ProjectAll(t, year), MetricColumn(mode))
  }

  /** The largest 2022 population of the table (`max_population`). */
  function MaxPopulation(t: seq<Country>): (m: nat)
    requires |t| > 0 && Loaded(t)
    ensures forall i :: 0 <= i < |t| ==> t[i].census[2022] <= m
    ensures exists i :: 0 <= i < |t| && t[i].census[2022] == m
  {
    if |t| == 1 then t[0].census[2022]
    else
      var rest := MaxPopulation(t[1..]);
      if t[0].census[2022] >= rest then t[0].census[2022] else rest
  }

  /** The colour scale range of the choropleth map, [low, high]. */
  datatype Range = Range(low: nat, high: nat)

  /** The range `get_map` picks: up to the largest 2022 population for "total", [0, 500] otherwise. */
  function ColorRange(t: seq<Country>, year: Year, mode: string): (r: Range)
    requires |t| > 0 && Loaded(t)
    ensures r.low == 0
    ensures mode == "total" ==>
      (forall i :: 0 <= i < |t| ==> t[i].census[2022] <= r.high) &&
      (exists i :: 0 <= i < |t| && t[i].census[2022] == r.high)
    ensures mode != "total" ==> r.high == 500
  {
    if mode == "total" then Range(0, MaxPopulation(t)) else Range(0, 500)
  }

  /** The colour range does not depend on the year shown. */
  lemma ColorRangeIgnoresYear(t: seq<Country>, y1: Year, y2: Year, mode: string)
    requires |t| > 0 && Loaded(t)
    ensures ColorRange(t, y1, mode) == ColorRange(t, y2, mode)
  {
  }

  /** The "density" mode colours the map by 'Density', and no other mode does;
      only "total" gets the population range, so any third mode would colour by
      'Population' on the [0, 500] range. */
  lemma ModeChoices(t: seq<Country>, year: Year, mode: string)
    requires |t| > 0 && Loaded(t)
    ensures mode == "density" ==> GetData(t, year, mode).column == DensityColumn && ColorRange(t, year, mode) == Range(0, 500)
    ensures mode == "total" ==> GetData(t, year, mode).column == PopulationColumn && ColorRange(t, year, mode).high == MaxPopulation(t)
    ensures mode != "density" && mode != "total" ==> GetData(t, year, mode).column == PopulationColumn && ColorRange(t, year, mode) == Range(0, 500)
  {
  }

  /** Exact ordering facts: any two fractions are comparable, and the order is transitive. */
  lemma AtLeastTotal(a: Ratio, b: Ratio)
    ensures AtLeast(a, b) || AtLeast(b, a)
  {
  }

  lemma AtLeastTrans(a: Ratio, b: Ratio, c: Ratio)
    requires AtLeast(a, b) && AtLeast(b, c)
    ensures AtLeast(a, c)
  {
  }
}
