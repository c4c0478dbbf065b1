/**
 * The table behind the "Continents Population" pie chart
 * (`get_continents_population_pie_chart`): population and area summed per
 * continent, the aggregate density, and the highlight of the continent of the
 * country held in the continent selection slot.
 */
module Continents {
  import opened Wrappers
  import opened Population

  /** The continents that occur in the table. */
  function ContinentsOf(t: seq<Country>): (ks: set<string>)
    ensures forall i :: 0 <= i < |t| ==> t[i].continent in ks
  {
    if t == [] then {}
    else
      var rest := ContinentsOf(t[1..]);
      assert forall i :: 0 < i < |t| ==> t[i] == t[1..][i - 1];
      {t[0].continent} + rest
  }

  /** Every group is the continent of some country: `ContinentsOf` holds nothing else. */
  lemma {:induction false} ContinentsOfMembers(t: seq<Country>, k: string)
    requires k in ContinentsOf(t)
    ensures exists i :: 0 <= i < |t| && t[i].continent == k
  {
    if t[0].continent != k {
      ContinentsOfMembers(t[1..], k);
      var i :| 0 <= i < |t[1..]| && t[1..][i].continent == k;
      assert t[i + 1].continent == k;
    }
  }

  /** Reference sums, country by country: the population and the area of one continent. */
  function PopulationOf(t: seq<Country>, year: Year, k: string): nat
    requires Loaded(t)
  {
    if t == [] then 0
    else (if t[0].continent == k then t[0].census[year] else 0) + PopulationOf(t[1..], year, k)
  }

  function AreaOf(t: seq<Country>, k: string): nat
  {
    if t == [] then 0
    else (if t[0].continent == k then t[0].area else 0) + AreaOf(t[1..], k)
  }

  /** Running totals of one group. */
  datatype Sums = Sums(population: nat, area: nat)

  /** `groupby('Continent').agg({'Population': 'sum', 'Area': 'sum'})`, as a
      map from continent to its totals. */
  function GroupSums(t: seq<Country>, year: Year): (m: map<string, Sums>)
    requires Loaded(t)
    ensures m.Keys == ContinentsOf(t)
    ensures forall k :: k in m ==> m[k].area > 0
  {
    if t == [] then map[]
    else
      var rest := GroupSums(t[1..], year);
      var k := t[0].continent;
      var prev := if k in rest then rest[k] else Sums(0, 0);
      rest[k := Sums(prev.population + t[0].census[year], prev.area + t[0].area)]
  }

  /** A continent absent from the table contributes nothing to the reference sums. */
  lemma {:induction false} SumsOfAbsent(t: seq<Country>, year: Year, k: string)
    requires Loaded(t) && k !in ContinentsOf(t)
    ensures PopulationOf(t, year, k) == 0 && AreaOf(t, k) == 0
  {
    if t != [] {
      SumsOfAbsent(t[1..], year, k);
    }
  }

  /** Each group holds exactly the summed population and area of its continent's countries. */
  lemma {:induction false} GroupSumsAreSums(t: seq<Country>, year: Year, k: string)
    requires Loaded(t) && k in ContinentsOf(t)
    ensures GroupSums(t, year)[k] == Sums(PopulationOf(t, year, k), AreaOf(t, k))
  {
    var rest := GroupSums(t[1..], year);
    if k == t[0].continent {
      GroupSumsFirst(t, year);
      if k in rest {
        GroupSumsAreSums(t[1..], year, k);
      } else {
        SumsOfAbsent(t[1..], year, k);
      }
    } else {
      GroupSumsOther(t, year, k);
      GroupSumsAreSums(t[1..], year, k);
    }
  }

  /** The first country's row adds to its continent's running totals. */
  lemma GroupSumsFirst(t: seq<Country>, year: Year)
    requires Loaded(t) && t != []
    ensures var rest := GroupSums(t[1..], year);
            var k := t[0].continent;
            var prev := if k in rest then rest[k] else Sums(0, 0);
            GroupSums(t, year)[k] == Sums(prev.population + t[0].census[year], prev.area + t[0].area)
  {
  }

  /** The other continents' totals are those of the remaining rows. */
  lemma GroupSumsOther(t: seq<Country>, year: Year, k: string)
    requires Loaded(t) && k in ContinentsOf(t) && k != t[0].continent
    ensures k in ContinentsOf(t[1..]) && GroupSums(t, year)[k] == GroupSums(t[1..], year)[k]
  {
  }

  /** One pie slice: the continent's totals, its truncated density and its colour. */
  datatype Slice = Slice(population: nat, area: nat, density: nat, color: Color)

  /** `population_data[... == name]['Continent'].values[0]`: the continent of the first row with that name. */
  function ContinentOfName(t: seq<Country>, name: string): (k: string)
    requires exists i :: 0 <= i < |t| && t[i].name == name
    ensures exists i :: 0 <= i < |t| && t[i].name == name && t[i].continent == k &&
                        forall j :: 0 <= j < i ==> t[j].name != name
  {
    if t[0].name == name then t[0].continent
    else
      var k := ContinentOfName(t[1..], name);
      assert forall i :: 0 <= i < |t[1..]| ==> t[1..][i] == t[i + 1];
      k
  }

  /** The continent to highlight: that of the country in the slot, if any. */
  function HighlightContinent(t: seq<Country>, slot: seq<string>): (h: Option<string>)
    requires |slot| > 0 ==> exists i :: 0 <= i < |t| && t[i].name == slot[0]
    ensures h.Some? <==> |slot| > 0
    ensures h.Some? ==> exists i :: 0 <= i < |t| && t[i].name == slot[0] && t[i].continent == h.value
  {
    if |slot| > 0 then Some(ContinentOfName(t, slot[0])) else None
  }

  /** Density and `Color` column per group: orange, or darkred for the highlighted continent
      (the value written into the table's `Color` column; the drawn colours come from the chart). */
  function Slices(sums: map<string, Sums>, highlight: Option<string>): (pie: map<string, Slice>)
    requires forall k :: k in sums ==> sums[k].area > 0
    ensures pie.Keys == sums.Keys
  {
    map k | k in sums ::
      Slice(sums[k].population, sums[k].area, sums[k].population / sums[k].area,
            if highlight == Some(k) then DarkRed else Orange)
  }

  /** The pie chart's table: one slice per continent of the table. */
  function PieTable(t: seq<Country>, year: Year, slot: seq<string>): (pie: map<string, Slice>)
    requires Loaded(t)
    requires |slot| > 0 ==> exists i :: 0 <= i < |t| && t[i].name == slot[0]
    ensures pie.Keys == ContinentsOf(t)
  {
    Slices(GroupSums(t, year), HighlightContinent(t, slot))
  }

  /** Each slice sums its continent's countries, and its density is the summed
      population over the summed area, truncated: int(population / area). */
  lemma SliceTotals(t: seq<Country>, year: Year, slot: seq<string>, k: string)
    requires Loaded(t)
    requires |slot| > 0 ==> exists i :: 0 <= i < |t| && t[i].name == slot[0]
    requires k in ContinentsOf(t)
    ensures var s := PieTable(t, year, slot)[k];
            s.population == PopulationOf(t, year, k) && s.area == AreaOf(t, k) && s.area > 0 &&
            s.density * s.area <= s.population < (s.density + 1) * s.area
  {
    var sums := GroupSums(t, year)[k];
    GroupSumsAreSums(t, year, k);
    assert PieTable(t, year, slot)[k].density == sums.population / sums.area;
    TruncatedQuotient(sums.population, sums.area);
  }

  /** Integer division truncates: q = p / a is the q with q * a <= p < (q + 1) * a. */
  lemma TruncatedQuotient(p: nat, a: Pos)
    ensures (p / a) * a <= p < (p / a + 1) * a
  {
  }

  /** At most one continent is highlighted, and none without a selection. */
  lemma AtMostOneHighlight(t: seq<Country>, year: Year, slot: seq<string>, k1: string, k2: string)
    requires Loaded(t)
    requires |slot| > 0 ==> exists i :: 0 <= i < |t| && t[i].name == slot[0]
    requires k1 in PieTable(t, year, slot) && k2 in PieTable(t, year, slot)
    requires PieTable(t, year, slot)[k1].color == DarkRed && PieTable(t, year, slot)[k2].color == DarkRed
    ensures k1 == k2 && |slot| > 0
  {
  }

  /** With a table country selected, the highlighted slice is the continent of
      the first row with that name: it is always present in the aggregate. */
  lemma SelectedContinentHighlighted(t: seq<Country>, year: Year, slot: seq<string>, i: nat)
    requires Loaded(t) && i < |t| && |slot| > 0 && slot[0] == t[i].name
    requires forall j :: 0 <= j < i ==> t[j].name != t[i].name
    ensures t[i].continent in PieTable(t, year, slot)
    ensures forall k :: k in PieTable(t, year, slot) ==>
              (PieTable(t, year, slot)[k].color == DarkRed <==> k == t[i].continent)
  {
    var k := ContinentOfName(t, slot[0]);
    assert k == t[i].continent;
  }
}
