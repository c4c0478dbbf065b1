/**
 * The dashboard's selection state and its three callbacks
 * (`update_choropleth_map`, `update_top_countries`,
 * `update_continents_population`): each toggles its own slot with the clicked
 * name and then rebuilds its chart's table from the updated slot.
 */
module App {
  import opened Wrappers
  import opened Population
  import opened Ranking
  import opened Continents
  import opened GeoJson
  import opened Selection

  /** The three charts, each with its own selection slot. */
  datatype Surface = ChoroplethMap | TopCountries | ContinentsPopulation

  /** What the choropleth map is drawn from: the year's rows and metric column,
      the colour range, and the overlay of selected countries if there are any. */
  datatype MapFigure = MapFigure(data: View, range: Range, highlights: Option<Document>)

  /** `get_map`: the overlay is built only when a country is selected. */
  method GetMap(t: seq<Country>, doc: Document, year: Year, mode: string, selected: seq<string>)
    returns (fig: MapFigure)
    requires |t| > 0 && Loaded(t)
    requires |selected| > 0 ==> AllMapped(doc, selected)
    ensures fig.data == GetData(t, year, mode) && fig.range == ColorRange(t, year, mode)
    ensures fig.highlights.Some? <==> |selected| > 0
    ensures fig.highlights.Some? ==> fig.highlights.value == HighlightDoc(doc, selected)
  {
    var highlights := None;
    if |selected| > 0 {
      var h := Highlights(doc, selected);
      highlights := Some(h);
    }
    fig := MapFigure(GetData(t, year, mode), ColorRange(t, year, mode), highlights);
  }

  /** The bar count: the number input's current value once the button has a click count, 6 before.
      The button starts with a click count of 0, so in this app the 6 branch never runs. */
  function BarCount(nClicks: Option<nat>, numberInput: nat): (n: nat)
    ensures nClicks.Some? ==> n == numberInput
    ensures nClicks.None? ==> n == 6
  {
    if nClicks.Some? then numberInput else 6
  }

  /** The process-wide state: the loaded table and boundary document, and the
      three selection slots. */
  class Dashboard {
    const table: seq<Country>
    const geo: Document
    var mapSlot: seq<string>
    var barSlot: seq<string>
    var continentSlot: seq<string>

    ghost predicate Valid()
      reads this
    {
      |table| > 0 && Loaded(table) && |mapSlot| <= 1 && |barSlot| <= 1 && |continentSlot| <= 1
    }

    /** Start-up: the data is loaded and nothing is selected. */
    constructor (table: seq<Country>, geo: Document)
      requires |table| > 0 && Loaded(table)
      ensures Valid() && this.table == table && this.geo == geo
      ensures mapSlot == [] && barSlot == [] && continentSlot == []
    {
      this.table := table;
      this.geo := geo;
      mapSlot, barSlot, continentSlot := [], [], [];
    }

    /** One callback's toggle of its own slot: clear it when it holds the
        clicked name, otherwise clear it and append the name. */
    method Toggle(surface: Surface, trigger: Trigger)
      requires Valid()
      modifies this
      ensures Valid()
      ensures mapSlot == if surface == ChoroplethMap then ToggledSlot(old(mapSlot), GetSelectedCountry(trigger)) else old(mapSlot)
      ensures barSlot == if surface == TopCountries then ToggledSlot(old(barSlot), GetSelectedCountry(trigger)) else old(barSlot)
      ensures continentSlot == if surface == ContinentsPopulation then ToggledSlot(old(continentSlot), GetSelectedCountry(trigger)) else old(continentSlot)
    {
      var name := GetSelectedCountry(trigger);
      if name.Some? && name.value != "" {
        var n := name.value;
        match surface {
          case ChoroplethMap =>
            if n in mapSlot {
              mapSlot := [];
            } else {
              mapSlot := [];
              mapSlot := mapSlot + [n];
            }
          case TopCountries =>
            if n in barSlot {
              barSlot := [];
            } else {
              barSlot := [];
              barSlot := barSlot + [n];
            }
          case ContinentsPopulation =>
            if n in continentSlot {
              continentSlot := [];
            } else {
              continentSlot := [];
              continentSlot := continentSlot + [n];
            }
        }
      }
    }

    /** `update_choropleth_map`: toggles the map slot, then draws the map from it. */
    method UpdateChoroplethMap(year: Year, mode: string, trigger: Trigger) returns (fig: MapFigure)
      requires Valid()
      requires var after := ToggledSlot(mapSlot, GetSelectedCountry(trigger));
               |after| > 0 ==> AllMapped(geo, after)
      modifies this
      ensures Valid()
      ensures mapSlot == ToggledSlot(old(mapSlot), GetSelectedCountry(trigger))
      ensures barSlot == old(barSlot) && continentSlot == old(continentSlot)
      ensures fig.data == GetData(table, year, mode) && fig.range == ColorRange(table, year, mode)
      ensures |mapSlot| > 0 ==> AllMapped(geo, mapSlot) && fig.highlights == Some(HighlightDoc(geo, mapSlot))
      ensures mapSlot == [] ==> fig.highlights == None
    {
      Toggle(ChoroplethMap, trigger);
      fig := GetMap(table, geo, year, mode, mapSlot);
    }

    /** `update_top_countries`: toggles the bar slot, then builds the bar table from it. */
    method UpdateTopCountries(year: Year, mode: string, nClicks: Option<nat>, continent: string,
                              trigger: Trigger, numberInput: nat) returns (bars: seq<Bar>)
      requires Valid()
      modifies this
      ensures Valid()
      ensures barSlot == ToggledSlot(old(barSlot), GetSelectedCountry(trigger))
      ensures mapSlot == old(mapSlot) && continentSlot == old(continentSlot)
      ensures bars == BarTable(table, year, mode, BarCount(nClicks, numberInput), continent, barSlot)
    {
      var number := 6;
      if nClicks.Some? {
        number := numberInput;
      }
      Toggle(TopCountries, trigger);
      bars := BarTable(table, year, mode, number, continent, barSlot);
    }

    /** `update_continents_population`: toggles the continent slot, then builds the pie table from it. */
    method UpdateContinentsPopulation(year: Year, mode: string, trigger: Trigger) returns (pie: map<string, Slice>)
      requires Valid()
      requires var after := ToggledSlot(continentSlot, GetSelectedCountry(trigger));
               |after| > 0 ==> exists i :: 0 <= i < |table| && table[i].name == after[0]
      modifies this
      ensures Valid()
      ensures continentSlot == ToggledSlot(old(continentSlot), GetSelectedCountry(trigger))
      ensures mapSlot == old(mapSlot) && barSlot == old(barSlot)
      ensures pie == PieTable(table, year, continentSlot)
    {
      Toggle(ContinentsPopulation, trigger);
      pie := PieTable(table, year, continentSlot);
    }

    /** A click reaches all three callbacks with the same trigger: every slot is
        toggled with the same name, so slots that agreed before still agree. */
    method OnClick(year: Year, mode: string, nClicks: Option<nat>, continent: string,
                   trigger: Trigger, numberInput: nat)
      returns (fig: MapFigure, bars: seq<Bar>, pie: map<string, Slice>)
      requires Valid()
      requires var after := ToggledSlot(mapSlot, GetSelectedCountry(trigger));
               |after| > 0 ==> AllMapped(geo, after)
      requires var after := ToggledSlot(continentSlot, GetSelectedCountry(trigger));
               |after| > 0 ==> exists i :: 0 <= i < |table| && table[i].name == after[0]
      modifies this
      ensures Valid()
      ensures mapSlot == ToggledSlot(old(mapSlot), GetSelectedCountry(trigger))
      ensures barSlot == ToggledSlot(old(barSlot), GetSelectedCountry(trigger))
      ensures continentSlot == ToggledSlot(old(continentSlot), GetSelectedCountry(trigger))
      ensures old(mapSlot) == old(barSlot) == old(continentSlot) ==> mapSlot == barSlot == continentSlot
      ensures |mapSlot| > 0 ==> AllMapped(geo, mapSlot) && fig.highlights == Some(HighlightDoc(geo, mapSlot))
      ensures mapSlot == [] ==> fig.highlights == None
      ensures bars == BarTable(table, year, mode, BarCount(nClicks, numberInput), continent, barSlot)
      ensures pie == PieTable(table, year, continentSlot)
    {
      fig := UpdateChoroplethMap(year, mode, trigger);
      bars := UpdateTopCountries(year, mode, nClicks, continent, trigger, numberInput);
      pie := UpdateContinentsPopulation(year, mode, trigger);
    }
  }
}
