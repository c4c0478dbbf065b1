/**
 * The table behind the "Top countries" bar chart (`get_top_countries_bar_chart`):
 * filter by continent, sort descending by the metric column, keep the first
 * `number` rows, append the selected country's row (or a placeholder) and
 * colour the rows.
 */
module Ranking {
  import opened Population

  /** Continent choice that disables the filter. */
  const World := "World"

  /** Label of the row appended when nothing is selected. */
  const NoSelection := "No Country Selected"

  /** Suffix added to the name of the appended selected row. */
  const SelectedSuffix := " (Selected)"

  /** A bar: the row it draws and its 'Color'. */
  datatype Bar = Bar(row: Row, color: Color)

  predicate InContinent(c: Country, continent: string)
  {
    continent == World || c.continent == continent
  }

  /** `data[data['Continent'] == continent]`: the rows of one continent, in table order. */
  function OfContinent(t: seq<Country>, continent: string): (r: seq<Country>)
    ensures |r| == CountOf(t, continent)
    ensures forall c :: c in r <==> c in t && c.continent == continent
    ensures forall c :: multiset(r)[c] == if c.continent == continent then multiset(t)[c] else 0
  {
    if t == [] then []
    else
      assert t == [t[0]] + t[1..];
      if t[0].continent == continent then [t[0]] + OfContinent(t[1..], continent)
      else OfContinent(t[1..], continent)
  }

  /** How many rows of the table have that continent, counted one by one. */
  function CountOf(t: seq<Country>, continent: string): nat
  {
    if t == [] then 0
    else (if t[0].continent == continent then 1 else 0) + CountOf(t[1..], continent)
  }

  /** The rows the bar chart ranks: all of them for "World", else one continent's. */
  function ContinentRows(t: seq<Country>, continent: string): (r: seq<Country>)
    ensures |r| == if continent == World then |t| else CountOf(t, continent)
    ensures forall c :: c in r <==> c in t && InContinent(c, continent)
    ensures forall c :: multiset(r)[c] == if InContinent(c, continent) then multiset(t)[c] else 0
    ensures Loaded(t) ==> Loaded(r)
  {
    if continent == World then t else OfContinent(t, continent)
  }

  /** a may stand before b in a descending sort on col. */
  predicate Outranks(a: Row, b: Row, col: Column)
  {
    AtLeast(Key(a, col), Key(b, col))
  }

  /** Non-increasing in col: every row outranks every later one. */
  predicate SortedDesc(s: seq<Row>, col: Column)
  {
    forall i, j :: 0 <= i < j < |s| ==> Outranks(s[i], s[j], col)
  }

  /** Inserts x before the first row it outranks. */
  function Insert(x: Row, s: seq<Row>, col: Column): (r: seq<Row>)
    ensures multiset(r) == multiset(s) + multiset{x}
  {
    if s == [] || Outranks(x, s[0], col) then [x] + s
    else
      assert s == [s[0]] + s[1..];
      [s[0]] + Insert(x, s[1..], col)
  }

  lemma {:induction false} InsertSorted(x: Row, s: seq<Row>, col: Column)
    requires SortedDesc(s, col)
    ensures SortedDesc(Insert(x, s, col), col)
  {
    if s == [] {
    } else if Outranks(x, s[0], col) {
      forall j | 0 < j < |s| ensures Outranks(x, s[j], col) {
        AtLeastTrans(Key(x, col), Key(s[0], col), Key(s[j], col));
      }
    } else {
      var rest := Insert(x, s[1..], col);
      InsertSorted(x, s[1..], col);
      AtLeastTotal(Key(x, col), Key(s[0], col));
      forall j | 0 <= j < |rest| ensures Outranks(s[0], rest[j], col) {
        assert rest[j] in multiset(rest);
        if rest[j] != x {
          assert rest[j] in multiset(s[1..]);
        }
      }
    }
  }

  /** `sort_values(by=col, ascending=False)`: a descending permutation of the rows.
      Rows with equal metric keep their order here; pandas' default sort does
      not promise any order for them. */
  function SortDesc(s: seq<Row>, col: Column): (r: seq<Row>)
    ensures multiset(r) == multiset(s)
    ensures SortedDesc(r, col)
  {
    if s == [] then []
    else
      assert s == [s[0]] + s[1..];
      var rest := SortDesc(s[1..], col);
      InsertSorted(s[0], rest, col);
      Insert(s[0], rest, col)
  }

  /** `head(number)`: the first number rows, or all of them when there are fewer. */
  function Head(s: seq<Row>, number: nat): (r: seq<Row>)
    ensures |r| == if number < |s| then number else |s|
    ensures r <= s
  {
    if number < |s| then s[..number] else s
  }

  /** The rows competing for a place: the chosen continent's countries for the chosen year. */
  function Candidates(t: seq<Country>, year: Year, continent: string): seq<Row>
    requires Loaded(t)
  {
    ProjectAll(ContinentRows(t, continent), year)
  }

  /** The candidates sorted descending by the mode's metric column. */
  function Ranked(t: seq<Country>, year: Year, mode: string, continent: string): seq<Row>
    requires Loaded(t)
  {
    SortDesc(Candidates(t, year, continent), MetricColumn(mode))
  }

  /** A prefix holds no row more often than the whole sequence does. */
  lemma PrefixMultiset(p: seq<Row>, s: seq<Row>)
    requires p <= s
    ensures multiset(p) <= multiset(s)
  {
    assert s == p + s[|p|..];
  }

  /** The ranked rows before the extra row is appended. */
  function TopRows(t: seq<Country>, year: Year, mode: string, number: nat, continent: string): (top: seq<Row>)
    requires Loaded(t)
    ensures |top| <= number
    ensures SortedDesc(top, MetricColumn(mode))
    ensures multiset(top) <= multiset(Candidates(t, year, continent))
  {
    var ranked := Ranked(t, year, mode, continent);
    var top := Head(ranked, number);
    assert forall i :: 0 <= i < |top| ==> top[i] == ranked[i];
    PrefixMultiset(top, ranked);
    top
  }

  /** The renamed row of each country named name, from the unfiltered table. */
  function SelectedRows(t: seq<Country>, year: Year, name: string): (r: seq<Row>)
    requires Loaded(t)
    ensures |r| <= |t|
    ensures forall i :: 0 <= i < |r| ==> r[i].name == name + SelectedSuffix
  {
    if t == [] then []
    else
      var rest := SelectedRows(t[1..], year, name);
      if t[0].name == name then [ProjectRow(t[0], year).(name := name + SelectedSuffix)] + rest else rest
  }

  /** The placeholder row: no name selected, 0 population, 0 density. */
  const Placeholder := Row(NoSelection, 0, Ratio(0, 1))

  /** What is appended after the top rows: the selected country, or the placeholder. */
  function ExtraRows(t: seq<Country>, year: Year, slot: seq<string>): (extra: seq<Row>)
    requires Loaded(t)
    ensures |slot| == 0 ==> extra == [Placeholder]
    ensures |slot| > 0 ==> |extra| <= |t| && forall i :: 0 <= i < |extra| ==> extra[i].name == slot[0] + SelectedSuffix
  {
    if |slot| > 0 then SelectedRows(t, year, slot[0]) else [Placeholder]
  }

  /** The 'Color' column: darkred exactly for the renamed selected row. */
  function ColorOf(r: Row, slot: seq<string>): Color
  {
    if |slot| > 0 && r.name == slot[0] + SelectedSuffix then DarkRed else Gray
  }

  function Paint(rows: seq<Row>, slot: seq<string>): (bars: seq<Bar>)
    ensures |bars| == |rows|
    ensures forall i :: 0 <= i < |rows| ==> bars[i].row == rows[i] && bars[i].color in {Gray, DarkRed}
    ensures forall i :: 0 <= i < |rows| ==>
      (bars[i].color == DarkRed <==> |slot| > 0 && rows[i].name == slot[0] + SelectedSuffix)
  {
    if rows == [] then [] else [Bar(rows[0], ColorOf(rows[0], slot))] + Paint(rows[1..], slot)
  }

  /** The bar chart's table; slot is the bar selection (0 or 1 names). */
  function BarTable(t: seq<Country>, year: Year, mode: string, number: nat, continent: string, slot: seq<string>): (bars: seq<Bar>)
    requires Loaded(t)
    ensures |bars| == |TopRows(t, year, mode, number, continent)| + |ExtraRows(t, year, slot)|
    ensures forall i :: 0 <= i < |bars| ==>
      bars[i].row == (TopRows(t, year, mode, number, continent) + ExtraRows(t, year, slot))[i] &&
      bars[i].color in {Gray, DarkRed}
    ensures forall i :: 0 <= i < |bars| ==>
      (bars[i].color == DarkRed <==> |slot| > 0 && bars[i].row.name == slot[0] + SelectedSuffix)
  {
    Paint(TopRows(t, year, mode, number, continent) + ExtraRows(t, year, slot), slot)
  }
}

module RankingProperties {
  import opened Population
  import opened Ranking

  /** Country names are the table's key: no two rows share one. */
  predicate UniqueNames(t: seq<Country>)
  {
    forall i, j :: 0 <= i < j < |t| ==> t[i].name != t[j].name
  }

  /** The top rows are min(number, matching countries) many. */
  lemma TopRowsLength(t: seq<Country>, year: Year, mode: string, number: nat, continent: string)
    requires Loaded(t)
    ensures var n := if continent == World then |t| else CountOf(t, continent);
            |TopRows(t, year, mode, number, continent)| == if number < n then number else n
  {
    var ranked := Ranked(t, year, mode, continent);
    assert |multiset(ranked)| == |multiset(Candidates(t, year, continent))|;
  }

  /** Every top row is the row of a country of the chosen continent (any country for "World"). */
  lemma TopRowsFromContinent(t: seq<Country>, year: Year, mode: string, number: nat, continent: string)
    requires Loaded(t)
    ensures var top := TopRows(t, year, mode, number, continent);
            forall i :: 0 <= i < |top| ==>
              exists k :: 0 <= k < |t| && InContinent(t[k], continent) && top[i] == ProjectRow(t[k], year)
  {
    var rows := ContinentRows(t, continent);
    var candidates := Candidates(t, year, continent);
    var ranked := Ranked(t, year, mode, continent);
    var top := TopRows(t, year, mode, number, continent);
    forall i | 0 <= i < |top|
      ensures exists k :: 0 <= k < |t| && InContinent(t[k], continent) && top[i] == ProjectRow(t[k], year)
    {
      assert top[i] == ranked[i];
      assert top[i] in multiset(candidates);
      var j :| 0 <= j < |candidates| && candidates[j] == top[i];
      assert rows[j] in rows;
      var k :| 0 <= k < |t| && t[k] == rows[j];
    }
  }

  /** Where a country of the chosen continent stands in the ranking. */
  lemma RankedPosition(t: seq<Country>, year: Year, mode: string, continent: string, k: nat) returns (p: nat)
    requires Loaded(t) && k < |t| && InContinent(t[k], continent)
    ensures var ranked := Ranked(t, year, mode, continent);
            p < |ranked| && ranked[p] == ProjectRow(t[k], year)
  {
    var rows := ContinentRows(t, continent);
    var candidates := Candidates(t, year, continent);
    var ranked := Ranked(t, year, mode, continent);
    assert t[k] in rows;
    var j :| 0 <= j < |rows| && rows[j] == t[k];
    assert candidates[j] in multiset(ranked);
    p :| 0 <= p < |ranked| && ranked[p] == candidates[j];
  }

  /** Every country of the chosen continent is either among the top rows or
      outranked by every one of them: the top rows are a true top N. */
  lemma TopRowsDominate(t: seq<Country>, year: Year, mode: string, number: nat, continent: string, k: nat)
    requires Loaded(t) && k < |t| && InContinent(t[k], continent)
    ensures var top := TopRows(t, year, mode, number, continent);
            ProjectRow(t[k], year) in top ||
            forall i :: 0 <= i < |top| ==> Outranks(top[i], ProjectRow(t[k], year), MetricColumn(mode))
  {
    var ranked := Ranked(t, year, mode, continent);
    var top := TopRows(t, year, mode, number, continent);
    var p := RankedPosition(t, year, mode, continent, k);
    if p < |top| {
      assert top[p] == ranked[p];
    } else {
      assert forall i :: 0 <= i < |top| ==> top[i] == ranked[i];
    }
  }

  /** With a unique name present in the table, exactly the renamed row of that country is selected. */
  lemma {:induction false} SelectedRowsOfPresent(t: seq<Country>, year: Year, k: nat)
    requires Loaded(t) && UniqueNames(t) && k < |t|
    ensures SelectedRows(t, year, t[k].name) == [ProjectRow(t[k], year).(name := t[k].name + SelectedSuffix)]
  {
    var name := t[k].name;
    if k == 0 {
      SelectedRowsOfAbsent(t[1..], year, name);
    } else {
      assert t[0].name != name;
      assert UniqueNames(t[1..]) by {
        forall i, j | 0 <= i < j < |t[1..]| ensures t[1..][i].name != t[1..][j].name {
          assert t[1..][i] == t[i + 1] && t[1..][j] == t[j + 1];
        }
      }
      SelectedRowsOfPresent(t[1..], year, k - 1);
    }
  }

  /** A name no country has selects nothing: no row is appended for it. */
  lemma {:induction false} SelectedRowsOfAbsent(t: seq<Country>, year: Year, name: string)
    requires Loaded(t)
    requires forall i :: 0 <= i < |t| ==> t[i].name != name
    ensures SelectedRows(t, year, name) == []
  {
    if t != [] {
      SelectedRowsOfAbsent(t[1..], year, name);
    }
  }

  /** With nothing selected the bar table is the top rows plus the gray
      "No Country Selected" row with 0 population and 0 density, and no bar is darkred. */
  lemma NothingSelected(t: seq<Country>, year: Year, mode: string, number: nat, continent: string)
    requires Loaded(t)
    ensures var top := TopRows(t, year, mode, number, continent);
            var bars := BarTable(t, year, mode, number, continent, []);
            |bars| == |top| + 1 &&
            (forall i :: 0 <= i < |top| ==> bars[i] == Bar(top[i], Gray)) &&
            bars[|top|] == Bar(Row(NoSelection, 0, Ratio(0, 1)), Gray)
    ensures forall b :: b in BarTable(t, year, mode, number, continent, []) ==> b.color == Gray
  {
    var top := TopRows(t, year, mode, number, continent);
    var bars := BarTable(t, year, mode, number, continent, []);
    assert (top + [Placeholder])[|top|] == Placeholder;
    forall i | 0 <= i < |top| ensures bars[i] == Bar(top[i], Gray) {
      assert (top + [Placeholder])[i] == top[i];
    }
  }

  /** With a table country selected, exactly one row follows the top rows: that
      country's row from the unfiltered table, renamed "<name> (Selected)" and
      darkred, whether or not it is already among the top rows or in the chosen continent. */
  lemma SelectedCountryAppended(t: seq<Country>, year: Year, mode: string, number: nat, continent: string,
                                slot: seq<string>, k: nat)
    requires Loaded(t) && UniqueNames(t) && k < |t|
    requires |slot| > 0 && slot[0] == t[k].name
    ensures var top := TopRows(t, year, mode, number, continent);
            var bars := BarTable(t, year, mode, number, continent, slot);
            |bars| == |top| + 1 &&
            bars[|top|] == Bar(Row(t[k].name + SelectedSuffix, t[k].census[year], Ratio(t[k].census[year], t[k].area)), DarkRed)
  {
    var top := TopRows(t, year, mode, number, continent);
    SelectedRowsOfPresent(t, year, k);
    var extra := ExtraRows(t, year, slot);
    assert (top + extra)[|top|] == extra[0];
  }

  /** A selected name that no country has (such as the label of a bar) appends
      nothing: the bar table is only the top rows, all gray unless a top row
      itself carries the "(Selected)" label. */
  lemma UnknownSelectionAppendsNothing(t: seq<Country>, year: Year, mode: string, number: nat, continent: string,
                                       slot: seq<string>)
    requires Loaded(t) && |slot| > 0
    requires forall i :: 0 <= i < |t| ==> t[i].name != slot[0]
    ensures |BarTable(t, year, mode, number, continent, slot)| == |TopRows(t, year, mode, number, continent)|
  {
    SelectedRowsOfAbsent(t, year, slot[0]);
  }

  function Census(p: nat): (m: map<int, nat>)
    ensures Years <= m.Keys
  {
    map y | y in Years :: p
  }

  /** The two-country table of the scenario below: A (800 people on 10 km²) and B (200 on 100 km²). */
  function ScenarioTable(): (t: seq<Country>)
    ensures Loaded(t)
  {
    [Country("A", "Europe", 10, Census(800)), Country("B", "Asia", 100, Census(200))]
  }

  lemma ScenarioTop()
    ensures TopRows(ScenarioTable(), 2022, "total", 1, World) == [Row("A", 800, Ratio(800, 10))]
  {
    var t := ScenarioTable();
    var ra, rb := Row("A", 800, Ratio(800, 10)), Row("B", 200, Ratio(200, 100));
    assert ProjectAll(t, 2022) == [ra, rb] by {
      assert ProjectAll(t[1..], 2022) == [rb];
    }
    assert SortDesc([rb], PopulationColumn) == [rb] by {
      assert [rb][1..] == [];
    }
    assert Insert(ra, [rb], PopulationColumn) == [ra, rb];
    assert SortDesc([ra, rb], PopulationColumn) == [ra, rb] by {
      assert [ra, rb][1..] == [rb];
    }
  }

  lemma ScenarioExtra()
    ensures ExtraRows(ScenarioTable(), 2022, ["A"]) == [Row("A (Selected)", 800, Ratio(800, 10))]
  {
    var t := ScenarioTable();
    assert "A" + SelectedSuffix == "A (Selected)";
    assert SelectedRows(t[1..], 2022, "A") == [];
  }

  /** Top 1 by total population with A selected: A is both the top row and the
      appended selected row, so the table has two rows and keeps the duplicate. */
  lemma SelectedInTopIsStillAppended()
    ensures BarTable(ScenarioTable(), 2022, "total", 1, World, ["A"]) ==
              [Bar(Row("A", 800, Ratio(800, 10)), Gray), Bar(Row("A (Selected)", 800, Ratio(800, 10)), DarkRed)]
  {
    var ra := Row("A", 800, Ratio(800, 10));
    var rs := Row("A (Selected)", 800, Ratio(800, 10));
    ScenarioTop();
    ScenarioExtra();
    assert "A" + SelectedSuffix == "A (Selected)";
    var bars := BarTable(ScenarioTable(), 2022, "total", 1, World, ["A"]);
    assert [ra] + [rs] == [ra, rs];
    assert |bars| == 2 && bars[0].row == ra && bars[1].row == rs;
  }
}
