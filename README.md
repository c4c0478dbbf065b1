# World population dashboard: selection state and chart tables

This project models the logic of a Dash dashboard (`src/app.py`) that shows
per-country population and population density on a choropleth map, a
continent pie chart and a "top countries" bar chart. A click on the map or on
a bar selects a country in all three charts. A second click on the same
country deselects it.

The model covers:

- **The selection state.** Three process-wide lists hold the selection of the
  map, the bar chart and the pie chart. Each list holds at most one country
  name. `App.Dashboard` keeps the three lists as fields, next to the loaded
  table and boundary document. A click resolves to a name through
  `get_selected_country`: the map point's `location` or the bar point's `x`.
  Any other trigger gives no name. Each callback then toggles its own list:
  a name the list already holds clears it, and any other name replaces the
  content.
- **The per-year view (`get_data`).** One row per country holds the
  population of the chosen year and the density population / area. The
  metric column is 'Density' for the "density" mode and 'Population' for any
  other mode. The map's colour range is `[0, largest 2022 population]` for
  "total" and `[0, 500]` for any other mode. The year does not change it.
- **The bar table (`get_top_countries_bar_chart`).** The table is filtered by
  continent, except for "World". It is sorted in descending order of the
  metric and cut to `number` rows. Then exactly one kind of extra row
  follows. With a selection, it is the selected country's row from the
  unfiltered table, renamed `"<name> (Selected)"`. Without one, it is the
  placeholder `"No Country Selected"` with 0 population and 0 density. Only
  rows named `"<selected> (Selected)"` are darkred; all others are gray.
- **The pie table (`get_continents_population_pie_chart`).** Population and
  area are summed per continent. The density of a continent is the summed
  population over the summed area, truncated. The continent of the country in
  the pie's selection gets `darkred` in the table's `Color` column; every
  other continent gets `orange`. These are column values: the drawn colours
  come from the chart's own colour scale and marker settings, which are not
  part of this model.
- **The map overlay (`get_highlights`).** It copies every top-level member of
  the boundary document except `features`. `features` becomes the list of the
  selected countries' features, looked up by `geounit`, in selection order.

Densities are exact fractions (`Population.Ratio`) and are compared by cross
multiplication. The aggregate density of a continent uses integer division.

Points where the model follows the code:

- The selected row is appended even when that country is already among the
  top rows. It is appended even when the country lies outside the chosen
  continent. So when the selected name is held by exactly one row of the
  table, the bar table has one more row than the top rows
  (`SelectedCountryAppended`, `SelectedInTopIsStillAppended`). A name no row
  holds adds no row at all (`UnknownSelectionAppendsNothing`), and a name held
  by several rows adds one row per holder.
- The colour range always uses the largest **2022** population, whatever year
  is shown (lines 11 and 163).
- Clicking the same country twice returns a slot to where it was only when
  the slot was empty or already held that country. From another country, two
  clicks leave it empty (`ToggleTwice`).
- A continent filter with fewer matching countries than `number` gives fewer
  rows, with no padding. The extra row still follows.

## Model

| member | source | states |
|---|---|---|
| `Selection.GetSelectedCountry` | src/app.py:311-317 | A click resolves to a name, and only a control trigger (neither `choropleth_map` nor `top_countries`) resolves to None. |
| `Selection.ToggledSlot` | src/app.py:333-338 | With no truthy name the slot is unchanged. With a name the result has at most one entry. For a slot of at most one entry, the result is empty exactly when the slot held just that name. Otherwise the result is exactly that name. |
| `Selection.ToggleKeepsCapacity` | src/app.py:19-21 | A slot holding at most one name still holds at most one after any event. |
| `Selection.ControlLeavesSlot` | src/app.py:311-317 | A control trigger leaves a slot unchanged. |
| `Selection.ToggleTwice` | src/app.py:360-365 | Two clicks on the same name restore an empty slot or a slot holding that name. From any other name they leave the slot empty. |
| `Selection.ReplaceSelection` | src/app.py:385-390 | Selecting x and then a different y leaves exactly [y], never both. |
| `App.Dashboard.constructor` | src/app.py:19-21 | At start-up all three slots are empty. |
| `App.Dashboard.Toggle` | src/app.py:333-338 | The clear/append block changes only the chosen surface's slot, to the toggled slot. The other two slots stay as they were, and no slot exceeds one name. |
| `App.Dashboard.UpdateChoroplethMap` | src/app.py:330-341 | The map slot is toggled and the other slots are untouched. The figure gets the year's view, the colour range, and the overlay built from the updated map slot exactly when that slot is non-empty. |
| `App.Dashboard.UpdateTopCountries` | src/app.py:354-369 | The bar slot is toggled and the other slots are untouched. The table is the bar table for the count in effect and for the updated bar slot. |
| `App.Dashboard.UpdateContinentsPopulation` | src/app.py:379-394 | The continent slot is toggled and the other slots are untouched. The pie table is built from the updated continent slot. |
| `App.Dashboard.OnClick` | src/app.py:322-394 | A click reaches the three callbacks with the same trigger. Each slot is toggled with the same name, so slots that were equal before are equal after. |
| `App.BarCount` | src/app.py:355-357 | The bar count is the current value of the number input (read as state, not as a trigger) once the button has a click count, and 6 before. The button is created with a click count of 0 (line 105), so the 6 branch never runs in this app. |
| `App.GetMap` | src/app.py:159-203 | The map uses `get_data`'s rows and column and the colour range. It has an overlay exactly when the map slot is non-empty, and that overlay is the highlight document of the slot. |
| `Population.GetData` | src/app.py:136-144 | There is one row per country, in table order. Each row has the country's name, its population for the year, and density = population / area exactly. The column is Density exactly when the mode is "density". |
| `Population.MetricColumn` | src/app.py:142 | The metric is 'Density' if and only if the mode is "density". |
| `Population.MaxPopulation` | src/app.py:11 | The result bounds every country's 2022 population and equals one of them. |
| `Population.ColorRange` | src/app.py:163 | The range starts at 0. For "total" its top is the largest 2022 population. For any other mode it is [0, 500]. |
| `Population.ColorRangeIgnoresYear` | src/app.py:159-163 | The colour range is the same for every year. |
| `Population.ModeChoices` | src/app.py:159-163 | "density" gives Density on [0, 500]. "total" gives Population up to the 2022 maximum. Any other mode gives Population on [0, 500]. |
| `Ranking.OfContinent` | src/app.py:227-228 | A country is kept exactly when it is in the table and has that continent. Each kept country occurs as often as in the table, so the result has as many rows as a row-by-row count of that continent. |
| `Ranking.ContinentRows` | src/app.py:227-228 | A country is kept exactly when it is in the table and is in the chosen continent, or the choice is "World", with its multiplicity in the table. There are as many rows as the table has for "World", else as many as the table's rows of that continent. |
| `Ranking.SortDesc` | src/app.py:235 | The result is a permutation of the rows and is non-increasing in the metric column. |
| `Ranking.Head` | src/app.py:236 | The result is the first min(number, length) rows, and is a prefix of the input. |
| `Ranking.TopRows` | src/app.py:227-236 | There are at most number top rows, they are non-increasing in the mode's metric, and they are drawn from the candidates without repetition (a sub-multiset of the chosen continent's rows for the year). |
| `Ranking.ExtraRows` | src/app.py:238-243 | Without a selection the extra rows are the single placeholder row. With one, they are at most as many as the table's rows, and each is named `"<selected> (Selected)"`. |
| `Ranking.SelectedRows` | src/app.py:219-225 | The rows taken from the unfiltered table are all named `"<name> (Selected)"`. |
| `Ranking.Paint` | src/app.py:246-250 | The rows are kept in order. A row is darkred exactly when a country is selected and the row is named `"<selected> (Selected)"`. Every other row is gray. |
| `Ranking.BarTable` | src/app.py:215-250 | The table is the top rows followed by the extra rows. A bar is darkred exactly when it is the renamed selected row. Every other bar is gray. |
| `RankingProperties.TopRowsLength` | src/app.py:227-236 | Before the extra row there are min(number, n) rows, where n is the table's length for "World" and otherwise the count of the table's rows of that continent. |
| `RankingProperties.TopRowsFromContinent` | src/app.py:227-234 | Every top row is the row of a country of the chosen continent, or of any country for "World". |
| `RankingProperties.TopRowsDominate` | src/app.py:233-236 | Every country of the chosen continent is among the top rows, or is outranked by each of them. |
| `RankingProperties.SelectedRowsOfPresent` | src/app.py:219-225 | With unique country names, a present name yields exactly that country's renamed row. |
| `RankingProperties.SelectedRowsOfAbsent` | src/app.py:222 | A name no country has yields no row. |
| `RankingProperties.NothingSelected` | src/app.py:241-250 | Without a selection, the top rows are followed by one gray placeholder row (0, 0), and no bar is darkred. |
| `RankingProperties.SelectedCountryAppended` | src/app.py:219-249 | With unique country names and a selected table country, exactly one row follows the top rows. It is that country's unfiltered row, renamed and darkred. |
| `RankingProperties.UnknownSelectionAppendsNothing` | src/app.py:222-239 | A selected name that no country has appends nothing. |
| `RankingProperties.SelectedInTopIsStillAppended` | src/app.py:215-250 | A two-country example: with A selected and also first, the table is [A gray, "A (Selected)" darkred]. |
| `Continents.ContinentsOf` | src/app.py:276 | Every country's continent is one of the groups. |
| `Continents.ContinentsOfMembers` | src/app.py:276 | Every group is the continent of some country of the table. |
| `Continents.GroupSums` | src/app.py:276 | There is one group per continent that occurs, and each group's area is positive. |
| `Continents.GroupSumsAreSums` | src/app.py:276 | Each group holds the sums of population and area over its continent's countries. |
| `Continents.ContinentOfName` | src/app.py:271-273 | The result is the continent of the first row with that name. |
| `Continents.HighlightContinent` | src/app.py:270-273 | There is a continent to highlight exactly when the slot holds a name, and it is the continent of a row with that name. |
| `Continents.Slices` | src/app.py:277-284 | There is one slice per group. |
| `Continents.PieTable` | src/app.py:269-284 | There is one slice per continent that occurs in the table. |
| `Continents.SliceTotals` | src/app.py:276-278 | A slice has its continent's summed population and area. Its density d satisfies d·area ≤ population < (d+1)·area, which is int(population / area). |
| `Continents.TruncatedQuotient` | src/app.py:278 | Integer division truncates as `int()` does on a non-negative quotient. |
| `Continents.AtMostOneHighlight` | src/app.py:279-284 | Two darkred slices are the same continent, and a darkred slice implies a selection. |
| `Continents.SelectedContinentHighlighted` | src/app.py:270-284 | With a table country selected, its continent is in the aggregate, and it is exactly the darkred slice. |
| `GeoJson.DistrictLookup` | src/app.py:148 | Every feature's geounit is a key. Each key maps to a feature of the list that carries that geounit. |
| `GeoJson.LastFeatureWins` | src/app.py:148 | A geounit that no later feature repeats maps to its own feature. |
| `GeoJson.Pick` | src/app.py:154 | The selected names' lookups are listed in selection order. |
| `GeoJson.HighlightDoc` | src/app.py:147-155 | The document has the same top-level keys. Every member other than `features` is copied. `features` has one feature per selected name, in order, each with that geounit and taken from the document. |
| `GeoJson.Highlights` | src/app.py:147-155 | The key-by-key loop builds exactly the highlight document. |

## Left out

- Dash layout, the callback decorators and `ctx.triggered_id` (lines 24-130 and 322-394) are left out. The trigger is an input value. `OnClick` models a click, which reaches all three callbacks. A control change reaches only the callbacks that list that control, and it changes no slot (`ControlLeavesSlot`). Dash may run the callbacks in any order. Each callback writes only its own slot, so the order does not matter.
- Reading the CSV and JSON files, the column renames and the `continents` list for the radio buttons (lines 7-16) are file I/O and layout. The table and the boundary document are constructor parameters. The model assumes every row has a positive area and all eight census years, and that the table has at least one row (the 2022 maximum of an empty column is NaN, which the model does not represent).
- `Population.Year` admits only the eight slider years. A missing "<year> Population" column (a KeyError) is not modelled.
- Figure construction is left out: `plotly.express` calls, hover templates, palettes (`cd_map` and the marker colour override, lines 286-297), margins and background colours.
- Floating-point density, `round` and the `int` casts for display (lines 140, 161-162, 224, 232, 255) are left out. Densities are exact fractions. The continent density is integer division, which equals `int()` on exact values.
- `print` (lines 274, 381) and `app.run_server` (line 397) are left out.
- Two crash paths are preconditions. `get_highlights` raises a KeyError for a selected name with no boundary feature (line 154), so `UpdateChoroplethMap` requires every name in the updated map slot to have a feature. The pie raises an IndexError for a selected name that no country has (line 273), so `UpdateContinentsPopulation` requires the name to be in the table. Clicking the appended `"<name> (Selected)"` bar or the `"No Country Selected"` bar sends that label as the clicked name. Those clicks fall outside these preconditions. The bar chart's side of that case is `UnknownSelectionAppendsNothing`.
- Ranking.Head: the count is a natural number. The input widget limits it to 2..30, so pandas' `head` with a negative or missing count is not modelled.
- Ranking.SortDesc: pandas' default `sort_values` does not promise an order among rows with an equal metric. The model keeps their table order, which is one of the allowed orders. The lemmas state only facts that hold for every tie order.
- Continents.PieTable: pandas returns the groups sorted by continent name. The model returns a map keyed by continent, so the order of the pie slices is not modelled.
- Process-wide state shared by several users or sessions is not modelled. There is one `Dashboard` object.
