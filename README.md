# Travel planner rules in Dafny

This project models the deterministic rules of an AI travel planner for
Indian cities, and proves properties of them. The LLM, HTTP and file
plumbing around those rules is left abstract. The modules follow the
program's own files:

- `FlightSearch` (`flight_search.dfy`) is the flight search tool:
  - the case-insensitive route filter;
  - the stable sort by price or by duration, with default keys for missing fields;
  - the `"Xh Ym"` duration text;
  - the top-three report with its "price"/"duration" recommendation;
  - the tool's `_run`, which turns every failure into a message.
- `Weather` (`weather.dfy`) is the weather tool:
  - the city gazetteer, with "bengaluru" an alias of Bangalore;
  - the WMO weather-code labels (WMO code table 4677, as Open-Meteo reports them), with "Unknown" as the fallback;
  - the clamp of the forecast length to seven days;
  - the per-day report loop and the travel tips;
  - the tool's `_run` over an abstract forecast fetch.
- `TravelAgent` (`travel_agent.dfy`) is the hybrid agent:
  - the Ollama → Gemini → demo provider cascade, over an abstract environment;
  - the `_flight_search` and `_budget_calculator` tool stubs;
  - the trip query;
  - the inclusive day count;
  - the demo itinerary, with its five rotating themes and fixed budget;
  - `plan_trip`'s dispatch and error mapping, with the agent's run as an abstract function that may fail.
- `Formatters` (`formatters.dfy`) holds `format_currency`, `format_date_range` and `format_itinerary_text`.
- `DataFiles` (`data_loader.dfy`) is `DataLoader`:
  - the joined path;
  - the not-found and bad-JSON outcomes, over an abstract file map;
  - the shape normalisation;
  - the ten-entry least-recently-used cache;
  - `clear_cache` and the three `load_*` wrappers.
- The helper modules model the Python library behaviour the core relies on:
  - `Text` (`text.dfy`): `str.lower`/`upper`/`strip`, `str(int)`, `int()`, `{:,}` grouping, zero padding, `join`;
  - `Calendar` (`calendar.dfy`): `strptime("%Y-%m-%d")`, date subtraction, weekday and month names;
  - `StableSort` (`stable_sort.dfy`): the stability of `sorted`;
  - `JsonData` (`json_data.dfy`): JSON values;
  - `Wrappers` (`wrappers.dfy`): `Option` and `Result`.

Exceptions are modelled as values:
- a Python function that may raise returns a `Result`, whose error side carries the text `str(e)` would give;
- a `try`/`except` that turns the exception into a message is a match on that `Result`.

Amounts of money are integers. Temperatures, precipitation sums and ratings are integers in tenths, printed the way Python prints such one-decimal floats.

Where a Python loop builds a list or string step by step, the model is a method with a loop, proved equal to a specification function:
- `FormatFlightOutput`, `FormatWeatherOutput`, `DemoPlanTrip`, `NormalizeShape`;
- the `Append*` methods behind `FormatItineraryText`.

Where the code sets fields once, it is a class with `const` fields:
- `FlightSearchTool`, `WeatherTool` and `HybridTravelAgent`.

The data loader's cache is mutable state. It lives in `DataFiles.DataLoader`'s `cache` and `order` fields, which its methods update, with a well-formedness invariant that every method keeps.

## Model

| member | source | states |
|---|---|---|
| FlightSearch.SelectRoute | src/tools/flight_search_tool.py:147-151 | Every kept record is on the route. The result is a subsequence of the input in its original order. Each record occurs as often as in the input if it is on the route, and not at all otherwise. |
| FlightSearch.FilterFlights | src/tools/flight_search_tool.py:144-153 | Every kept record's lower-cased source and destination equal the lower-cased, stripped query. The result is an order-preserving subsequence of the dataset. It keeps every matching record with its multiplicity and drops every other. |
| FlightSearch.FilterIgnoresQueryCaseAndSpace | src/tools/flight_search_tool.py:144-145 | Surrounding whitespace and upper-casing of the query cities do not change the filter's result. |
| FlightSearch.DurationRoundTrip | src/tools/flight_search_tool.py:165-167 | Reading the duration text back as hours * 60 + minutes recovers the input, for the "Xh" and the "Xh Ym" forms alike. |
| FlightSearch.SortFlights | src/tools/flight_search_tool.py:180-183 | The result is a permutation of the input. It is ordered by duration (missing = 999) when asked for "duration", and by price (missing = 999999) for every other value. Records with equal keys keep their input order. |
| FlightSearch.FlightEntry | src/tools/flight_search_tool.py:201-207 | A flight's entry is written exactly when it has a price; formatting a missing price with `:,` raises. |
| FlightSearch.EntriesBySucceed | src/tools/flight_search_tool.py:200-207 | With an entry writer that fails exactly on unpriced flights, the listing succeeds exactly when every listed flight is priced. |
| FlightSearch.EntriesSucceed | src/tools/flight_search_tool.py:200-207 | The listing of flights succeeds exactly when every listed flight has a price. |
| FlightSearch.EntriesStep | src/tools/flight_search_tool.py:200-207 | One loop step: the listing grows by the next entry, or ends with that entry's error. |
| FlightSearch.EntriesPrefixError | src/tools/flight_search_tool.py:200-207 | Once an entry has raised, the later flights do not change the outcome. |
| FlightSearch.FormatFlightOutput | src/tools/flight_search_tool.py:185-215 | The loop over the top three flights builds exactly the report: the fixed text for no flights, else count header, entries and recommendation, or the error of the first entry that raises. |
| FlightSearch.OutputListsTopThree | src/tools/flight_search_tool.py:198-212 | Two flight lists of the same length that agree on their first three records give the same report. |
| FlightSearch.OutputFailsOnMissingPrice | src/tools/flight_search_tool.py:200-204 | The report fails exactly when one of the first min(3, n) flights has no price. |
| FlightSearch.OutputStartsWithCount | src/tools/flight_search_tool.py:198 | A successful report on a non-empty list opens with "Found n flight(s):", where n is the full count. |
| FlightSearch.PriceSortRecommendsPrice | src/tools/flight_search_tool.py:210-212 | After a price sort of two or more flights whose first is priced, the recommendation is "price". |
| FlightSearch.PricedSearchSucceeds | src/tools/flight_search_tool.py:229-244 | No matching flight gives the "No direct flights found" message. With every match priced, a price search returns the report itself, never the error text, and recommends the price for two or more. |
| FlightSearch.FlightSearchTool.constructor | src/tools/flight_search_tool.py:39-48 | The tool keeps the dataset it is given. |
| FlightSearch.FlightSearchTool.Run | src/tools/flight_search_tool.py:217-244 | Filtering, sorting and formatting give exactly the search result; a formatting failure becomes "Error searching flights: ...". |
| StableSort.SortBy | src/tools/flight_search_tool.py:181-183 | The insertion sort that models `sorted` returns a permutation that is ordered by the key. For every key value, the records with that key appear in their input order (stability). |
| StableSort.Insert | src/tools/flight_search_tool.py:181-183 | Inserting adds exactly the one element. |
| StableSort.InsertKeepsSorted | src/tools/flight_search_tool.py:181-183 | Inserting into a sorted sequence keeps it sorted. |
| StableSort.InsertWithKey | src/tools/flight_search_tool.py:181-183 | The inserted element goes in front of every element with the same key, and the relative order of the others is kept. |
| Weather.GetCoordinates | src/tools/weather_tool.py:77-78 | An entry is found exactly when the lower-cased, stripped name is a table key, and it is one of the table's entries. |
| Weather.CoordinatesIgnoreCaseAndSpace | src/tools/weather_tool.py:77 | Surrounding whitespace and upper-casing do not change the lookup. |
| Weather.BengaluruIsBangalore | src/tools/weather_tool.py:46-47 | "BENGALURU" with any padding finds the same entry as "Bangalore", at 12.9716, 77.5946. |
| Weather.CityKeys | src/tools/weather_tool.py:44-60 | The table has exactly the fifteen listed keys. |
| Weather.NamesAToH | src/tools/weather_tool.py:45-59 | The display names of the keys agra to hyderabad. |
| Weather.NamesJToV | src/tools/weather_tool.py:45-59 | The display names of the keys jaipur to varanasi. |
| Weather.TableNamesListed | src/tools/weather_tool.py:241 | Every entry's display name is among the listed available cities. |
| Weather.ListedNamesInTable | src/tools/weather_tool.py:241 | Every listed name is some entry's display name. |
| Weather.AvailableCitiesAreTableNames | src/tools/weather_tool.py:241 | The available-cities list holds exactly the set of display names. |
| Weather.AvailableCitiesSorted | src/tools/weather_tool.py:241 | The list is strictly ascending in Python's string order, so it is sorted and holds each name once ("Bangalore" once although two keys carry it). |
| Weather.InterpretWeatherCodeLabels | src/tools/weather_tool.py:90-113 | The label is "Unknown" exactly for the codes outside the 21 listed ones. A listed code gets its fixed label. |
| Weather.LabelKeys | src/tools/weather_tool.py:90-112 | The label table's keys are exactly the 21 listed codes. |
| Weather.NoLabelUnknown | src/tools/weather_tool.py:91-111 | No listed label is "Unknown". |
| Weather.ForecastDays | src/tools/weather_tool.py:144 | The days asked of the service never exceed 7. The value is the requested count, or 7 when more were asked. |
| Weather.DayBlock | src/tools/weather_tool.py:184-201 | A day's block is written exactly when its date exists and parses and its code and both temperatures exist. Short precipitation lists do not stop the block. |
| Weather.DayBlockTitle | src/tools/weather_tool.py:194 | The block for day i opens with "Day i+1 (". |
| Weather.DayBlockPrecipitation | src/tools/weather_tool.py:191-199 | The precipitation line is present exactly when rain > 0 or probability > 20. A missing value counts as 0. |
| Weather.DayBlocks | src/tools/weather_tool.py:184-201 | The blocks of days 0..n-1 exist exactly when every day's block does, and then there are n of them, each that day's block. |
| Weather.DayBlocksErrorSticks | src/tools/weather_tool.py:184-185 | Once a day raises, the later days do not change the outcome. |
| Weather.LoopCount | src/tools/weather_tool.py:184 | The loop runs min(days, len(dates)) times, and not at all for days <= 0. |
| Weather.PySlice | src/tools/weather_tool.py:204-205 | `xs[:n]` is a prefix of `xs`. It has min(n, len) elements for n >= 0; a negative n drops the last -n elements. |
| Weather.AverageScaled | src/tools/weather_tool.py:204-211 | For a positive day count in tenths, the average is above 30 or below 20 exactly when the summed highs exceed 300 * days or fall short of 200 * days. |
| Weather.TipsThresholds | src/tools/weather_tool.py:204-218 | The tips are the hot, cold or pleasant line by the strict 30 and 20 thresholds on the average, then the umbrella line exactly when one of the first `days` sums exceeds 5 mm. |
| Weather.AverageUsesRequestedDays | src/tools/weather_tool.py:204 | The average divides by the days asked for: seven highs of 35.0 asked as ten days average 24.5 and give the pleasant tip. |
| Weather.ReportHasOneBlockPerDay | src/tools/weather_tool.py:173-223 | A successful report is the header, then one block per day of min(days, len(dates)), each naming its day, then the tips. A zero-day request ends in "Error formatting weather data: division by zero". |
| Weather.FormatWeatherOutput | src/tools/weather_tool.py:173-223 | The appending loop produces exactly the report, including the error text when a day or the average raises. |
| Weather.LookupAsksAtMostSevenDays | src/tools/weather_tool.py:144-150 | Two fetches that agree on every request of at most 7 days give the same lookup answer. |
| Weather.LookupFailures | src/tools/weather_tool.py:240-253 | An unknown city gets the message listing the available cities. A failed fetch gets "Failed to fetch weather data for <name>". |
| Weather.WeatherTool.constructor | src/tools/weather_tool.py:62-65 | The service address is the Open-Meteo forecast URL. |
| Weather.WeatherTool.Run | src/tools/weather_tool.py:225-259 | The lookup answer for the city, the day count and the fetch. |
| TravelAgent.TryOllama | src/agent/travel_agent.py:86-121 | A model is found exactly when the server answers 200 with a non-empty model list whose first entry has a name and the client builds. It is that first model, at the agent's temperature. |
| TravelAgent.TryGemini | src/agent/travel_agent.py:123-151 | A model is found exactly when a non-empty API key is set and the client builds. It is gemini-1.5-flash with that key. |
| TravelAgent.AutoInitializeLlm | src/agent/travel_agent.py:61-84 | The provider is "ollama" exactly when Ollama yields a model. It is "gemini" exactly when Ollama does not and Gemini does. It is "demo" exactly when there is no model. |
| TravelAgent.EmptyOllamaFallsThrough | src/agent/travel_agent.py:98-101 | A server with no models gives the same choice as an unreachable one. |
| TravelAgent.NothingAvailableMeansDemo | src/agent/travel_agent.py:81-84 | No server and no key give (None, "demo"). |
| TravelAgent.CreateAgent | src/agent/travel_agent.py:183-246 | An executor exists exactly when a model does, with the five tools, 15 iterations and parsing errors handled. |
| TravelAgent.FlightSearchStub | src/agent/travel_agent.py:249-263 | The error status is returned exactly when the input does not parse. |
| TravelAgent.BudgetBreakdown | src/agent/travel_agent.py:304-313 | A breakdown exists exactly for a parsed object whose four fields, where present, are integers (fields of other JSON types are not modelled, see Left out). Its total is the sum of its three parts, and each part is price * nights with the defaults 4800, 3200, 3 and 800. |
| TravelAgent.BudgetDefaults | src/agent/travel_agent.py:308-313 | An empty object gives 4800 + 9600 + 2400 = 16800. |
| TravelAgent.BudgetIgnoresOtherKeys | src/agent/travel_agent.py:307-311 | Keys other than the four read make no difference. |
| TravelAgent.BudgetCalculator | src/agent/travel_agent.py:304-324 | The error status is returned exactly when no breakdown can be computed from integer fields; non-integer fields are not modelled (see Left out). |
| TravelAgent.BudgetRejectsNonObjects | src/agent/travel_agent.py:249-324 | Unparsable input gets the error status from both stubs. Parsed input that is not an object gets it from the calculator, while the flight stub still answers with its fixed flight. |
| TravelAgent.FalsyExtrasAreDropped | src/agent/travel_agent.py:352-355 | A zero budget and empty preferences leave the query as if none were given. |
| TravelAgent.GivenBudgetIsMentioned | src/agent/travel_agent.py:352-353 | A non-zero budget makes the query longer by exactly the length of its sentence " Budget: ₹<amount>.". |
| TravelAgent.DayActivity | src/agent/travel_agent.py:394-403 | Every day's theme is one of the five activities. |
| TravelAgent.ActivitiesRotate | src/agent/travel_agent.py:402-403 | Themes repeat every five days, and any five consecutive days see all five. |
| TravelAgent.DemoDayLineAt | src/agent/travel_agent.py:402-403 | The line of day i directly follows the lines of the days before it. |
| TravelAgent.LinesByPrefix | src/agent/travel_agent.py:402-403 | The same, for any line writer. |
| TravelAgent.DemoBudgetAddsUp | src/agent/travel_agent.py:405-411 | The budget line's amount reads back as 4800 + 3200 * days + 800 * days, which is 4800 + 4000 * days. |
| TravelAgent.TripDays | src/agent/travel_agent.py:375-377 | The day count exists exactly when both dates parse. It is the inclusive count (end - start).days + 1. |
| TravelAgent.TripDaysOfParsed | src/agent/travel_agent.py:345-347 | Parsed dates are valid and give that count. |
| TravelAgent.SampleTrip | src/agent/travel_agent.py:375-405 | 2024-03-01 to 2024-03-04 is 4 days, and the demo total for it is 20800. |
| TravelAgent.DemoPlan | src/agent/travel_agent.py:373-421 | The demo result is always status "success" with provider "demo". A date that does not parse escapes as the raised error. |
| TravelAgent.DemoPlanTrip | src/agent/travel_agent.py:373-421 | The day-by-day loop builds exactly the demo plan. |
| TravelAgent.PlanTripDispatch | src/agent/travel_agent.py:340-371 | The demo path never asks the agent. The agent path keeps the provider, succeeds exactly when the agent's run does, and carries the text of what the run raised. |
| TravelAgent.BadDatesRaise | src/agent/travel_agent.py:345-346 | A date that does not parse escapes plan_trip on both paths. |
| TravelAgent.HybridTravelAgent.constructor | src/agent/travel_agent.py:41-59 | The model and provider are the cascade's choice, the tools are the five named tools, and the executor is built from the model. |
| TravelAgent.HybridTravelAgent.PlanTrip | src/agent/travel_agent.py:326-371 | plan_trip's outcome for this agent's provider. |
| Formatters.CurrencyRoundTrip | src/utils/formatters.py:22-27 | For INR, USD and every other code, dropping the decoration and the commas recovers the amount. |
| Formatters.RupeeExamples | src/utils/formatters.py:23 | 4800 renders as "₹4,800" and 20800 as "₹20,800". |
| Formatters.MonthNumberOfAbbr | src/utils/formatters.py:44 | Each month's %b abbreviation reads back as its number. |
| Formatters.DateRangeRoundTrip | src/utils/formatters.py:41-44 | The range text determines both months, both zero-padded days and the end year. |
| Formatters.RangeFieldsAt | src/utils/formatters.py:44 | Each field of the fixed layout sits at its own place. |
| Formatters.DateRangeIgnoresStartYear | src/utils/formatters.py:44 | The start year is not shown. |
| Formatters.DateRangeErrors | src/utils/formatters.py:41-42 | The range fails exactly when a date does not parse. A bad start date is reported first. |
| Formatters.WeatherLines | src/utils/formatters.py:87-88 | One line per weather entry, in order. |
| Formatters.LinesOf | src/utils/formatters.py:87-88 | One line per element, in order. |
| Formatters.ActivitiesLines | src/utils/formatters.py:96-98 | Two lines per activity. |
| Formatters.DaysLines | src/utils/formatters.py:94-98 | A day takes one title line plus two lines per activity. |
| Formatters.DayLinesStep | src/utils/formatters.py:94-98 | The lines of the next day follow those of the days before it. |
| Formatters.FrontLines | src/utils/formatters.py:57-86 | Header, flight and hotel take 21 lines. Line 1 is the trip title with the destination upper-cased, and the section titles sit at 5, 12 and 19. |
| Formatters.DaysSection | src/utils/formatters.py:89-99 | The day-wise section has its title second and 4 framing lines. |
| Formatters.ItinerarySections | src/utils/formatters.py:57-113 | The text has 34 + w + d lines. Header, flight, hotel, weather, day-wise plan and budget titles stand at fixed positions in that order. |
| Formatters.ItineraryWeatherLines | src/utils/formatters.py:85-89 | Lines 21 .. 21+w are exactly the weather lines. |
| Formatters.TotalPrintedAsGiven | src/utils/formatters.py:110 | The line before last is "TOTAL COST:" and reads back as the budget's own total, not as a recomputed sum. |
| Formatters.AppendWeatherLines | src/utils/formatters.py:87-88 | The weather loop appends exactly the weather lines. |
| Formatters.AppendActivityLines | src/utils/formatters.py:96-98 | The inner loop appends exactly the activity lines. |
| Formatters.AppendDayLines | src/utils/formatters.py:94-98 | The outer loop appends exactly the day-wise lines. |
| Formatters.FormatItineraryText | src/utils/formatters.py:47-113 | Building the lines section by section and joining them with newlines gives the itinerary text. |
| DataFiles.ErrorMessagesDistinct | src/utils/data_loader.py:44-45 | The not-found message names the path and can never equal an invalid-JSON message. |
| DataFiles.JoinPathParts | src/utils/data_loader.py:42 | The joined path ends with the file name. An absolute name replaces the base; otherwise the base comes first, with one "/" added when it lacks one. |
| DataFiles.DefaultDataPaths | src/utils/data_loader.py:18 | "data/" and "data" both give "data/flights.json"-style paths. |
| DataFiles.FirstKey | src/utils/data_loader.py:56-58 | A found key is present and one of those searched. |
| DataFiles.FirstKeyIsFirst | src/utils/data_loader.py:56-58 | Nothing is found exactly when no searched key is present; otherwise no earlier key is present. |
| DataFiles.NormalizedShapes | src/utils/data_loader.py:52-61 | A list comes back unchanged. An object gives the value of the first of flights, hotels, places and data it has, or else is wrapped as [data]. Any other value gives []. |
| DataFiles.NormalizedListStays | src/utils/data_loader.py:52-53 | Normalising a list result again changes nothing. |
| DataFiles.NormalizeShape | src/utils/data_loader.py:52-61 | The key-search loop returns exactly the normalised value. |
| DataFiles.ReadFile | src/utils/data_loader.py:42-64 | Not-found exactly for a missing path, invalid JSON exactly for malformed contents, and otherwise the normalised data. |
| DataFiles.Remove | src/utils/data_loader.py:27 | Removing a name keeps every other name and drops that one. |
| DataFiles.RemoveAt | src/utils/data_loader.py:27 | In a repeat-free order, removing the name at position i closes the gap: the names before and after it keep their order. |
| DataFiles.RemoveKeepsDistinct | src/utils/data_loader.py:27 | The recency order stays free of repeats and shrinks by one exactly when the name was there. |
| DataFiles.TouchKeepsWellFormed | src/utils/data_loader.py:27 | A hit keeps the cache well formed. |
| DataFiles.AdmitKeepsWellFormed | src/utils/data_loader.py:27 | Admitting a new entry, evicting when full, keeps the cache well formed. |
| DataFiles.LoadKeepsWellFormed | src/utils/data_loader.py:27-28 | Every load keeps the cache well formed: at most ten entries, each listed once in recency order. |
| DataFiles.LoadHit | src/utils/data_loader.py:27-28 | A cached name is answered from the cache, whatever the files now hold, and the cached values do not change. The hit name moves from its position to the most recent end, and every other name keeps its place in the recency order. |
| DataFiles.LoadMiss | src/utils/data_loader.py:27-64 | An uncached name reads the file. A failure is not cached; a success is cached as the newest entry. |
| DataFiles.LoadEvictsLeastRecent | src/utils/data_loader.py:27 | Loading into a full cache evicts the least recently used name, keeps ten entries and keeps all the others. |
| DataFiles.DistinctCardinality | src/utils/data_loader.py:27 | A repeat-free order has as many names as entries. |
| DataFiles.RepeatedLoadHits | src/utils/data_loader.py:27-28 | After a successful load, loading the same name again gives the same data, whatever the files hold by then. |
| DataFiles.ClearedCacheReads | src/utils/data_loader.py:78-80 | With the cache cleared, a load reads its file afresh. |
| DataFiles.DataLoader.constructor | src/utils/data_loader.py:18-25 | A new loader keeps its base path and starts with an empty cache. |
| DataFiles.DataLoader.LoadJson | src/utils/data_loader.py:27-64 | The result and the new cache state are one load step from the old state, on the joined path. |
| DataFiles.DataLoader.LoadFlights | src/utils/data_loader.py:66-68 | A load of "flights.json". |
| DataFiles.DataLoader.LoadHotels | src/utils/data_loader.py:70-72 | A load of "hotels.json". |
| DataFiles.DataLoader.LoadPlaces | src/utils/data_loader.py:74-76 | A load of "places.json". |
| DataFiles.DataLoader.ClearCache | src/utils/data_loader.py:78-80 | The cache is empty afterwards. |
| DataFiles.LoadTwice | src/utils/data_loader.py:27-28 | The second of two loads of one name returns the first's successful result even though the files changed. |
| DataFiles.LoadAfterClear | src/utils/data_loader.py:78-80 | After clear_cache a load reads the current files. |
| Text.TrimLowerSurrounded | src/tools/flight_search_tool.py:144-145 | Lower-casing and stripping ignore surrounding whitespace. |
| Text.ToLowerOfToUpper | src/tools/weather_tool.py:77 | Lower-casing forgets an upper-casing and is idempotent. |
| Text.IntToStringRoundTrip | src/tools/flight_search_tool.py:167 | `int(str(i)) == i`. |
| Text.FixedDigitsValue | src/utils/formatters.py:44 | A zero-padded number reads back as itself. |
| Text.GroupedRoundTrip | src/utils/formatters.py:23 | Removing the commas of `{:,}` grouping recovers the integer. |
| Text.GroupedUngroups | src/agent/travel_agent.py:409 | `{:,}` is `str()` with commas added. |
| Calendar.ParseIsoDate | src/agent/travel_agent.py:345-346 | A date is parsed exactly for the YYYY-MM-DD shape with a valid year, month and day, and is then valid. |
| Calendar.IsoRoundTrip | src/agent/travel_agent.py:345-346 | Every valid date prints and parses back to itself. |
| Calendar.NextDayOrdinal | src/agent/travel_agent.py:347 | The next day is valid and its day number is one more. |
| Calendar.InclusiveDaysCounts | src/agent/travel_agent.py:347 | A one-day trip counts 1, and each extra day counts one more. |
| Calendar.NextDayWeekday | src/tools/weather_tool.py:186 | Weekdays advance by one each day. |
| Calendar.DemoTripDates | src/agent/travel_agent.py:375-377 | 2024-03-01 is a Friday and the trip to 2024-03-04 counts 4 days. |
| Calendar.FirstOfMarch2024 | src/agent/travel_agent.py:375 | "2024-03-01" parses as 1 March 2024. |
| Calendar.FourthOfMarch2024 | src/agent/travel_agent.py:376 | "2024-03-04" parses as 4 March 2024. |

## Left out

- Network, file and process I/O are not modelled:
  - the Ollama probe and the Open-Meteo request are inputs (`Environment`, the `fetch` function);
  - the file system is a map from path to decoded contents;
  - `json.load` and `json.loads` are not modelled: their results are given as `Json` values.
- The LLM and LangChain (prompt templates, hub pulls, the agent's reasoning) are not modelled. The agent's run is an abstract function returning the output or the text of what it raised.
- The hotel, weather and places tool stubs of the agent are not modelled. They return fixed JSON and read nothing.
- `app.py`, `src/config.py`, `create_streamlit_agent`, `main` and every `print` diagnostic are not part of this model.
- Floating point: temperatures, precipitation and ratings are integer tenths. `format_currency` takes integer amounts, so the `.0f`/`.2f` rounding of fractional amounts is not modelled. `_budget_calculator` fields given as floats, booleans, strings or lists stop the calculation in the model. In the source some of these still give a breakdown, and the model gives the error status for all of them:
  - bool and float arithmetic;
  - Python's sequence `+` and `*` on strings and lists, e.g. `{"flight_price": [1], "hotel_price": [2], "daily_expense": [3]}` gives a list-valued total.
- `strptime` is modelled for the zero-padded `YYYY-MM-DD` form only. The one-digit months and days it also accepts, and the wording of its error messages, are not modelled. `fromisoformat` in the weather report is modelled the same way; its other accepted forms are not.
- Formatters.FormatDateRange / RangeText: the year of `'%b %d, %Y'` is rendered unpadded (`str(year)`), as glibc's `strftime` prints it. Other platforms and newer CPython releases print years below 1000 with four digits ("0005"); that form is not modelled.
- Formatters.CurrencyRoundTrip / FormatCurrency: Python converts the amount to a float before applying `,.0f`/`,.2f`. The model prints the integer exactly. The two agree only for amounts with |amount| <= 2^53: above that Python prints the nearest double (`format_currency(2**53 + 1)` gives "₹9,007,199,254,740,992"), and an integer beyond the double range raises `OverflowError`. So the round trip holds for the source only up to 2^53. Negative amounts are grouped as Python does (`-1,234`); fractional amounts are not modelled.
- FlightSearch.Flight: the source reads every field with `.get`. The model makes `flight_id`, `airline`, `source`, `destination`, `departure_time`, `arrival_time` and `available_seats` mandatory. So it does not model a record without one of them, which prints "None" or, for a missing source or destination, is filtered as ''. Only `price` and `duration_minutes` may be absent, and `None` there means an absent key with the 999999/999 sort defaults. A JSON `null` or a non-integer value in those two fields is not modelled: in the source it makes `sorted` or `_format_duration` raise `TypeError`.
- DataFiles.DataLoader: Python's `lru_cache` on a method is one cache shared by all instances, keyed on `(self, filename)`, and `cache_clear` empties it for every instance. The model keeps one cache per loader keyed on the file name: the same behaviour for a single loader, but clearing one loader does not clear another's entries.
- DataFiles.DataLoader.LoadJson: a cached list is returned as a value. The aliasing that lets a caller mutate the cached list is not modelled.
- DataFiles.ReadFile: `UnicodeDecodeError`, a path that is a directory, and permission errors are not modelled; only missing files and malformed JSON are.
- TravelAgent.TryOllama: a first model without a `name` key raises `KeyError`, which `_try_ollama` catches, so no model is chosen. The model states this outcome but not the exception's text.
- Weather.WeatherLookup: an empty JSON response counts as a failed fetch, as `if not weather_data` treats it. The fallback "Error in weather lookup" message is not modelled, because nothing the model's `_run` does can raise.
- Formatters.Itinerary: the itinerary record is assumed to have every key `format_itinerary_text` reads, so the `KeyError` paths are not modelled.
- TravelAgent.GivenBudgetIsMentioned: states the length the budget sentence adds, not its position in the query.
- Calendar weekday and month names are ASCII tables. `str.lower`/`upper` are modelled for ASCII letters only; other characters are left unchanged.
