/**
 * The hybrid travel agent: the choice of language model (a local Ollama
 * server, then Google Gemini, then the rule-based demo mode), the
 * budget-calculator and flight-search tool stubs, the trip query, the demo
 * itinerary and `plan_trip`'s dispatch and error mapping.
 *
 * What the environment answers (the Ollama probe, the API key, whether a
 * client library imports and its client builds) is an input, and the
 * agent's run is an abstract function that returns the output text or the
 * text of the exception it raises.
 */
module TravelAgent {
  import opened Wrappers
  import opened Text
  import opened Calendar
  import opened JsonData

  // ---------------------------------------------------------------------
  // Choosing the model

  /**
   * The answer to `GET http://localhost:11434/api/tags`: no answer at all,
   * or a status code with the listed models, each with its `name` if it has one.
   */
  datatype OllamaProbe = Unreachable | Responded(status: int, models: seq<Option<string>>)

  /** What the machine offers when the agent starts. */
  datatype Environment = Environment(
    ollama: OllamaProbe,
    ollamaClientBuilds: bool,
    googleApiKey: Option<string>,
    geminiClientBuilds: bool)

  datatype Llm =
    | OllamaLlm(model: string, temperature: real)
    | GeminiLlm(model: string, apiKey: string, temperature: real)

  /** `_try_ollama`: the first listed model of a server that answers 200 with at least one model. */
  function TryOllama(env: Environment, temperature: real): (r: Option<Llm>)
    ensures r.Some? <==> (env.ollama.Responded? && env.ollama.status == 200 && |env.ollama.models| > 0
                          && env.ollama.models[0].Some? && env.ollamaClientBuilds)
    ensures r.Some? ==> r.value == OllamaLlm(env.ollama.models[0].value, temperature)
  {
    match env.ollama
    case Unreachable => None
    case Responded(status, models) =>
      if status != 200 then None
      else if !env.ollamaClientBuilds then None
      else if models == [] then None
      else if models[0].None? then None
      else Some(OllamaLlm(models[0].value, temperature))
  }

  /** `_try_gemini`: `gemini-1.5-flash` when a non-empty API key is set and the client builds. */
  function TryGemini(env: Environment, temperature: real): (r: Option<Llm>)
    ensures r.Some? <==> env.googleApiKey.Some? && env.googleApiKey.value != "" && env.geminiClientBuilds
    ensures r.Some? ==> r.value == GeminiLlm("gemini-1.5-flash", env.googleApiKey.value, temperature)
  {
    match env.googleApiKey
    case None => None
    case Some(key) =>
      if key == "" then None
      else if !env.geminiClientBuilds then None
      else Some(GeminiLlm("gemini-1.5-flash", key, temperature))
  }

  /** The chosen model, if any, and the provider's name. */
  datatype Selection = Selection(llm: Option<Llm>, provider: string)

  /** `_auto_initialize_llm`: Ollama first, then Gemini, then demo mode without a model. */
  function AutoInitializeLlm(env: Environment, temperature: real): (r: Selection)
    ensures r.provider == "ollama" <==> TryOllama(env, temperature).Some?
    ensures r.provider == "gemini" <==> TryOllama(env, temperature).None? && TryGemini(env, temperature).Some?
    ensures r.provider == "demo" <==> r.llm.None?
    ensures r.provider in {"ollama", "gemini", "demo"}
    ensures r.llm.Some? ==> r.llm.value.OllamaLlm? == (r.provider == "ollama")
  {
    match TryOllama(env, temperature)
    case Some(llm) => Selection(Some(llm), "ollama")
    case None =>
      match TryGemini(env, temperature)
      case Some(llm) => Selection(Some(llm), "gemini")
      case None => Selection(None, "demo")
  }

  /** A running Ollama server with no models does not stop the search: Gemini or demo mode follows. */
  lemma EmptyOllamaFallsThrough(env: Environment, temperature: real)
    requires env.ollama.Responded? && env.ollama.models == []
    ensures AutoInitializeLlm(env, temperature) ==
      if TryGemini(env, temperature).Some? then Selection(TryGemini(env, temperature), "gemini") else Selection(None, "demo")
  {
  }

  /** Without a reachable server and without an API key the agent runs in demo mode. */
  lemma NothingAvailableMeansDemo(env: Environment, temperature: real)
    requires env.ollama.Unreachable? && (env.googleApiKey.None? || env.googleApiKey == Some(""))
    ensures AutoInitializeLlm(env, temperature) == Selection(None, "demo")
  {
  }

  // ---------------------------------------------------------------------
  // Tools and the agent executor

  const ToolNames: seq<string> := ["flight_search", "hotel_search", "weather_lookup", "places_search", "budget_calculator"]

  /** The settings the agent executor is built with; its prompt and reasoning are not modelled. */
  datatype AgentExecutor = AgentExecutor(tools: seq<string>, maxIterations: int, handleParsingErrors: bool)

  /** `_create_agent`: an executor exactly when a model was found. */
  function CreateAgent(llm: Option<Llm>): (r: Option<AgentExecutor>)
    ensures r.Some? <==> llm.Some?
    ensures r.Some? ==> r.value.tools == ToolNames && r.value.maxIterations == 15 && r.value.handleParsingErrors
  {
    if llm.None? then None else Some(AgentExecutor(ToolNames, 15, true))
  }

  /** The `json.dumps` text of `{"status": "error"}`. */
  const StatusError := "{\"status\": \"error\"}"

  /** The `json.dumps` text of the fixed flight the `_flight_search` stub reports. */
  const StubFlights :=
    "{\"status\": \"success\", \"flights\": [{\"airline\": \"IndiGo\", \"price\": 4800, \"departure\": \"14:00\", \"duration\": \"2h 30m\"}]}"

  /** `_flight_search`, given what `json.loads` made of its input (`None` when it raised). */
  function FlightSearchStub(params: Option<Json>): (r: string)
    ensures r == StatusError <==> params.None?
  {
    if params.None? then StatusError else StubFlights
  }

  datatype Breakdown = Breakdown(flight: int, hotel: int, daily: int, total: int)

  /** `params.get(key, default)` when the value is an integer; anything else stops the calculation. */
  function IntField(fields: map<string, Json>, key: string, default: int): Option<int> {
    if key !in fields then Some(default)
    else if fields[key].JInt? then Some(fields[key].i)
    else None
  }

  /** `_budget_calculator`'s arithmetic over the parsed input, with defaults 4800, 3200, 3 nights and 800. */
  function BudgetBreakdown(params: Option<Json>): (r: Option<Breakdown>)
    ensures r.Some? <==> (params.Some? && params.value.JObj?
                          && IntField(params.value.fields, "flight_price", 4800).Some?
                          && IntField(params.value.fields, "hotel_price", 3200).Some?
                          && IntField(params.value.fields, "nights", 3).Some?
                          && IntField(params.value.fields, "daily_expense", 800).Some?)
    ensures r.Some? ==> r.value.total == r.value.flight + r.value.hotel + r.value.daily
    ensures r.Some? ==>
      var m := params.value.fields;
      var nights := IntField(m, "nights", 3).value;
      r.value.flight == IntField(m, "flight_price", 4800).value
      && r.value.hotel == IntField(m, "hotel_price", 3200).value * nights
      && r.value.daily == IntField(m, "daily_expense", 800).value * nights
  {
    match params
    case None => None
    case Some(j) =>
      if !j.JObj? then None
      else
        var m := j.fields;
        match (IntField(m, "flight_price", 4800), IntField(m, "hotel_price", 3200),
               IntField(m, "nights", 3), IntField(m, "daily_expense", 800))
        case (Some(flight), Some(hotel), Some(nights), Some(daily)) =>
          Some(Breakdown(flight, hotel * nights, daily * nights, flight + hotel * nights + daily * nights))
        case _ => None
  }

  /** An empty object takes every default: 4800 + 3200 * 3 + 800 * 3 = 16800. */
  lemma BudgetDefaults()
    ensures BudgetBreakdown(Some(JObj(map[]))) == Some(Breakdown(4800, 9600, 2400, 16800))
  {
  }

  /** Keys other than the four the calculator reads make no difference. */
  lemma BudgetIgnoresOtherKeys(m: map<string, Json>)
    ensures var keys := {"flight_price", "hotel_price", "nights", "daily_expense"};
      BudgetBreakdown(Some(JObj(m))) == BudgetBreakdown(Some(JObj(map k | k in m && k in keys :: m[k])))
  {
  }

  /** The `json.dumps` text of the breakdown object. */
  function BreakdownJson(b: Breakdown): string {
    "{\"breakdown\": {\"flight\": " + IntToString(b.flight) + ", \"hotel\": " + IntToString(b.hotel)
    + ", \"daily\": " + IntToString(b.daily) + ", \"total\": " + IntToString(b.total) + "}}"
  }

  /** `_budget_calculator`: the breakdown's JSON text, or the error status. */
  function BudgetCalculator(params: Option<Json>): (r: string)
    ensures r == StatusError <==> BudgetBreakdown(params).None?
  {
    match BudgetBreakdown(params)
    case None => StatusError
    case Some(b) => BreakdownJson(b)
  }

  /** Input that does not parse as JSON, or parses to something other than an object, gets the error status. */
  lemma BudgetRejectsNonObjects(params: Option<Json>)
    requires params.None? || !params.value.JObj?
    ensures BudgetCalculator(params) == StatusError && FlightSearchStub(params) == (if params.None? then StatusError else StubFlights)
  {
  }

  // ---------------------------------------------------------------------
  // The trip query

  predicate BudgetGiven(budget: Option<int>) {
    budget.Some? && budget.value != 0
  }

  predicate PreferencesGiven(preferences: Option<string>) {
    preferences.Some? && preferences.value != ""
  }

  /** The question put to the agent; a budget or preferences that Python finds falsy is left out. */
  function TripQuery(days: int, source: string, destination: string, startDate: string, endDate: string,
                     budget: Option<int>, preferences: Option<string>): string
  {
    "Plan a " + IntToString(days) + "-day trip from " + source + " to " + destination + " \nfrom "
    + startDate + " to " + endDate + "."
    + (if BudgetGiven(budget) then " Budget: \U{20B9}" + IntToString(budget.value) + "." else "")
    + (if PreferencesGiven(preferences) then " Preferences: " + preferences.value + "." else "")
    + QueryClosing
  }

  const QueryClosing := " Provide complete itinerary with flights, hotels, weather, activities, and budget."

  /** A zero budget is the same as none, and so is an empty preference text. */
  lemma FalsyExtrasAreDropped(days: int, source: string, destination: string, startDate: string, endDate: string,
                              budget: Option<int>, preferences: Option<string>)
    requires !BudgetGiven(budget) && !PreferencesGiven(preferences)
    ensures TripQuery(days, source, destination, startDate, endDate, budget, preferences)
         == TripQuery(days, source, destination, startDate, endDate, None, None)
  {
  }

  /** A budget that is given lengthens the query by exactly its sentence. */
  lemma GivenBudgetIsMentioned(days: int, source: string, destination: string, startDate: string, endDate: string,
                               budget: int, preferences: Option<string>)
    requires budget != 0
    ensures |TripQuery(days, source, destination, startDate, endDate, Some(budget), preferences)|
         == |TripQuery(days, source, destination, startDate, endDate, None, preferences)| + |" Budget: \U{20B9}" + IntToString(budget) + "."|
  {
  }

  // ---------------------------------------------------------------------
  // The demo plan

  const Activities: seq<string> := [
    "Beach relaxation & water sports",
    "Heritage sites & local culture",
    "Shopping & cuisine exploration",
    "Adventure activities",
    "Scenic tours & photography"
  ]

  /** The activity of day `i` (0-based): the five themes in rotation. */
  function DayActivity(i: nat): (a: string)
    ensures a in Activities
  {
    Activities[i % |Activities|]
  }

  /** Every fifth day repeats the theme, and five days in a row see all five themes. */
  lemma ActivitiesRotate(i: nat)
    ensures DayActivity(i + 5) == DayActivity(i)
    ensures forall a :: a in Activities ==> exists k :: i <= k < i + 5 && DayActivity(k) == a
  {
    forall a | a in Activities
      ensures exists k :: i <= k < i + 5 && DayActivity(k) == a
    {
      var j :| 0 <= j < 5 && Activities[j] == a;
      var k := i + (j - i % 5 + 5) % 5;
      assert k % 5 == j;
      assert DayActivity(k) == a;
    }
  }

  function DemoDayLine(i: nat): string {
    "\n   Day " + IntToString(i + 1) + ": " + DayActivity(i)
  }

  /** The lines of days 0 .. n-1. */
  function DemoDayLines(n: nat): string {
    LinesBy(n, DemoDayLine)
  }

  /** The lines `line(0) .. line(n-1)`, one after the other. */
  function LinesBy(n: nat, line: nat -> string): string {
    if n == 0 then "" else LinesBy(n - 1, line) + line(n - 1)
  }

  /** `total = 4800 + 3200 * days + 800 * days`. */
  function DemoTotal(days: int): int {
    4800 + 3200 * days + 800 * days
  }

  function Rule(): string {
    Repeat("=", 60)
  }

  function DemoHead(source: string, destination: string, days: int): string {
    "\n\U{1F30D} YOUR " + IntToString(days) + "-DAY TRIP TO " + ToUpper(destination) + "\n"
    + Rule() + "\n\n"
    + DemoFlightLine
    + "    " + source + " \U{2192} " + destination + " | 2h 30m\n\n"
    + DemoHotelLines
    + DemoWeatherLine
    + "\U{1F4C5} ITINERARY:\n"
  }

  /** The fixed lines of the demo itinerary. */
  const DemoFlightLine := "\U{2708}\U{FE0F}  FLIGHT: IndiGo - \U{20B9}4,800\n"
  const DemoHotelLines := "\U{1F3E8} HOTEL: Sea View Resort - \U{20B9}3,200/night\n    Rating: 4.5/5 | Beach access, Pool, WiFi\n\n"
  const DemoFlightCost := "    Flight: \U{20B9}4,800\n"
  const DemoWeatherLine := "\U{1F324}\U{FE0F}  WEATHER: Sunny, 28-32\U{B0}C throughout trip\n\n"

  function BudgetLine(days: int): string {
    "\U{1F4B0} BUDGET: \U{20B9}" + Grouped(DemoTotal(days)) + "\n"
  }

  function DemoTail(days: int): string {
    "\n\n" + BudgetLine(days)
    + DemoFlightCost
    + "    Hotel: \U{20B9}" + Grouped(3200 * days) + "\n"
    + "    Food/Activities: \U{20B9}" + Grouped(800 * days) + "\n\n"
    + Rule() + "\n"
  }

  /** The demo itinerary text for a trip of `days` days. */
  function DemoItinerary(source: string, destination: string, days: int): string {
    DemoHead(source, destination, days) + DemoDayLines(if days > 0 then days else 0) + DemoTail(days)
  }

  /** The budget line's amount reads back as flight + hotel + food, i.e. 4800 + 4000 per day. */
  lemma DemoBudgetAddsUp(days: int)
    ensures ParseGrouped(Grouped(DemoTotal(days))) == Some(4800 + 3200 * days + 800 * days)
    ensures DemoTotal(days) == 4800 + 4000 * days
  {
    GroupedRoundTrip(DemoTotal(days));
  }

  /** Day `i`'s line follows the lines of the days before it, for every day `i` of the trip. */
  lemma DemoDayLineAt(i: nat, n: nat)
    requires i < n
    ensures StartsWith(DemoDayLines(n), DemoDayLines(i) + DemoDayLine(i))
  {
    LinesByPrefix(i, n, DemoDayLine);
  }

  lemma {:induction false} LinesByPrefix(i: nat, n: nat, line: nat -> string)
    requires i < n
    ensures StartsWith(LinesBy(n, line), LinesBy(i, line) + line(i))
    decreases n
  {
    var p := LinesBy(i, line) + line(i);
    if i < n - 1 {
      LinesByPrefix(i, n - 1, line);
      var prev := LinesBy(n - 1, line);
      assert LinesBy(n, line) == prev + line(n - 1);
      assert (prev + line(n - 1))[..|p|] == prev[..|p|];
    } else {
      assert LinesBy(n, line)[..|p|] == p;
    }
  }

  /** The demo's trip result. */
  datatype TripPlan =
    | Success(provider: string, itinerary: string)
    | Failure(provider: string, message: string)
  {
    function Status(): string {
      if Success? then "success" else "error"
    }
  }

  /** What `plan_trip` does: return a result, or let a date error escape. */
  datatype PlanOutcome = Returned(plan: TripPlan) | Raised(error: DateError)

  /** `(end - start).days + 1` from two `YYYY-MM-DD` texts; the first bad date raises. */
  function TripDays(startDate: string, endDate: string): (r: Result<int, DateError>)
    ensures r.Ok? <==> ParseIsoDate(startDate).Ok? && ParseIsoDate(endDate).Ok?
    ensures r.Ok? ==> r.value == InclusiveDays(ParseIsoDate(startDate).value, ParseIsoDate(endDate).value)
  {
    match ParseIsoDate(startDate)
    case Err(e) => Err(e)
    case Ok(start) =>
      match ParseIsoDate(endDate)
      case Err(e) => Err(e)
      case Ok(end) => Ok(InclusiveDays(start, end))
  }

  /** `_demo_plan_trip`. */
  function DemoPlan(source: string, destination: string, startDate: string, endDate: string): (r: PlanOutcome)
    ensures r.Returned? ==> r.plan.Status() == "success" && r.plan.provider == "demo"
    ensures r.Raised? <==> TripDays(startDate, endDate).Err?
  {
    match TripDays(startDate, endDate)
    case Err(e) => Raised(e)
    case Ok(days) => Returned(Success("demo", DemoItinerary(source, destination, days)))
  }

  /** Builds the demo itinerary as `_demo_plan_trip` does, one day line per loop step. */
  method DemoPlanTrip(source: string, destination: string, startDate: string, endDate: string) returns (r: PlanOutcome)
    ensures r == DemoPlan(source, destination, startDate, endDate)
  {
    var dayCount := TripDays(startDate, endDate);
    if dayCount.Err? {
      return Raised(dayCount.error);
    }
    var days := dayCount.value;
    var head := DemoHead(source, destination, days);
    var itinerary := head;
    var i := 0;
    while i < days
      invariant 0 <= i <= (if days > 0 then days else 0)
      invariant itinerary == head + DemoDayLines(i)
    {
      AppendAssoc(head, DemoDayLines(i), DemoDayLine(i));
      itinerary := itinerary + DemoDayLine(i);
      i := i + 1;
    }
    assert i == (if days > 0 then days else 0);
    itinerary := itinerary + DemoTail(days);
    r := Returned(Success("demo", itinerary));
  }

  /** The sample trip from 1 to 4 March 2024 lasts four days and costs 20800. */
  lemma SampleTrip()
    ensures TripDays("2024-03-01", "2024-03-04") == Ok(4)
    ensures DemoTotal(4) == 20800
  {
    FirstOfMarch2024();
    FourthOfMarch2024();
    DemoTripDates();
    TripDaysOfParsed("2024-03-01", "2024-03-04", Date(2024, 3, 1), Date(2024, 3, 4));
  }

  lemma TripDaysOfParsed(startDate: string, endDate: string, start: Date, end: Date)
    requires ParseIsoDate(startDate) == Ok(start) && ParseIsoDate(endDate) == Ok(end)
    ensures ValidDate(start) && ValidDate(end)
    ensures TripDays(startDate, endDate) == Ok(InclusiveDays(start, end))
  {
  }

  // ---------------------------------------------------------------------
  // Planning

  /**
   * `plan_trip` for an agent whose provider is `provider`, with the agent's
   * run as `invoke(query)`: the output text, or the text of what it raised.
   */
  function PlanTripResult(provider: string, source: string, destination: string, startDate: string, endDate: string,
                          budget: Option<int>, preferences: Option<string>, invoke: string -> Result<string, string>): PlanOutcome
  {
    if provider == "demo" then DemoPlan(source, destination, startDate, endDate)
    else
      match TripDays(startDate, endDate)
      case Err(e) => Raised(e)
      case Ok(days) =>
        match invoke(TripQuery(days, source, destination, startDate, endDate, budget, preferences))
        case Ok(output) => Returned(Success(provider, output))
        case Err(message) => Returned(Failure(provider, message))
  }

  /**
   * The demo path never asks the agent; the agent path keeps the provider,
   * succeeds exactly when the agent does, and reports what it raised.
   */
  lemma PlanTripDispatch(provider: string, source: string, destination: string, startDate: string, endDate: string,
                         budget: Option<int>, preferences: Option<string>,
                         invoke: string -> Result<string, string>, other: string -> Result<string, string>)
    requires TripDays(startDate, endDate).Ok?
    ensures var r := PlanTripResult(provider, source, destination, startDate, endDate, budget, preferences, invoke);
      r.Returned?
      && (provider == "demo" ==>
            (r == PlanTripResult(provider, source, destination, startDate, endDate, budget, preferences, other)
             && r.plan.Status() == "success" && r.plan.provider == "demo"))
      && (provider != "demo" ==>
            var q := TripQuery(TripDays(startDate, endDate).value, source, destination, startDate, endDate, budget, preferences);
            r.plan.provider == provider
            && (r.plan.Status() == "success" <==> invoke(q).Ok?)
            && (invoke(q).Err? ==> r.plan == Failure(provider, invoke(q).error)))
  {
  }

  /** Bad dates escape `plan_trip` on both paths. */
  lemma BadDatesRaise(provider: string, source: string, destination: string, startDate: string, endDate: string,
                      budget: Option<int>, preferences: Option<string>, invoke: string -> Result<string, string>)
    requires TripDays(startDate, endDate).Err?
    ensures PlanTripResult(provider, source, destination, startDate, endDate, budget, preferences, invoke)
         == Raised(TripDays(startDate, endDate).error)
  {
  }

  /** The agent object: the model, provider, tools and executor are fixed when it is built. */
  class HybridTravelAgent {
    const verbose: bool
    const temperature: real
    const llm: Option<Llm>
    const provider: string
    const tools: seq<string>
    const agent: Option<AgentExecutor>

    predicate Valid() {
      provider in {"ollama", "gemini", "demo"}
      && (provider == "demo" <==> llm.None?)
      && (agent.Some? <==> llm.Some?)
      && tools == ToolNames
    }

    constructor (env: Environment, temperature: real, verbose: bool)
      ensures Valid()
      ensures this.temperature == temperature && this.verbose == verbose
      ensures Selection(llm, provider) == AutoInitializeLlm(env, temperature)
      ensures agent == CreateAgent(llm)
    {
      this.verbose := verbose;
      this.temperature := temperature;
      var selection := AutoInitializeLlm(env, temperature);
      this.llm := selection.llm;
      this.provider := selection.provider;
      this.tools := ToolNames;
      this.agent := CreateAgent(selection.llm);
    }

    /** `plan_trip`. */
    method PlanTrip(source: string, destination: string, startDate: string, endDate: string,
                    budget: Option<int>, preferences: Option<string>, invoke: string -> Result<string, string>)
      returns (r: PlanOutcome)
      ensures r == PlanTripResult(provider, source, destination, startDate, endDate, budget, preferences, invoke)
    {
      if provider == "demo" {
        r := DemoPlanTrip(source, destination, startDate, endDate);
        return;
      }
      var dayCount := TripDays(startDate, endDate);
      if dayCount.Err? {
        return Raised(dayCount.error);
      }
      var query := TripQuery(dayCount.value, source, destination, startDate, endDate, budget, preferences);
      match invoke(query) {
        case Ok(output) => r := Returned(Success(provider, output));
        case Err(message) => r := Returned(Failure(provider, message));
      }
    }
  }
}
