/** The mock tool registry shared by both agents: six city lookups over closed tables
    keyed by the lowercased city name, and `executeTool`, which resolves a tool name
    against the registry and turns every failure into an error string. */
module Tools {

  import opened Options
  import opened JsText

  /** What a tool returns: a string, or an array of strings. */
  datatype ToolResult = Text(text: string) | List(items: seq<string>)

  /** The string a template literal `${result}` makes of a tool result: an array is
      converted by `Array.prototype.toString`, which joins with a bare comma. */
  function Render(r: ToolResult): (s: string)
    ensures r.Text? ==> s == r.text
    ensures NonEmpty(r) ==> s != []
    // the items come back from a split at the commas unless an item holds a comma itself
    ensures r.List? && r.items != [] && (forall k :: 0 <= k < |r.items| ==> ',' !in r.items[k])
            ==> Split(s, ',') == r.items
  {
    match r
    case Text(s) => s
    case List(items) =>
      if items != [] && forall k :: 0 <= k < |items| ==> ',' !in items[k] then
        SplitJoin(items, ',');
        Join(items, ",")
      else Join(items, ",")
  }

  /** The user sees something: a non-empty string, or a non-empty array of non-empty strings. */
  predicate NonEmpty(r: ToolResult) {
    match r
    case Text(s) => s != []
    case List(items) => items != [] && forall k :: 0 <= k < |items| ==> items[k] != []
  }

  /** The six registered tools. */
  datatype Tool =
    | WeatherDetails
    | FamousFood
    | FamousPlaces
    | WeatherForecast
    | FamousDestinations
    | BestTimeToVisit

  /** The key each tool is registered under in `availableTools`. */
  function ToolName(t: Tool): string {
    match t
    case WeatherDetails => "getWeatherDetails"
    case FamousFood => "getFamousFood"
    case FamousPlaces => "getFamousPlaces"
    case WeatherForecast => "getWeatherForecast"
    case FamousDestinations => "getFamousDestinations"
    case BestTimeToVisit => "getBestTimeToVisit"
  }

  /** `availableTools[name]`, with the registry closed to its six own entries. */
  function ToolByName(name: string): (r: Option<Tool>)
    ensures r.Some? ==> ToolName(r.value) == name
  {
    if name == "getWeatherDetails" then Some(WeatherDetails)
    else if name == "getFamousFood" then Some(FamousFood)
    else if name == "getFamousPlaces" then Some(FamousPlaces)
    else if name == "getWeatherForecast" then Some(WeatherForecast)
    else if name == "getFamousDestinations" then Some(FamousDestinations)
    else if name == "getBestTimeToVisit" then Some(BestTimeToVisit)
    else None
  }

  /** Every tool is found under its own name, so the registry resolves exactly the six names. */
  lemma ToolByNameRoundTrip(t: Tool)
    ensures ToolByName(ToolName(t)) == Some(t)
  {
  }

  /** The names the registry resolves. */
  lemma RegisteredNames(name: string)
    ensures ToolByName(name).Some? <==> name in {"getWeatherDetails", "getFamousFood", "getFamousPlaces",
                                                "getWeatherForecast", "getFamousDestinations", "getBestTimeToVisit"}
  {
  }

  /** The three cities every table knows besides its `'default'` entry. */
  const Cities: set<string> := {"delhi", "mumbai", "bangalore"}

  /** The own keys of every table. */
  const TableKeys: set<string> := Cities + {"default"}

  /** The shape every table has: the three cities and `'default'`, nothing else. */
  ghost predicate WellFormedTable<V>(table: map<string, V>) {
    table.Keys == TableKeys
  }

  /** The three cities, as the rows of a table. */
  datatype City = Delhi | Mumbai | Bangalore

  /** The city a key names; any other key, `'default'` among them, names none. */
  function CityOf(key: string): Option<City> {
    if key == "delhi" then Some(Delhi)
    else if key == "mumbai" then Some(Mumbai)
    else if key == "bangalore" then Some(Bangalore)
    else None
  }

  /** Exactly the three city keys name a city. */
  lemma CityOfNamesCities(key: string)
    ensures CityOf(key).Some? <==> key in Cities
  {
  }

  /** The key a city is listed under: lowercase, so the lookup finds it as it is. */
  function Key(c: City): (k: string)
    ensures CityOf(k) == Some(c)
    ensures Lower(k) == k
  {
    match c
    case Delhi => LowerOfLowercase("delhi"); "delhi"
    case Mumbai => LowerOfLowercase("mumbai"); "mumbai"
    case Bangalore => LowerOfLowercase("bangalore"); "bangalore"
  }

  /** A table as the object literal it is written as: its own keys, each with the entry
      of the city it names, `'default'` with the entry for no city. */
  function TableOf<V>(entry: Option<City> -> V): (table: map<string, V>)
    ensures WellFormedTable(table)
    ensures forall k :: k in TableKeys ==> table[k] == entry(CityOf(k))
  {
    map k | k in TableKeys :: entry(CityOf(k))
  }

  // The entries of the six tables: a city's own entry, and the `'default'` entry for no
  // city. Every entry is a non-empty string or array, so `table[key] || table.default`
  // yields the entry of any own key. Long texts are written as short pieces joined by `+`.

  function ForecastEntry(c: Option<City>): (e: string)
    ensures e != []
  {
    match c
    case Some(Delhi) => "Next 5 days: Sunny with " + "temperatures ranging from 25°C to " + "32°C"
    case Some(Mumbai) => "Next 5 days: Partly cloudy with " + "chances of rain, temperatures 24°C " + "to 30°C"
    case Some(Bangalore) => "Next 5 days: Pleasant weather with " + "temperatures 20°C to 28°C"
    case None => "Weather forecast not available for this city"
  }

  function DestinationEntry(c: Option<City>): (e: seq<string>)
    ensures NonEmpty(List(e))
  {
    match c
    case Some(Delhi) => ["Red Fort", "Qutub Minar", "India Gate", "Humayun's Tomb"]
    case Some(Mumbai) => ["Gateway of India", "Marine Drive", "Elephanta Caves"]
    case Some(Bangalore) => ["Lalbagh Botanical Garden", "Bangalore Palace", "Cubbon Park"]
    case None => ["No specific destinations found for this city"]
  }

  function BestTimeEntry(c: Option<City>): (e: string)
    ensures e != []
  {
    match c
    case Some(Delhi) => "October to March is the best time " + "to visit Delhi when the weather is " + "pleasant and perfect for sightseeing"
    case Some(Mumbai) => "November to February offers the " + "most comfortable climate for " + "exploring Mumbai"
    case Some(Bangalore) => "September to February is ideal for " + "visiting Bangalore due to moderate " + "temperatures"
    case None => "Best time information not available " + "for this city"
  }

  function WeatherEntry(c: Option<City>): (e: string)
    ensures e != []
  {
    match c
    case Some(Delhi) => "Currently 28°C with clear skies"
    case Some(Mumbai) => "Currently 26°C with high humidity"
    case Some(Bangalore) => "Currently 22°C with light breeze"
    case None => "Current weather information not " + "available for this city"
  }

  function FoodEntry(c: Option<City>): (e: seq<string>)
    ensures NonEmpty(List(e))
  {
    match c
    case Some(Delhi) => ["Butter Chicken", "Chole Bhature", "Parantha", "Chaat"]
    case Some(Mumbai) => ["Vada Pav", "Pav Bhaji", "Bhel Puri", "Mumbai Sandwich"]
    case Some(Bangalore) => ["Masala Dosa", "Bisi Bele Bath", "Ragi Mudde", "Filter Coffee"]
    case None => ["No specific food information found " + "for this city"]
  }

  function PlaceEntry(c: Option<City>): (e: seq<string>)
    ensures NonEmpty(List(e))
  {
    match c
    case Some(Delhi) => ["Red Fort", "India Gate", "Lotus Temple", "Akshardham Temple"]
    case Some(Mumbai) => ["Gateway of India", "Marine Drive", "Juhu Beach", "Colaba"]
    case Some(Bangalore) => ["Lalbagh", "MG Road", "Wonderla", "Bannerghatta National Park"]
    case None => ["No famous places information found " + "for this city"]
  }

  const Forecasts: map<string, string> := TableOf(ForecastEntry)
  const Destinations: map<string, seq<string>> := TableOf(DestinationEntry)
  const BestTimes: map<string, string> := TableOf(BestTimeEntry)
  const Weather: map<string, string> := TableOf(WeatherEntry)
  const Food: map<string, seq<string>> := TableOf(FoodEntry)
  const Places: map<string, seq<string>> := TableOf(PlaceEntry)

  /** `table[city.toLowerCase()] || table.default`: every entry is truthy, so a present
      key yields its entry and any other key the default entry. */
  function Lookup<V>(table: map<string, V>, city: string): (r: V)
    requires WellFormedTable(table)
    ensures Lower(city) in Cities ==> r == table[Lower(city)]
    ensures Lower(city) !in Cities ==> r == table["default"]
  {
    var key := Lower(city);
    if key in table then table[key] else table["default"]
  }

  /** Case does not matter: a city and its lowercase form find the same entry. */
  lemma LookupIgnoresCase<V>(table: map<string, V>, city: string)
    requires WellFormedTable(table)
    ensures Lookup(table, city) == Lookup(table, Lower(city))
  {
    LowerIdempotent(city);
  }

  /** Looking a city up in a table is taking the entry of the city its lowercase form
      names, and the default entry when it names none. */
  lemma LookupTableOf<V>(entry: Option<City> -> V, city: string)
    ensures Lookup(TableOf(entry), city) == entry(CityOf(Lower(city)))
  {
    CityOfNamesCities(Lower(city));
    assert CityOf("default") == None;
  }

  /** Calls the tool on a city: one of the six lookups. */
  function Apply(t: Tool, city: string): (r: ToolResult)
    ensures r.Text? <==> t == WeatherDetails || t == WeatherForecast || t == BestTimeToVisit
  {
    match t
    case WeatherDetails => Text(WeatherEntry(CityOf(Lower(city))))
    case FamousFood => List(FoodEntry(CityOf(Lower(city))))
    case FamousPlaces => List(PlaceEntry(CityOf(Lower(city))))
    case WeatherForecast => Text(ForecastEntry(CityOf(Lower(city))))
    case FamousDestinations => List(DestinationEntry(CityOf(Lower(city))))
    case BestTimeToVisit => Text(BestTimeEntry(CityOf(Lower(city))))
  }

  // Each tool looks its city up in its own table, as the six lookup functions do.

  lemma WeatherDetailsLooksUp(city: string)
    ensures Apply(WeatherDetails, city) == Text(Lookup(Weather, city))
  {
    LookupTableOf(WeatherEntry, city);
  }

  lemma FamousFoodLooksUp(city: string)
    ensures Apply(FamousFood, city) == List(Lookup(Food, city))
  {
    LookupTableOf(FoodEntry, city);
  }

  lemma FamousPlacesLooksUp(city: string)
    ensures Apply(FamousPlaces, city) == List(Lookup(Places, city))
  {
    LookupTableOf(PlaceEntry, city);
  }

  lemma WeatherForecastLooksUp(city: string)
    ensures Apply(WeatherForecast, city) == Text(Lookup(Forecasts, city))
  {
    LookupTableOf(ForecastEntry, city);
  }

  lemma FamousDestinationsLooksUp(city: string)
    ensures Apply(FamousDestinations, city) == List(Lookup(Destinations, city))
  {
    LookupTableOf(DestinationEntry, city);
  }

  lemma BestTimeToVisitLooksUp(city: string)
    ensures Apply(BestTimeToVisit, city) == Text(Lookup(BestTimes, city))
  {
    LookupTableOf(BestTimeEntry, city);
  }

  /** The text `executeTool` returns when the tool is unknown or fails. */
  function ErrorText(name: string): string {
    "Error executing " + name
  }

  /** `executeTool({function: name, input})`: a registered tool is applied to the input;
      an unknown name, or a missing input (the lookup's `toLowerCase` throws on
      `undefined`), is caught and reported as `Error executing <name>`. */
  function ExecuteTool(name: string, input: Option<string>): (r: ToolResult)
    ensures ToolByName(name).Some? && input.Some? ==> r == Apply(ToolByName(name).value, input.value)
    ensures ToolByName(name).None? || input.None? ==> r == Text("Error executing " + name)
  {
    match ToolByName(name)
    case None => Text(ErrorText(name))
    case Some(t) => if input.None? then Text(ErrorText(name)) else Apply(t, input.value)
  }

  /** A tool always answers something to show. */
  lemma ApplyNonEmpty(t: Tool, city: string)
    ensures NonEmpty(Apply(t, city))
  {
  }

  /** Every tool answer, and every error, is something to show. */
  lemma ExecuteToolNonEmpty(name: string, input: Option<string>)
    ensures NonEmpty(ExecuteTool(name, input))
  {
    if ToolByName(name).Some? && input.Some? {
      ApplyNonEmpty(ToolByName(name).value, input.value);
    }
  }
}
