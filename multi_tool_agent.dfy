/** The simulated tools of 02_create_agent_multi_tool.py: `get_weather`, a lookup
    in a fixed table of five cities, and `search`, an ordered first-match
    substring scan over a fixed table of three topics. Both are total. */
module MultiToolAgent {
  import opened Wrappers
  import opened Text

  /** The simulated weather data, keyed by city name exactly as written. */
  const WeatherTable: map<string, string> := map[
    "Seattle" := "62\U{B0}F, cloudy with a chance of rain",
    "Paris" := "18\U{B0}C, sunny and pleasant",
    "Tokyo" := "24\U{B0}C, rainy with occasional thunder",
    "New York" := "70\U{B0}F, partly cloudy",
    "London" := "15\U{B0}C, foggy with light drizzle"
  ]

  const WeatherPrefix := "Current weather in "
  const UnavailablePrefix := "Weather data unavailable for "

  /** `get_weather(city)`: the table entry for `city`, looked up case-sensitively;
      a city without a (non-empty) entry gets the "unavailable" text. */
  function GetWeather(city: string): (r: string)
    ensures IsPrefix(WeatherPrefix + city + ": ", r) <==> city in WeatherTable
    ensures city in WeatherTable ==> IsSuffix(WeatherTable[city], r) && |r| == |WeatherPrefix + city + ": "| + |WeatherTable[city]|
    ensures city !in WeatherTable ==> r == UnavailablePrefix + city
  {
    var cityWeather := if city in WeatherTable then WeatherTable[city] else "";
    if cityWeather != "" then WeatherPrefix + city + ": " + cityWeather
    else
      assert city !in WeatherTable by { WeatherEntriesNonEmpty(); }
      assert (UnavailablePrefix + city)[0] != (WeatherPrefix + city + ": ")[0];
      UnavailablePrefix + city
  }

  /** Every table entry is a non-empty string, so Python's truthiness test on the
      looked-up value coincides with key membership. */
  lemma WeatherEntriesNonEmpty()
    ensures forall c :: c in WeatherTable ==> WeatherTable[c] != ""
  {
  }

  /** The simulated search results, as (key, text) pairs in the dictionary's
      insertion order, which is the order `search` scans them in. */
  const SearchResults: seq<(string, string)> := [
    ("langchain", "LangChain is a framework for building applications with large language models (LLMs). It provides tools, agents, chains, and memory systems to create sophisticated AI applications."),
    ("typescript", "TypeScript is a strongly typed programming language that builds on JavaScript, giving you better tooling at any scale."),
    ("javascript frameworks", "Popular JavaScript frameworks include React, Vue, Angular, Svelte, and Next.js for building modern web applications.")
  ]

  const DefaultSearchResult := "Found information about web development, programming, and related topics."

  /** The index of the first entry of `table` whose key occurs in `text`. */
  function FirstMatch(table: seq<(string, string)>, text: string): (r: Option<nat>)
    ensures r.Some? ==> r.value < |table| && Contains(text, table[r.value].0)
    ensures r.Some? ==> forall j :: 0 <= j < r.value ==> !Contains(text, table[j].0)
    ensures r.None? <==> forall j :: 0 <= j < |table| ==> !Contains(text, table[j].0)
  {
    if table == [] then None
    else if Contains(text, table[0].0) then Some(0)
    else
      match FirstMatch(table[1..], text)
      case None => None
      case Some(i) => Some(i + 1)
  }

  /** The quoted header both of `search`'s results start with; it quotes the query
      as given, not lower-cased. */
  function SearchHeader(query: string): string {
    "Search results for \"" + query + "\": "
  }

  /** The text `search` puts after the header: the value of the first key, in table
      order, that occurs in the lower-cased query, else the default text. */
  function SearchAnswer(query: string): (r: string)
    ensures forall i :: 0 <= i < |SearchResults| && Contains(Lower(query), SearchResults[i].0) &&
                        (forall j :: 0 <= j < i ==> !Contains(Lower(query), SearchResults[j].0))
                        ==> r == SearchResults[i].1
    ensures (forall i :: 0 <= i < |SearchResults| ==> !Contains(Lower(query), SearchResults[i].0))
            ==> r == DefaultSearchResult
  {
    match FirstMatch(SearchResults, Lower(query))
    case Some(i) => SearchResults[i].1
    case None => DefaultSearchResult
  }

  /** `search(query)`. */
  function Search(query: string): (r: string)
    ensures IsPrefix(SearchHeader(query), r)
    ensures r[|SearchHeader(query)|..] == SearchAnswer(query)
  {
    SearchHeader(query) + SearchAnswer(query)
  }

  /** Matching ignores the case of the query: queries equal up to ASCII case get the
      same answer, in particular a query and its lower-cased form. */
  lemma SearchCaseInsensitive(q1: string, q2: string)
    requires Lower(q1) == Lower(q2)
    ensures SearchAnswer(q1) == SearchAnswer(q2)
  {
  }

  lemma SearchAnswerOfLowered(query: string)
    ensures SearchAnswer(Lower(query)) == SearchAnswer(query)
  {
    LowerIdempotent(query);
  }

  /** The first key in table order wins: any query mentioning "langchain" is
      answered with the LangChain entry, whatever other keys it also holds. */
  lemma SearchFirstKeyWins(query: string)
    requires Contains(Lower(query), "langchain")
    ensures SearchAnswer(query) == SearchResults[0].1
  {
  }

  /** A query shorter than every key cannot contain one and gets the default text. */
  lemma SearchShortQueryDefault(query: string)
    requires |query| < 9
    ensures SearchAnswer(query) == DefaultSearchResult
  {
    var l := Lower(query);
    forall i | 0 <= i < |SearchResults|
      ensures !Contains(l, SearchResults[i].0)
    {
      ContainsIff(l, SearchResults[i].0);
    }
  }

  /** The Kelvin sign lower-cases to 'k': "javascript framewor\u212As" is answered
      with the JavaScript-frameworks entry. */
  lemma SearchKelvinSign()
    ensures SearchAnswer("javascript framewor" + [KelvinSign] + "s") == SearchResults[2].1
  {
    KelvinQueryLowers();
    FrameworksKeyOccurs();
    LangChainKeyAbsent();
    TypeScriptKeyAbsent();
  }

  lemma KelvinQueryLowers()
    ensures Lower("javascript framewor" + [KelvinSign] + "s") == "javascript frameworks"
  {
    var q := "javascript framewor" + [KelvinSign] + "s";
    var l := Lower(q);
    forall i | 0 <= i < |q|
      ensures l[i] == "javascript frameworks"[i]
    {
    }
  }

  // In "javascript frameworks" only the third key occurs: it has no 'l' and no 'y'.

  lemma FrameworksKeyOccurs()
    ensures Contains("javascript frameworks", SearchResults[2].0)
  {
    assert OccursAt("javascript frameworks", SearchResults[2].0, 0);
    ContainsIff("javascript frameworks", SearchResults[2].0);
  }

  lemma LangChainKeyAbsent()
    ensures !Contains("javascript frameworks", SearchResults[0].0)
  {
    MissingCharNotContained("javascript frameworks", SearchResults[0].0, 0);
  }

  lemma TypeScriptKeyAbsent()
    ensures !Contains("javascript frameworks", SearchResults[1].0)
  {
    MissingCharNotContained("javascript frameworks", SearchResults[1].0, 1);
  }

  /** Matching is case-sensitive in the city: "tokyo" is not in the table. */
  lemma WeatherCaseSensitive()
    ensures GetWeather("Tokyo") == WeatherPrefix + "Tokyo: " + WeatherTable["Tokyo"]
    ensures GetWeather("tokyo") == UnavailablePrefix + "tokyo"
  {
  }
}
