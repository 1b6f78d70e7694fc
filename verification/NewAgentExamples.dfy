/** Sample runs of the cascading interpreter of new-agent.js on fixed texts: the city
    extractor's food listing, the extractor's precedence of "weather" over "food", and
    the keyword table's food entry, whose answer is an array rather than a string. Each
    fact about a fixed text is proved on its own, and the answers are then assembled
    from lemmas that hold for every text. */
module NewAgentExamples {

  import opened Options
  import opened JsText
  import opened Tools
  import opened Patterns
  import opened Steps
  import opened NewAgent

  // ---------------------------------------------------------------- the city table

  lemma LowerDelhi()
    ensures Lower("delhi") == "delhi"
  {
    LowerOfLowercase("delhi");
  }

  lemma CapitalizeDelhi()
    ensures Capitalize("delhi") == "Delhi"
  {
  }

  /** `foods.join(', ')` for Delhi. */
  lemma DelhiFoodListing()
    ensures Join(Apply(FamousFood, "delhi").items, ", ")
         == "Butter Chicken" + ", " + "Chole Bhature" + ", " + "Parantha" + ", " + "Chaat"
  {
    assert Key(Delhi) == "delhi";
    var items := FoodEntry(Some(Delhi));
    assert items[1..] == ["Chole Bhature", "Parantha", "Chaat"];
    assert items[1..][1..] == ["Parantha", "Chaat"];
    assert items[1..][1..][1..] == ["Chaat"];
  }

  /** The Delhi foods joined by a bare comma, as `String` converts an array. */
  lemma DelhiFoodArrayText()
    ensures Join(FoodEntry(Some(Delhi)), ",")
         == "Butter Chicken" + "," + "Chole Bhature" + "," + "Parantha" + "," + "Chaat"
  {
    var items := FoodEntry(Some(Delhi));
    assert items[1..] == ["Chole Bhature", "Parantha", "Chaat"];
    assert items[1..][1..] == ["Parantha", "Chaat"];
    assert items[1..][1..][1..] == ["Chaat"];
  }

  // ---------------------------------------------------------------- the city extractor

  lemma TellMeNoWeather()
    ensures !Contains("tell me about delhi food", "weather")
  {
    var t := "tell me about delhi food";
    assert 'w' !in t;
    FirstCharAbsent(t, "weather");
  }

  lemma TellMeFood()
    ensures Contains("tell me about delhi food", "food")
  {
    var t := "tell me about delhi food";
    assert t[20..24] == "food";
    ContainsAt(t, "food", 20);
  }

  /** "tell me about delhi food" reaches the extractor's food branch for Delhi. */
  lemma TellMeAboutDelhiFoodBranch()
    ensures Extractor("tell me about delhi food")
         == Some(Text("Famous foods in " + Capitalize("delhi") + ": " + Join(Apply(FamousFood, "delhi").items, ", ")))
  {
    TellMeNoWeather();
    TellMeFood();
    TellMeAboutDelhi();
    LowerDelhi();
  }

  /** The extractor answers "tell me about delhi food" with the capitalised city and the
      foods joined by `, `. */
  lemma TellMeAboutDelhiFood()
    ensures Extractor("tell me about delhi food")
         == Some(Text("Famous foods in " + "Delhi" + ": "
                      + ("Butter Chicken" + ", " + "Chole Bhature" + ", " + "Parantha" + ", " + "Chaat")))
  {
    TellMeAboutDelhiFoodBranch();
    CapitalizeDelhi();
    DelhiFoodListing();
  }

  lemma InDelhiFoodWeatherCity()
    ensures Exec(CityRe, "in delhi food weather") == Some("delhi")
  {
    var t := "in delhi food weather";
    assert t[0..2] == "in" && t[2] == ' ' && t[3..8] == "delhi" && t[8] == ' ';
    assert !Opens(t, 0, "about") && Opens(t, 0, "in");
    AlternativePicks(t, 0, CityWords, 1);
    OneSpaceThenWord(t, 2, "delhi");
    assert MatchAt(CityRe, t, 0) == Some("delhi");
    ExecLeftmost(CityRe, t, 0);
  }

  lemma InDelhiFoodWeatherHasWeather()
    ensures Contains("in delhi food weather", "weather")
  {
    var t := "in delhi food weather";
    assert t[14..21] == "weather";
    assert StartsAt(t, 14, "weather");
    ContainsAt(t, "weather", 14);
  }

  /** "weather" is tested before "food", wherever the two stand in the text. */
  lemma WeatherBeatsFood()
    ensures Extractor("in delhi food weather") == Some(Apply(WeatherDetails, "delhi"))
  {
    LowerDelhi();
    InDelhiFoodWeatherCity();
    InDelhiFoodWeatherHasWeather();
  }

  // ---------------------------------------------------------------- the keyword table

  /** None of the first four keys occurs, so none of the first four entries fires. */
  lemma FirstFourSilent(t: string)
    requires !Contains(t, "best time to visit") && !Contains(t, "weather in")
    requires !Contains(t, "forecast") && !Contains(t, "places to visit")
    ensures forall j :: 0 <= j < 4 ==> Fires(Keywords[j], t).None?
  {
    assert Fires(Keywords[0], t).None?;
    assert Fires(Keywords[1], t).None?;
    assert Fires(Keywords[2], t).None?;
    assert Fires(Keywords[3], t).None?;
    forall j | 0 <= j < 4 ensures Fires(Keywords[j], t).None? {
      assert j == 0 || j == 1 || j == 2 || j == 3;
    }
  }

  /** The food entry fires on `food in` with the capture of its regex. */
  lemma FoodFires(t: string, city: string)
    requires Contains(t, "food in") && Exec(FoodRe, t) == Some(city)
    ensures Fires(Keywords[4], t) == Some(city)
  {
  }

  /** When the food entry is the first to fire, the keyword stage answers the array of
      the city's foods, not a text. */
  lemma FoodKeyword(t: string, c: City)
    requires forall j :: 0 <= j < 4 ==> Fires(Keywords[j], t).None?
    requires Fires(Keywords[4], t) == Some(Key(c))
    ensures KeywordFrom(t, 0) == Some(List(FoodEntry(Some(c))))
  {
    assert Apply(FamousFood, Key(c)) == List(FoodEntry(Some(c)));
    assert Keywords[4].tool == FamousFood;
    FirstFiringEntryWins(t, 4);
  }

  lemma FoodInDelhiLower()
    ensures Lower("food in delhi") == "food in delhi"
  {
    LowerOfLowercase("food in delhi");
  }

  lemma FoodInDelhiNoGate()
    ensures !JsonGate("food in delhi")
  {
    assert '"' !in "food in delhi";
    NoQuoteNoGate("food in delhi");
  }

  lemma FoodInDelhiKeys()
    ensures !Contains("food in delhi", "best time to visit") && !Contains("food in delhi", "weather in")
    ensures !Contains("food in delhi", "places to visit")
  {
    var t := "food in delhi";
    assert 'b' !in t && 'w' !in t && 'p' !in t;
    FirstCharAbsent(t, "best time to visit");
    FirstCharAbsent(t, "weather in");
    FirstCharAbsent(t, "places to visit");
  }

  lemma FoodInDelhiNoForecast()
    ensures !Contains("food in delhi", "forecast")
  {
    var t := "food in delhi";
    assert t[1..] == "ood in delhi" && 'f' !in t[1..];
    assert t[0..8] == "food in " && !StartsAt(t, 0, "forecast");
    FirstCharOnlyAtStart(t, "forecast");
  }

  lemma FoodInDelhiFoodIn()
    ensures Contains("food in delhi", "food in")
  {
    var t := "food in delhi";
    assert t[0..7] == "food in";
    ContainsAt(t, "food in", 0);
  }

  lemma FoodInDelhiCapture()
    ensures Exec(FoodRe, "food in delhi") == Some("delhi")
  {
    FoodExample();
    ExecLeftmost(FoodRe, "food in delhi", 0);
  }

  /** As written, "food in delhi" is answered with the array of Delhi's foods. */
  lemma KeywordAnswerIsList(parse: Parser)
    ensures Answer(parse, "food in delhi") == List(FoodEntry(Some(Delhi)))
  {
    FoodInDelhiNoGate();
    FoodInDelhiLower();
    FoodInDelhiKeys();
    FoodInDelhiNoForecast();
    FoodInDelhiFoodIn();
    FoodInDelhiCapture();
    FirstFourSilent("food in delhi");
    FoodFires("food in delhi", "delhi");
    assert Key(Delhi) == "delhi";
    FoodKeyword("food in delhi", Delhi);
    KeywordAnswer(parse, "food in delhi");
  }

  /** Converted to a string, the same answer is the foods joined by a bare comma. */
  lemma KeywordAnswerAsText(parse: Parser)
    ensures AnswerText(parse, "food in delhi")
         == "Butter Chicken" + "," + "Chole Bhature" + "," + "Parantha" + "," + "Chaat"
  {
    KeywordAnswerIsList(parse);
    DelhiFoodArrayText();
  }
}
