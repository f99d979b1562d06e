/** The rule-based recommendations: an outfit and a food suggestion chosen by
    temperature band and weather condition, each followed by a mood-specific extra
    sentence, and a basic playlist label chosen by mood. */
module Rules {
  import opened Text

  /** The four temperature bands. */
  datatype Band = Freezing | Cold | Mild | Warm

  /** The range of temperatures, in degrees Celsius, that band `b` covers. */
  ghost predicate InBand(temp: real, b: Band) {
    match b
    case Freezing => temp < 5.0
    case Cold => 5.0 <= temp < 15.0
    case Mild => 15.0 <= temp < 25.0
    case Warm => 25.0 <= temp
  }

  function BaseOutfit(b: Band): string {
    match b
    case Freezing => "Heavy coat, gloves, thermal wear"
    case Cold => "Warm jacket and jeans"
    case Mild => "Light sweater or hoodie"
    case Warm => "T-shirt and shorts"
  }

  function BaseFood(b: Band): string {
    match b
    case Freezing => "Hot stew or cocoa"
    case Cold => "Soup, hot chocolate"
    case Mild => "Warm pasta or toast"
    case Warm => "Cold salad or smoothie"
  }

  /** The weather conditions that add a suffix, and `Unmatched` for all others. */
  datatype Condition = Rain | Snow | Clear | Clouds | Unmatched

  /** The conditions in the order they are tested: the first one whose keyword
      occurs in the weather condition wins. */
  const Priority: seq<Condition> := [Rain, Snow, Clear, Clouds]

  function Keyword(c: Condition): string
    requires c in Priority
  {
    match c
    case Rain => "rain"
    case Snow => "snow"
    case Clear => "clear"
    case Clouds => "clouds"
  }

  /** `c` is the condition that the lower-cased weather condition `main` selects:
      the first entry of `Priority` whose keyword occurs in `main`, or `Unmatched`
      when no keyword occurs. */
  ghost predicate FirstMatch(main: string, c: Condition) {
    if c == Unmatched then
      forall k :: 0 <= k < |Priority| ==> !Occurs(main, Keyword(Priority[k]))
    else
      exists k :: 0 <= k < |Priority| && Priority[k] == c && Occurs(main, Keyword(c)) &&
        forall j :: 0 <= j < k ==> !Occurs(main, Keyword(Priority[j]))
  }

  function OutfitSuffix(c: Condition): string {
    match c
    case Rain => ", plus umbrella and waterproof shoes"
    case Snow => ", layered with gloves and boots"
    case Clear => ", sunglasses recommended"
    case Clouds => ", maybe a light hoodie"
    case Unmatched => ""
  }

  /** Only rain and snow add to the food suggestion. */
  function FoodSuffix(c: Condition): string {
    match c
    case Rain => ", and hot chai"
    case Snow => ", and warm cookies"
    case Clear => ""
    case Clouds => ""
    case Unmatched => ""
  }

  /** The moods the three mood tables know. */
  const KnownMoods: set<string> :=
    {"tired", "excited", "romantic", "lazy", "angry", "sad", "motivated", "anxious", "confident"}

  const PlaylistsBasic: map<string, string> := map[
    "tired" := "Lo\U{2011}fi chill beats",
    "excited" := "EDM party mix",
    "romantic" := "Soft jazz & love songs",
    "lazy" := "Slow acoustic",
    "angry" := "Rock & metal",
    "sad" := "Piano & ballads",
    "motivated" := "Gym/workout power mix",
    "anxious" := "Nature sounds & acoustic calm",
    "confident" := "High\U{2011}energy rap & pop"
  ]

  const OutfitExtras: map<string, string> := map[
    "tired" := "Add a cozy hoodie",
    "excited" := "Wear vibrant colors",
    "romantic" := "Perfume or soft scarf",
    "lazy" := "Stay in pajamas",
    "angry" := "Dark hoodie and boots",
    "sad" := "Warm blanket or soft cardigan",
    "motivated" := "Activewear and sneakers",
    "anxious" := "Loose tee and soft cap",
    "confident" := "Bold accessories and sunglasses"
  ]

  const FoodExtras: map<string, string> := map[
    "tired" := "Add warm tea or comfort snack",
    "excited" := "Try tacos or fruity treats",
    "romantic" := "Strawberries or candle\U{2011}lit dessert",
    "lazy" := "Mac & cheese or cereal",
    "angry" := "Spicy noodles or dark coffee",
    "sad" := "Soup or ice cream",
    "motivated" := "Protein bar or green smoothie",
    "anxious" := "Herbal tea or oatmeal",
    "confident" := "Coffee and energy bites"
  ]

  /** The label of the basic playlist for an unknown mood. */
  const DefaultPlaylist: string := "Your favorite playlist"

  /** Python's `table.get(key, default)`. */
  function Get(table: map<string, string>, key: string, default: string): string {
    if key in table then table[key] else default
  }

  function OutfitExtra(mood: string): (r: string)
    ensures r == if mood in KnownMoods then OutfitExtras[mood] else ""
  {
    MoodTablesAgree();
    Get(OutfitExtras, mood, "")
  }

  function FoodExtra(mood: string): (r: string)
    ensures r == if mood in KnownMoods then FoodExtras[mood] else ""
  {
    MoodTablesAgree();
    Get(FoodExtras, mood, "")
  }

  /** The basic playlist label: the table's entry for one of the nine known moods,
      the default label for any other mood. */
  function BasicPlaylist(mood: string): (r: string)
    ensures mood in KnownMoods ==> r == PlaylistsBasic[mood] && r != DefaultPlaylist
    ensures mood !in KnownMoods ==> r == DefaultPlaylist
  {
    MoodTablesAgree();
    Get(PlaylistsBasic, mood, DefaultPlaylist)
  }

  /** The outfit text for band `b`, condition `c` and `mood`: the base, at most one
      suffix, then ". " and the mood's extra sentence, which is empty for a mood
      outside the nine known ones. */
  function OutfitFor(b: Band, c: Condition, mood: string): (r: string)
    ensures |BaseOutfit(b)| <= |r| && r[..|BaseOutfit(b)|] == BaseOutfit(b)
    ensures mood in KnownMoods ==> r == BaseOutfit(b) + OutfitSuffix(c) + ". " + OutfitExtras[mood]
    ensures mood !in KnownMoods ==> r == BaseOutfit(b) + OutfitSuffix(c) + ". "
  {
    var r := BaseOutfit(b) + OutfitSuffix(c) + ". " + OutfitExtra(mood);
    assert r == BaseOutfit(b) + (OutfitSuffix(c) + ". " + OutfitExtra(mood));
    r
  }

  /** The food text, built like the outfit text from the food tables. */
  function FoodFor(b: Band, c: Condition, mood: string): (r: string)
    ensures |BaseFood(b)| <= |r| && r[..|BaseFood(b)|] == BaseFood(b)
    ensures mood in KnownMoods ==> r == BaseFood(b) + FoodSuffix(c) + ". " + FoodExtras[mood]
    ensures mood !in KnownMoods ==> r == BaseFood(b) + FoodSuffix(c) + ". "
  {
    var r := BaseFood(b) + FoodSuffix(c) + ". " + FoodExtra(mood);
    assert r == BaseFood(b) + (FoodSuffix(c) + ". " + FoodExtra(mood));
    r
  }

  /** Every temperature lies in some band (the if/elif/else always picks one). */
  lemma BandExists(temp: real) returns (b: Band)
    ensures InBand(temp, b)
  {
    if temp < 5.0 {
      b := Freezing;
    } else if temp < 15.0 {
      b := Cold;
    } else if temp < 25.0 {
      b := Mild;
    } else {
      b := Warm;
    }
  }

  /** No temperature lies in two bands. */
  lemma BandUnique(temp: real, b: Band, b': Band)
    requires InBand(temp, b) && InBand(temp, b')
    ensures b == b'
  {
  }

  /** The band boundaries, stated as the texts each temperature range yields. */
  lemma BandBoundaries(temp: real, b: Band)
    requires InBand(temp, b)
    ensures temp < 5.0 ==> BaseOutfit(b) == "Heavy coat, gloves, thermal wear" && BaseFood(b) == "Hot stew or cocoa"
    ensures 5.0 <= temp < 15.0 ==> BaseOutfit(b) == "Warm jacket and jeans" && BaseFood(b) == "Soup, hot chocolate"
    ensures 15.0 <= temp < 25.0 ==> BaseOutfit(b) == "Light sweater or hoodie" && BaseFood(b) == "Warm pasta or toast"
    ensures 25.0 <= temp ==> BaseOutfit(b) == "T-shirt and shorts" && BaseFood(b) == "Cold salad or smoothie"
  {
  }

  /** At most one condition is selected for a weather condition. */
  lemma FirstMatchUnique(main: string, c: Condition, c': Condition)
    requires FirstMatch(main, c) && FirstMatch(main, c')
    ensures c == c'
  {
    if c != Unmatched && c' != Unmatched {
      var k :| 0 <= k < |Priority| && Priority[k] == c && Occurs(main, Keyword(c)) &&
        forall j :: 0 <= j < k ==> !Occurs(main, Keyword(Priority[j]));
      var k' :| 0 <= k' < |Priority| && Priority[k'] == c' && Occurs(main, Keyword(c')) &&
        forall j :: 0 <= j < k' ==> !Occurs(main, Keyword(Priority[j]));
      assert k == k';
    }
  }

  /** The condition at rank `k` of `Priority` is selected when its keyword occurs
      and no keyword of lower rank does. */
  lemma FirstMatchAt(main: string, c: Condition)
    requires c == Rain <==> Occurs(main, "rain")
    requires c == Snow ==> !Occurs(main, "rain") && Occurs(main, "snow")
    requires c == Clear ==> !Occurs(main, "rain") && !Occurs(main, "snow") && Occurs(main, "clear")
    requires c == Clouds ==> !Occurs(main, "rain") && !Occurs(main, "snow") && !Occurs(main, "clear") && Occurs(main, "clouds")
    requires c == Unmatched ==> !Occurs(main, "rain") && !Occurs(main, "snow") && !Occurs(main, "clear") && !Occurs(main, "clouds")
    ensures FirstMatch(main, c)
  {
    assert Keyword(Priority[0]) == "rain" && Keyword(Priority[1]) == "snow";
    assert Keyword(Priority[2]) == "clear" && Keyword(Priority[3]) == "clouds";
    match c
    case Rain => assert Priority[0] == c;
    case Snow => assert Priority[1] == c;
    case Clear => assert Priority[2] == c;
    case Clouds => assert Priority[3] == c;
    case Unmatched =>
  }

  /** Some condition is always selected. */
  lemma FirstMatchExists(main: string) returns (c: Condition)
    ensures FirstMatch(main, c)
  {
    if Occurs(main, "rain") {
      c := Rain;
      assert Priority[0] == Rain;
    } else if Occurs(main, "snow") {
      c := Snow;
      assert Priority[1] == Snow;
    } else if Occurs(main, "clear") {
      c := Clear;
      assert Priority[2] == Clear;
    } else if Occurs(main, "clouds") {
      c := Clouds;
      assert Priority[3] == Clouds;
    } else {
      c := Unmatched;
    }
  }

  /** A weather condition mentioning rain always gets the rain suffixes, whatever
      other keyword it also mentions. */
  lemma RainWins(main: string, c: Condition)
    requires FirstMatch(main, c) && Occurs(main, "rain")
    ensures c == Rain
    ensures OutfitSuffix(c) == ", plus umbrella and waterproof shoes" && FoodSuffix(c) == ", and hot chai"
  {
    assert Priority[0] == Rain;
  }

  /** With none of the four keywords present, outfit and food keep their base text. */
  lemma NoKeywordNoSuffix(main: string, c: Condition)
    requires FirstMatch(main, c)
    requires !Occurs(main, "rain") && !Occurs(main, "snow") && !Occurs(main, "clear") && !Occurs(main, "clouds")
    ensures c == Unmatched && OutfitSuffix(c) == "" && FoodSuffix(c) == ""
  {
  }

  /** Only rain and snow change the food; clear skies and clouds change only the outfit. */
  lemma FoodSuffixOnlyForRainOrSnow(c: Condition)
    ensures FoodSuffix(c) != "" <==> c == Rain || c == Snow
    ensures OutfitSuffix(c) != "" <==> c != Unmatched
  {
  }

  /** The outfit is the base text followed by at most one of the four condition
      suffixes, then ". " and the mood's extra; the same holds for the food. */
  lemma RecommendationFormat(b: Band, c: Condition, mood: string)
    ensures exists suffix :: suffix in {"", ", plus umbrella and waterproof shoes", ", layered with gloves and boots",
                                        ", sunglasses recommended", ", maybe a light hoodie"} &&
                             OutfitFor(b, c, mood) == BaseOutfit(b) + suffix + ". " + OutfitExtra(mood)
    ensures exists suffix :: suffix in {"", ", and hot chai", ", and warm cookies"} &&
                             FoodFor(b, c, mood) == BaseFood(b) + suffix + ". " + FoodExtra(mood)
  {
    var outfitSuffix, foodSuffix := OutfitSuffix(c), FoodSuffix(c);
    assert OutfitFor(b, c, mood) == BaseOutfit(b) + outfitSuffix + ". " + OutfitExtra(mood);
    assert FoodFor(b, c, mood) == BaseFood(b) + foodSuffix + ". " + FoodExtra(mood);
  }

  /** The three mood tables know the same nine moods. */
  lemma MoodTablesAgree()
    ensures PlaylistsBasic.Keys == OutfitExtras.Keys == FoodExtras.Keys == KnownMoods
  {
  }

  /** For a mood outside the tables the extra sentences are empty, so outfit and food
      end in ". ", and the basic playlist is the default label. */
  lemma UnknownMood(b: Band, c: Condition, mood: string)
    requires mood !in KnownMoods
    ensures OutfitFor(b, c, mood) == BaseOutfit(b) + OutfitSuffix(c) + ". "
    ensures FoodFor(b, c, mood) == BaseFood(b) + FoodSuffix(c) + ". "
    ensures BasicPlaylist(mood) == DefaultPlaylist
  {
    MoodTablesAgree();
  }

  /** For a known mood, outfit and food end in ". " and that mood's table entries,
      and the basic playlist is the mood's label. */
  lemma KnownMood(b: Band, c: Condition, mood: string)
    requires mood in KnownMoods
    ensures OutfitFor(b, c, mood) == BaseOutfit(b) + OutfitSuffix(c) + ". " + OutfitExtras[mood]
    ensures FoodFor(b, c, mood) == BaseFood(b) + FoodSuffix(c) + ". " + FoodExtras[mood]
    ensures BasicPlaylist(mood) == PlaylistsBasic[mood] != DefaultPlaylist
  {
    MoodTablesAgree();
  }

  /** Examples at the band boundaries, of suffix priority and of mood lookup. */
  lemma BoundaryAndLookupExamples()
    ensures InBand(4.9, Freezing) && BaseOutfit(Freezing) == "Heavy coat, gloves, thermal wear"
    ensures InBand(5.0, Cold) && BaseOutfit(Cold) == "Warm jacket and jeans"
    ensures InBand(24.9, Mild) && BaseOutfit(Mild) == "Light sweater or hoodie"
    ensures InBand(25.0, Warm) && BaseOutfit(Warm) == "T-shirt and shorts"
    ensures FirstMatch("light rain and snow", Rain)
    ensures BasicPlaylist("tired") == "Lo\U{2011}fi chill beats"
    ensures BasicPlaylist("unknown_mood_xyz") == DefaultPlaylist
  {
    assert OccursAt("light rain and snow", "rain", 6);
    assert Priority[0] == Rain;
  }

  /** The recommendation step of the handler: the outfit and food start from the
      temperature band's base texts, get the selected condition's suffixes by
      successive appends, then ". " and the mood's extra sentences. */
  method Recommend(temp: real, main: string, mood: string) returns (outfit: string, food: string, basic: string)
    ensures forall b, c :: InBand(temp, b) && FirstMatch(main, c) ==>
      outfit == OutfitFor(b, c, mood) && food == FoodFor(b, c, mood)
    ensures basic == BasicPlaylist(mood)
  {
    var band: Band;
    if temp < 5.0 {
      band := Freezing;
    } else if temp < 15.0 {
      band := Cold;
    } else if temp < 25.0 {
      band := Mild;
    } else {
      band := Warm;
    }
    outfit, food := BaseOutfit(band), BaseFood(band);

    var condition: Condition;
    if Contains(main, "rain") {
      condition := Rain;
      outfit := outfit + OutfitSuffix(Rain);
      food := food + FoodSuffix(Rain);
    } else if Contains(main, "snow") {
      condition := Snow;
      outfit := outfit + OutfitSuffix(Snow);
      food := food + FoodSuffix(Snow);
    } else if Contains(main, "clear") {
      condition := Clear;
      outfit := outfit + OutfitSuffix(Clear);
      assert food == food + FoodSuffix(Clear);
    } else if Contains(main, "clouds") {
      condition := Clouds;
      outfit := outfit + OutfitSuffix(Clouds);
      assert food == food + FoodSuffix(Clouds);
    } else {
      condition := Unmatched;
      assert outfit == outfit + OutfitSuffix(Unmatched) && food == food + FoodSuffix(Unmatched);
    }
    assert outfit == BaseOutfit(band) + OutfitSuffix(condition) && food == BaseFood(band) + FoodSuffix(condition);
    FirstMatchAt(main, condition);

    outfit := outfit + ". " + OutfitExtra(mood);
    food := food + ". " + FoodExtra(mood);
    basic := BasicPlaylist(mood);

    forall b, c | InBand(temp, b) && FirstMatch(main, c)
      ensures outfit == OutfitFor(b, c, mood) && food == FoodFor(b, c, mood)
    {
      BandUnique(temp, b, band);
      FirstMatchUnique(main, c, condition);
    }
  }
}
