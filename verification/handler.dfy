/** The `GET /suggestion` handler: validate the request, consult the weather, build
    the recommendations, search for playlists and assemble the response. The replies
    of the three upstream services and the random sample's choice are parameters;
    the handler reports the upstream requests it makes, in order. */
module Handler {
  import opened Wrappers
  import opened Text
  import opened Request
  import opened Rules
  import opened Playlists

  /** The reply of the weather service: its HTTP status and, on success, the
      temperature, the main condition (before lower-casing), the description and
      the country code if the reply has one. */
  datatype WeatherReply = WeatherReply(status: int, temp: real, main: string, description: string, country: Option<string>)

  /** The body of a successful response. */
  datatype Suggestion = Suggestion(
    city: string, country: Option<string>, mood: string, scope: string,
    temperature: real, weatherDescription: string,
    outfit: string, food: string, basicPlaylist: string, spotifyPlaylists: seq<Playlist>)

  datatype Response = Error(status: int, error: string) | Ok(body: Suggestion)

  /** An upstream request the handler makes. */
  datatype Call = WeatherCall(city: string) | TokenCall | SearchCall(params: Params)

  /** The body of the 500 response when the weather service fails. */
  const WeatherError: string := "Could not fetch weather. Check city name."
  const WeatherStatus: int := 500

  /** The upstream requests a valid request leads to once the weather reply succeeded:
      the weather, a token, and the search only when a token was obtained. */
  function CallsAfterWeather(v: Validated, weather: WeatherReply, token: Option<string>): seq<Call>
    requires v.Valid?
  {
    [WeatherCall(v.city), TokenCall] +
    if Present(token) then [SearchCall(SearchParams(v.mood, v.scope, weather.country))] else []
  }

  method GetSuggestion(q: Query, weather: WeatherReply, token: Option<string>, search: SearchReply, picks: seq<nat>)
    returns (response: Response, calls: seq<Call>)
    requires IsSampleChoice(picks, |search.items|)
    // A request without city or mood is refused before any upstream request.
    ensures Validate(q).Invalid? ==> response == Error(ValidationStatus, ValidationError) && calls == []
    // A failed weather lookup ends the request after that one upstream request.
    ensures Validate(q).Valid? && weather.status != 200 ==>
      response == Error(WeatherStatus, WeatherError) && calls == [WeatherCall(Validate(q).city)]
    // Otherwise the response is a success assembled from the rules and the search.
    ensures Validate(q).Valid? && weather.status == 200 ==>
      var v := Validate(q);
      && calls == CallsAfterWeather(v, weather, token)
      && response.Ok?
      && var body := response.body;
      && body.city == Title(v.city) && body.country == weather.country
      && body.mood == v.mood && body.scope == v.scope
      && body.temperature == weather.temp && body.weatherDescription == weather.description
      && (forall b, c :: InBand(weather.temp, b) && FirstMatch(Lower(weather.main), c) ==>
            body.outfit == OutfitFor(b, c, v.mood) && body.food == FoodFor(b, c, v.mood))
      && body.basicPlaylist == BasicPlaylist(v.mood)
      && body.spotifyPlaylists == SpotifyResults(token, search, picks)
    // Whatever the replies, a success carries at most three playlists, each named and linked.
    ensures response.Ok? ==>
      && |response.body.spotifyPlaylists| <= 3
      && forall k :: 0 <= k < |response.body.spotifyPlaylists| ==>
           response.body.spotifyPlaylists[k].name != "" && response.body.spotifyPlaylists[k].url != ""
  {
    var v := Validate(q);
    if v.Invalid? {
      return Error(ValidationStatus, ValidationError), [];
    }
    var city, mood, scope := v.city, v.mood, v.scope;

    calls := [WeatherCall(city)];
    if weather.status != 200 {
      return Error(WeatherStatus, WeatherError), calls;
    }
    var temp, main, description, country := weather.temp, Lower(weather.main), weather.description, weather.country;

    var outfit, food, basic := Recommend(temp, main, mood);

    var results: seq<Playlist> := [];
    calls := calls + [TokenCall];
    if Present(token) {
      var params := SearchParams(mood, scope, country);
      calls := calls + [SearchCall(params)];
      if search.status == 200 && search.items != [] {
        var sample := Sample(search.items, picks);
        results := CollectPlaylists(sample);
      }
    }
    ghost var from, order := ResultsDrawnFromItems(token, search, picks);

    response := Ok(Suggestion(Title(city), country, mood, scope, temp, description, outfit, food, basic, results));
  }
}
