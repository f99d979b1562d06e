# Mood-based weather and playlist suggestions: a Dafny model

The service answers `GET /suggestion?city=…&mood=…&scope=…`. It rejects a request
that has no city or no mood. Otherwise it asks a weather service for the city's current
conditions and recommends an outfit and a food from fixed rules. The rules use the
temperature band, the first weather keyword found (rain, then snow, then clear, then
clouds) and a mood-specific extra sentence. It also picks a basic playlist label by mood.
Finally it asks a music catalogue for playlists matching the mood. It samples up to three
of the returned items at random and keeps those that have a name and a url.

The model lifts this logic out of the HTTP handler:

- `Text`: the Python string operations the handler uses. These are `str.lower`,
  `str.title`, the substring test `in` and the truthiness of an optional string. Each
  of lower, title and `in` is checked against an independent definition: pointwise
  for lower and title case, an index of occurrence for `in`.
- `Request`: query validation into `Invalid` or `Valid(city, mood, scope)`.
- `Rules`: the temperature bands, the first-match condition rule, the three mood tables,
  and `Recommend`. `Recommend` builds outfit and food by successive appends, as the
  handler does. Its contract relates the result to a declarative specification. That
  specification has each band's temperature range (`InBand`) and the first keyword in
  priority order that occurs (`FirstMatch`).
- `Playlists`: the search parameters (the `market` rule), the sample as the list of
  positions `random.sample` picked, and the loop over the sample (`CollectPlaylists`).
  The loop is proved equal to `Filtered`, and lemmas show the results are an ordered
  selection of well-formed items.
- `Handler`: `GetSuggestion` assembles the response. It also returns the upstream
  requests it makes, in order. The replies of the weather service, the token exchange
  and the playlist search are parameters.

The code samples first (app.py:142) and filters afterwards (app.py:145-150). So a reply
with three or more well-formed items can still yield fewer than three playlists.
`Playlists.SampleBeforeFilterMayDropPlaylists` shows such a reply.

## Model

| member | source | states |
|---|---|---|
| Text.Lower | app.py:41-42 | lower-casing keeps the length and lower-cases each character in place |
| Text.LowerIsLowerCase | app.py:41-42 | a lower-cased string has no upper-case letter; lower-casing is idempotent and leaves lower-case strings unchanged |
| Text.Contains | app.py:75-84 | the substring test is true exactly when the keyword occurs at some index of the condition |
| Text.Title | app.py:154 | title-casing keeps the length; a letter is upper-cased when it starts a run of letters and lower-cased otherwise |
| Text.TitleIgnoresCase | app.py:154 | the echoed city does not depend on the input's casing, and title-casing twice changes nothing |
| Text.TitleExample | app.py:154 | "new york" is echoed as "New York" |
| Request.Validate | app.py:40-45 | rejected exactly when city or mood is absent or empty; otherwise city as given, mood and scope lower-cased, scope "regional" by default |
| Request.ValidateIgnoresCase | app.py:41-45 | moods and scopes that differ only in case validate alike |
| Rules.BandExists | app.py:62-73 | every temperature lies in some band |
| Rules.BandUnique | app.py:62-73 | no temperature lies in two bands (with BandExists, exactly one applies) |
| Rules.BandBoundaries | app.py:62-73 | below 5, from 5 to 15, from 15 to 25 and from 25 up give the four literal outfit and food bases |
| Rules.FirstMatchAt | app.py:75-84 | the condition chosen by testing rain, snow, clear, clouds in order is the first-match condition |
| Rules.FirstMatchExists | app.py:75-84 | every weather condition selects some condition, possibly none of the four |
| Rules.FirstMatchUnique | app.py:75-84 | a weather condition selects at most one condition, so at most one suffix is appended |
| Rules.RainWins | app.py:75-77 | a condition containing "rain" gets the rain suffixes even when it also names snow, clear or clouds |
| Rules.NoKeywordNoSuffix | app.py:75-84 | without any of the four keywords, no suffix is added to outfit or food |
| Rules.FoodSuffixOnlyForRainOrSnow | app.py:75-84 | food gets a suffix exactly for rain or snow; the outfit gets one for every matched keyword |
| Rules.RecommendationFormat | app.py:62-122 | the outfit is its base, one of the five possible suffixes, ". " and the mood extra; the food is its base, one of the three possible suffixes, ". " and the mood extra |
| Rules.OutfitExtra | app.py:98-121 | the outfit extra is the table entry for a known mood and empty for any other mood |
| Rules.FoodExtra | app.py:109-122 | the food extra is the table entry for a known mood and empty for any other mood |
| Rules.BasicPlaylist | app.py:87-123 | the label is the table entry for one of the nine known moods, and "Your favorite playlist" for any other mood |
| Rules.OutfitFor | app.py:62-121 | the base outfit is a prefix; the text ends in ". " and the mood's entry for a known mood, and in ". " alone otherwise |
| Rules.FoodFor | app.py:62-122 | the base food is a prefix; the text ends in ". " and the mood's entry for a known mood, and in ". " alone otherwise |
| Rules.MoodTablesAgree | app.py:87-119 | the three mood tables have the same nine keys |
| Rules.UnknownMood | app.py:98-123 | for an unknown mood, outfit and food end in ". " and the basic playlist is "Your favorite playlist" |
| Rules.KnownMood | app.py:87-123 | for a known mood, outfit and food end in ". " plus that mood's entries, and the playlist label is the table's |
| Rules.BoundaryAndLookupExamples | app.py:62-123 | 4.9, 5.0, 24.9 and 25.0 fall in the expected bands; "light rain and snow" selects rain; "tired" and an unknown mood get their labels |
| Rules.Recommend | app.py:62-123 | outfit and food built by appends equal the texts for the temperature's band and the condition's first match; the label is the mood's |
| Playlists.SearchParams | app.py:129-131 | q, type and limit are always the mood, "playlist" and 10; market is present exactly for regional scope with a country, and is that country |
| Playlists.Keep | app.py:145-150 | an item contributes one playlist exactly when it is an object with non-empty name and url |
| Playlists.Filtered | app.py:143-150 | the walk never yields more playlists than sampled items |
| Playlists.FilteredSelects | app.py:143-150 | the results are the well-formed sampled items, all of them, in sample order, and nothing else |
| Playlists.FilteredKeepsAllWellFormed | app.py:143-150 | a sample of well-formed items loses nothing |
| Playlists.CollectPlaylists | app.py:143-150 | the loop that appends to the result list computes exactly the filtered sample |
| Playlists.Sample | app.py:142 | the sample has min(3, number of items) entries, drawn from the items without replacement (a sub-multiset), in the order picked |
| Playlists.PickedWithinItems | app.py:142 | items picked at distinct positions form a sub-multiset of the items |
| Playlists.SpotifyResults | app.py:126-150 | the response never holds more than three playlists |
| Playlists.NoSearchNoPlaylists | app.py:126-140 | without a token, after a non-200 search or for an empty item list, there are no playlists |
| Playlists.ResultsDrawnFromItems | app.py:126-150 | at most three playlists, each from a distinct well-formed item of the reply, each with non-empty name and url, in the order the sample picked them |
| Playlists.AllWellFormedFillsSample | app.py:139-150 | when every item is well-formed, min(3, number of items) playlists are returned |
| Playlists.SampleBeforeFilterMayDropPlaylists | app.py:140-150 | a reply with a null entry and three well-formed items can yield only two playlists |
| Handler.GetSuggestion | app.py:39-164 | 400 before any upstream request for a missing city or mood; 500 after only the weather request when it fails; else a 200 body of the echoed fields, the rule texts and the filtered playlists, with the token and the search requested in that order |

## Left out

- The Flask application, routing, `jsonify`, the `/` route and the development server: framework I/O.
- Loading the three credentials from the environment and the logging `print`: process configuration and output.
- The HTTP requests to the weather service, the token endpoint and the search endpoint: their replies are parameters of `Handler.GetSuggestion`.
- `get_spotify_token`, with its base64 encoding of the client credentials: the token it returns is an optional string parameter.
- Reading fields out of the JSON bodies: a reply missing `main.temp`, `weather[0]` or `sys` raises an unhandled error in the service. The model's replies always carry these fields.
- A `playlists` or `external_urls` field that is present but not an object raises an unhandled error in the service. The model's `Item` has no such case.
- Transport errors on the token request or the search request, and a 200 token or search reply whose body is not a JSON object (app.py:30, 139), raise an unhandled error that ends in a 500. `Handler.GetSuggestion` assumes these replies are well-formed and then answers 200.
- Playlist names and urls that are JSON values other than strings: `Item` holds optional strings only.
- `random.sample`: its choice is the parameter `picks`. `picks` is constrained to min(3, number of items) distinct positions, and the randomness itself is not modelled.
- Temperatures that are not finite numbers (NaN compares false against every bound in Python): temperatures are Dafny reals.
- Text.Lower: only the ASCII letters A-Z are lower-cased, while Python's `str.lower` also lower-cases other Unicode letters.
- Text.Title: only ASCII letters count as cased, while Python's `str.title` treats every Unicode cased letter as part of a word.
