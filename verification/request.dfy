/** Reading and validating the query parameters of `GET /suggestion`. */
module Request {
  import opened Wrappers
  import opened Text

  /** The raw query parameters; `None` stands for a parameter that is absent. */
  datatype Query = Query(city: Option<string>, mood: Option<string>, scope: Option<string>)

  /** The outcome of validation: the request is rejected, or it carries the city
      as given and the mood and scope lower-cased. */
  datatype Validated = Invalid | Valid(city: string, mood: string, scope: string)

  /** The body of the 400 response to a request without a city or a mood. */
  const ValidationError: string := "Provide both 'city' and 'mood'"
  const ValidationStatus: int := 400

  /** The scope used when the request names none. */
  const DefaultScope: string := "regional"

  /** The request is rejected exactly when the city or the mood is absent or empty;
      otherwise the city is kept as given and the mood and scope are lower-cased,
      the scope defaulting to "regional". */
  function Validate(q: Query): (r: Validated)
    ensures r.Invalid? <==> !Present(q.city) || !Present(q.mood)
    ensures r.Valid? ==> r.city == q.city.value && r.mood != "" && r.city != ""
    ensures r.Valid? ==> r.mood == Lower(q.mood.value) && r.scope == Lower(q.scope.GetOr(DefaultScope))
    ensures r.Valid? ==> |r.mood| == |q.mood.value| && NoUpper(r.mood) && NoUpper(r.scope)
    ensures r.Valid? && q.scope.None? ==> r.scope == DefaultScope
  {
    var city := q.city;
    var mood := Lower(q.mood.GetOr(""));
    var scope := Lower(q.scope.GetOr(DefaultScope));
    LowerIsLowerCase(q.mood.GetOr(""));
    LowerIsLowerCase(q.scope.GetOr(DefaultScope));
    assert NoUpper(DefaultScope);
    if !Present(city) || mood == "" then Invalid else Valid(city.value, mood, scope)
  }

  /** Validation does not depend on the casing of mood and scope: two requests whose
      moods and scopes differ only in case are validated alike. */
  lemma ValidateIgnoresCase(q: Query, q': Query)
    requires q.city == q'.city
    requires q.mood.Some? <==> q'.mood.Some?
    requires q.mood.Some? ==> Lower(q.mood.value) == Lower(q'.mood.value)
    requires Lower(q.scope.GetOr(DefaultScope)) == Lower(q'.scope.GetOr(DefaultScope))
    ensures Validate(q) == Validate(q')
  {
  }
}
