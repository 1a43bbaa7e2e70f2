/** The `origin` option of the API's CORS middleware. */
module CorsMiddleware {
  import opened Js

  /** The arguments with which the `origin` function calls its callback:
      `callback(error, allow)`; an omitted argument is `None`. */
  datatype CorsCallback = CorsCallback(error: Option<string>, allow: Option<bool>)

  predicate Allows(c: CorsCallback) {
    c.error.None? && c.allow == Some(true)
  }

  const LocalOrigins := ["http://localhost:3000", "http://localhost:5173"]
  const NotAllowed := "Not allowed by CORS"

  /** `origin(origin, callback)`: the single callback call the function makes, given
      `config.allowedOrigins`. */
  function OriginDecision(origin: Option<string>, allowedOrigins: seq<string>): (c: CorsCallback)
    ensures Allows(c) <==> !Truthy(origin) || origin.value in LocalOrigins || origin.value in allowedOrigins
    ensures !Allows(c) ==> c == CorsCallback(Some(NotAllowed), Some(false))
  {
    if !Truthy(origin) || origin.value in LocalOrigins then CorsCallback(None, Some(true))
    else if origin.value !in allowedOrigins then CorsCallback(Some(NotAllowed), Some(false))
    else CorsCallback(None, Some(true))
  }

  /** The two local development origins pass whatever the configured list holds. */
  lemma LocalOriginsAlwaysAllowed(allowedOrigins: seq<string>)
    ensures Allows(OriginDecision(Some("http://localhost:3000"), allowedOrigins))
    ensures Allows(OriginDecision(Some("http://localhost:5173"), allowedOrigins))
    ensures Allows(OriginDecision(None, allowedOrigins))
  {
  }

  /** Growing the configured list never blocks an origin that was allowed. */
  lemma AllowedOriginsMonotone(origin: Option<string>, smaller: seq<string>, larger: seq<string>)
    requires forall o :: o in smaller ==> o in larger
    requires Allows(OriginDecision(origin, smaller))
    ensures Allows(OriginDecision(origin, larger))
  {
  }
}
