/** The CORS headers the worker puts on every response: three fixed
    headers and an Access-Control-Allow-Origin chosen from an allow-list. */
module Cors {
  import opened Js

  /** A response's headers, name to value, as the worker's plain objects. */
  type Headers = map<string, string>

  const AllowOrigin := "Access-Control-Allow-Origin"
  const AllowMethods := "Access-Control-Allow-Methods"
  const AllowHeaders := "Access-Control-Allow-Headers"
  const MaxAge := "Access-Control-Max-Age"

  /** CORS_HEADERS: the template every response's headers are copied from. */
  const Template: Headers := map[
    AllowOrigin := "",
    AllowMethods := "POST, OPTIONS",
    AllowHeaders := "Content-Type",
    MaxAge := "86400"
  ]

  /** The origins echoed back: the deployment's configured origin
      (env.ALLOWED_ORIGIN) and two fixed ones. */
  function AllowedOrigins(configured: string): seq<string>
  {
    [configured, "https://www.aieducator.kevinkeet.com", "http://localhost:8000"]
  }

  /** getCorsHeaders: the template with Allow-Origin set to the request's
      Origin header (missing counts as "") when that origin is allowed, and
      to the configured origin otherwise. */
  function CorsHeaders(origin: Option<string>, configured: string): (h: Headers)
    ensures h.Keys == Template.Keys
    ensures forall k :: k in h && k != AllowOrigin ==> h[k] == Template[k]
    ensures AllowOrigin in h && h[AllowOrigin] in AllowedOrigins(configured)
    ensures var o := OrElse(origin, "");
            o in AllowedOrigins(configured) ==> h[AllowOrigin] == o
    ensures var o := OrElse(origin, "");
            o !in AllowedOrigins(configured) ==> h[AllowOrigin] == configured
  {
    var o := OrElse(origin, "");
    Template[AllowOrigin := if o in AllowedOrigins(configured) then o else configured]
  }

  /** A response never names an origin outside the allow-list, whatever the
      request claims, and an allowed origin is never replaced. */
  lemma AllowOriginIsEchoedOnlyIfAllowed(origin: string, configured: string)
    ensures CorsHeaders(Some(origin), configured)[AllowOrigin] == origin
            <==> origin in AllowedOrigins(configured)
  {
  }
}
