/** The CORS policy of the chat function (`getCorsHeaders`): which origin
    the response allows, and which request headers. */
module Cors {
  import opened Json

  /** The exact-match allow-list; its first entry is the fallback origin. */
  const AllowedOrigins: seq<string> := [
    "https://dcidksgnduiiqrbfmcey.supabase.co",
    "http://localhost:5173",
    "http://localhost:3000",
    "https://lovable.dev"
  ]

  const DefaultOrigin: string := AllowedOrigins[0]

  /** Preview deployments: any origin with this suffix is allowed. */
  const PreviewSuffix: string := ".lovable.app"

  const AllowHeaders: string := "authorization, x-client-info, apikey, content-type"

  datatype CorsHeaders = CorsHeaders(allowOrigin: string, allowHeaders: string)

  /** JavaScript's `s.endsWith(suffix)`. */
  predicate EndsWith(s: string, suffix: string) {
    |suffix| <= |s| && s[|s| - |suffix|..] == suffix
  }

  predicate IsAllowedOrigin(origin: string) {
    origin in AllowedOrigins || EndsWith(origin, PreviewSuffix)
  }

  /** `req.headers.get("origin") || ""`: a missing header and an empty one
      both read as the empty string. */
  function OriginOf(header: Option<string>): (origin: string)
    ensures origin == "" <==> header.None? || header.value == ""
    ensures origin != "" ==> header == Some(origin)
  {
    if header.Some? then header.value else ""
  }

  /** The headers of every response. The allowed origin echoes the request's
      origin exactly when that origin is allowed, and otherwise falls back to
      the default; either way the response never names an origin outside the
      policy. */
  function GetCorsHeaders(origin: string): (h: CorsHeaders)
    ensures IsAllowedOrigin(h.allowOrigin)
    ensures h.allowOrigin == origin <==> IsAllowedOrigin(origin)
    ensures h.allowOrigin != origin ==> h.allowOrigin == DefaultOrigin
    ensures h.allowHeaders == AllowHeaders
  {
    var isLovableApp := EndsWith(origin, PreviewSuffix);
    var isAllowed := origin in AllowedOrigins || isLovableApp;
    CorsHeaders(if isAllowed then origin else AllowedOrigins[0], AllowHeaders)
  }

  /** Every preview subdomain, whatever its scheme and name, is echoed back. */
  lemma PreviewOriginEchoed(prefix: string)
    ensures GetCorsHeaders(prefix + PreviewSuffix).allowOrigin == prefix + PreviewSuffix
  {
  }

  /** A request without an Origin header gets the default origin. */
  lemma MissingOriginFallsBack()
    ensures GetCorsHeaders(OriginOf(None)).allowOrigin == DefaultOrigin
  {
  }

  /** The bare preview domain is not a preview subdomain: the suffix rule
      needs the leading dot, so this origin falls back. */
  lemma BarePreviewDomainFallsBack()
    ensures GetCorsHeaders("https://lovable.app").allowOrigin == DefaultOrigin
  {
  }
}
