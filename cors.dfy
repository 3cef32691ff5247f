/** The CORS option decision of the HTTP trigger (`corsOptionsDelegate`). */
module Cors {
  import opened Wrappers

  /** The three origins allowed to call the HTTP trigger, in the order the source lists them. */
  const Allowlist: seq<string> :=
    ["http://localhost:5173", "https://dev-runal.netlify.app", "https://runal.netlify.app"]

  const AllowedMethods: seq<string> := ["POST", "OPTIONS"]
  const AllowedHeaders: seq<string> := ["Content-Type"]

  /** The options object handed to the `cors` middleware. A field the source leaves
      out of the object literal is `None`. */
  datatype CorsOptions = CorsOptions(
    origin: bool,
    methods: Option<seq<string>>,
    allowedHeaders: Option<seq<string>>)

  /** `{ origin: true, methods: ['POST', 'OPTIONS'], allowedHeaders: ['Content-Type'] }` */
  const Permissive: CorsOptions := CorsOptions(true, Some(AllowedMethods), Some(AllowedHeaders))

  /** `{ origin: false }` */
  const Disabled: CorsOptions := CorsOptions(false, None, None)

  /** `Array.prototype.indexOf` with strict equality: the first position of `x`, or -1. */
  function IndexOf(s: seq<string>, x: string): (i: int)
    ensures -1 <= i < |s|
    ensures i == -1 <==> x !in s
    ensures 0 <= i ==> s[i] == x && forall j :: 0 <= j < i ==> s[j] != x
  {
    if |s| == 0 then -1
    else if s[0] == x then 0
    else
      var k := IndexOf(s[1..], x);
      if k == -1 then -1 else k + 1
  }

  /** The options chosen for a request whose `Origin` header is `origin` (`None` when the
      header is missing: `indexOf(undefined)` is -1 on a list of strings). The callback is
      always called with a null error, so only the options are modelled. */
  function CorsOptionsFor(origin: Option<string>): (opts: CorsOptions)
    ensures opts.origin <==> origin.Some? && origin.value in Allowlist
    ensures opts.origin ==> opts == Permissive
    ensures !opts.origin ==> opts == Disabled
  {
    match origin
    case None => Disabled
    case Some(o) => if IndexOf(Allowlist, o) != -1 then Permissive else Disabled
  }

  /** The allowlist is exactly the three literal origins: any other string, and a missing
      header, gets `{ origin: false }`. */
  lemma AllowedOriginsExactly(origin: Option<string>)
    ensures CorsOptionsFor(origin) == Permissive <==>
      origin == Some("http://localhost:5173") ||
      origin == Some("https://dev-runal.netlify.app") ||
      origin == Some("https://runal.netlify.app")
    ensures CorsOptionsFor(origin) != Permissive ==> CorsOptionsFor(origin) == Disabled
  {
  }
}
