/** The CORS configuration of the server: the list of allowed origins, built
    once from four fixed origins and the `CORS_ORIGIN` environment variable,
    and the decision on the `Origin` of a request. */
module Cors {
  import opened Strings

  const BuiltinOrigins: seq<string> := [
    "http://localhost:5173",
    "http://localhost:3000",
    "https://e3-hklckjlr3-chumbis-projects.vercel.app",
    "https://e3.vercel.app"
  ]

  /** `s.split(',').map(o => o.trim())`. */
  function TrimmedPieces(s: string): (r: seq<string>)
    ensures |r| == |Split(s, ',')|
    ensures forall i :: 0 <= i < |r| ==> r[i] == Trim(Split(s, ',')[i])
  {
    TrimAll(Split(s, ','))
  }

  function TrimAll(xs: seq<string>): (r: seq<string>)
    ensures |r| == |xs|
    ensures forall i :: 0 <= i < |r| ==> r[i] == Trim(xs[i])
  {
    if xs == [] then [] else [Trim(xs[0])] + TrimAll(xs[1..])
  }

  /** The module-level `allowedOrigins` array: the four fixed origins, to which
      the trimmed comma-separated pieces of `CORS_ORIGIN` are pushed when the
      variable is set and not empty. */
  class OriginList {
    var allowedOrigins: seq<string>

    constructor (corsOrigin: string)
      ensures allowedOrigins == BuiltinOrigins + (if corsOrigin != "" then TrimmedPieces(corsOrigin) else [])
    {
      allowedOrigins := BuiltinOrigins;
      if corsOrigin != "" {
        var origins := TrimmedPieces(corsOrigin);
        allowedOrigins := allowedOrigins + origins;
      }
    }
  }

  /** The variable adds one origin per comma-separated piece, after the fixed
      ones, and each is the piece without surrounding white space. */
  lemma ConfiguredOriginsAppended(corsOrigin: string)
    requires corsOrigin != ""
    ensures var list := BuiltinOrigins + TrimmedPieces(corsOrigin);
      list[..4] == BuiltinOrigins
      && |list| == 4 + |Split(corsOrigin, ',')|
      && forall i :: 4 <= i < |list| ==> list[i] == Trim(Split(corsOrigin, ',')[i - 4])
  {
  }

  /** A single origin without commas or surrounding white space is allowed as
      it is written. */
  lemma SingleConfiguredOrigin(origin: string)
    requires origin != "" && ',' !in origin && Trim(origin) == origin
    ensures TrimmedPieces(origin) == [origin]
  {
    SplitWithoutSeparator(origin, ',');
  }

  datatype Decision = Allow | Deny(message: string)

  /** The `origin` callback as written. An absent `Origin` header is the empty
      string. */
  function CheckOrigin(allowed: seq<string>, origin: string): (d: Decision)
    ensures d.Allow? <==> origin == "" || origin in allowed || Contains(origin, ".vercel.app")
    ensures d.Deny? ==> d.message == "Not allowed by CORS"
  {
    if origin == "" then Allow
    else if origin in allowed then Allow
    else if Contains(origin, ".vercel.app") then Allow
    else Deny("Not allowed by CORS")
  }

  /** The decision with the Vercel rule applied to the end of the origin, so
      that only hosts under `vercel.app` are admitted. */
  function CheckOriginFixed(allowed: seq<string>, origin: string): (d: Decision)
    ensures d.Allow? <==> origin == "" || origin in allowed || EndsWith(origin, ".vercel.app")
    ensures d.Deny? ==> d.message == "Not allowed by CORS"
  {
    if origin == "" then Allow
    else if origin in allowed then Allow
    else if EndsWith(origin, ".vercel.app") then Allow
    else Deny("Not allowed by CORS")
  }

  /** An origin whose host merely carries `.vercel.app` inside its name. */
  const ForeignOrigin: string := "https://e3" + ".vercel.app" + ".evil.example"

  /** The substring rule admits that foreign host. */
  lemma ForeignHostAdmitted()
    ensures CheckOrigin(BuiltinOrigins, ForeignOrigin).Allow?
  {
    ContainsInside("https://e3", ".vercel.app", ".evil.example");
  }

  /** The suffix rule denies it. */
  lemma ForeignHostDenied()
    ensures CheckOriginFixed(BuiltinOrigins, ForeignOrigin).Deny?
  {
    assert ForeignOrigin[|ForeignOrigin| - 1] == 'e';
  }

  /** The fixed rule admits no origin the written one denies, and it keeps
      every origin in the list, every Vercel deployment and the request
      without an origin. */
  lemma FixedRuleNarrows(allowed: seq<string>, origin: string)
    ensures CheckOriginFixed(allowed, origin).Allow? ==> CheckOrigin(allowed, origin).Allow?
    ensures origin in allowed ==> CheckOriginFixed(allowed, origin).Allow?
  {
    if EndsWith(origin, ".vercel.app") {
      EndsWithContains(origin, ".vercel.app");
    }
  }

  /** Every fixed origin and every configured one is admitted. */
  lemma ListedOriginsAdmitted(corsOrigin: string, origin: string)
    requires origin in BuiltinOrigins + (if corsOrigin != "" then TrimmedPieces(corsOrigin) else [])
    ensures CheckOriginFixed(BuiltinOrigins + (if corsOrigin != "" then TrimmedPieces(corsOrigin) else []), origin).Allow?
  {
  }
}
