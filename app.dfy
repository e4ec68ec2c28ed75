/** The backend application's own rules: which browser origins CORS admits,
    built from the comma-separated `CLIENT_ORIGIN` setting, and how a
    request that no route handles, or whose handler throws, is answered. */
module App {
  import opened Base
  import opened Strings
  import opened Js

  // ---------------------------------------------------------------------
  // the allowed origins

  /** `.filter(Boolean)` on strings: the non-empty ones, in order. */
  function NonEmpty(s: seq<string>): (r: seq<string>)
    ensures |r| <= |s|
    ensures forall x :: x in r <==> x in s && x != ""
  {
    if s == [] then []
    else if s[0] == "" then NonEmpty(s[1..])
    else [s[0]] + NonEmpty(s[1..])
  }

  /** Without empty entries the filter keeps everything. */
  lemma {:induction false} NonEmptyKeeps(s: seq<string>)
    requires forall k :: 0 <= k < |s| ==> s[k] != ""
    ensures NonEmpty(s) == s
  {
    if s != [] {
      NonEmptyKeeps(s[1..]);
    }
  }

  /** `.map((o) => o.trim())` */
  function TrimAll(s: seq<string>): (r: seq<string>)
    ensures |r| == |s| && forall k :: 0 <= k < |s| ==> r[k] == Trim(s[k])
  {
    seq(|s|, k requires 0 <= k < |s| => Trim(s[k]))
  }

  /** `(CLIENT_ORIGIN || '').split(',').map(trim).filter(Boolean)`; an
      unset setting is `None`. */
  function AllowedOrigins(env: Option<string>): (r: seq<string>)
    ensures env.None? || env == Some("") ==> r == []
    ensures forall o :: o in r ==> o != "" && ',' !in o && Trim(o) == o
    ensures env.Some? ==> forall o :: o in r <==> o != "" && o in TrimAll(Split(env.value, ','))
  {
    var text := if env.None? then "" else env.value;
    var parts := Split(text, ',');
    TrimmedClean(parts, ',');
    SplitEmpty(',');
    NonEmpty(TrimAll(parts))
  }

  /** Trimmed pieces without the separator have neither the separator nor
      whitespace to trim. */
  lemma TrimmedClean(parts: seq<string>, sep: char)
    requires forall k :: 0 <= k < |parts| ==> sep !in parts[k]
    ensures forall o :: o in TrimAll(parts) ==> sep !in o && Trim(o) == o
  {
    forall k | 0 <= k < |parts|
      ensures sep !in Trim(parts[k]) && Trim(Trim(parts[k])) == Trim(parts[k])
    {
      TrimKeepsAbsent(parts[k], sep);
      TrimIdempotent(parts[k]);
    }
  }

  lemma TrimKeepsAbsent(p: string, sep: char)
    requires sep !in p
    ensures sep !in Trim(p)
  {
    TrimShape(p);
    var k := |p| - |TrimStart(p)|;
    InfixAbsent(p, k, k + |Trim(p)|, sep);
  }

  lemma InfixAbsent(p: string, i: int, j: int, sep: char)
    requires sep !in p && 0 <= i <= j <= |p|
    ensures sep !in p[i..j]
  {
    forall n | 0 <= n < j - i
      ensures p[i..j][n] != sep
    {
      assert p[i..j][n] == p[i + n];
    }
  }

  lemma SplitEmpty(sep: char)
    ensures Split("", sep) == [""]
  {
    assert IndexOf("", sep) == 0;
  }

  /** A list of clean origins (non-empty, no surrounding whitespace, no
      comma) written out with commas is read back as that very list. */
  lemma AllowedOriginsOfList(origins: seq<string>)
    requires |origins| >= 1
    requires forall k :: 0 <= k < |origins| ==> origins[k] != "" && ',' !in origins[k] && Trim(origins[k]) == origins[k]
    ensures AllowedOrigins(Some(Join(origins, ','))) == origins
  {
    SplitJoin(origins, ',');
    var parts := Split(Join(origins, ','), ',');
    assert TrimAll(parts) == origins;
    NonEmptyKeeps(origins);
  }

  /** The CORS `origin` callback: no origin, an empty list, or an origin
      that is exactly in the list is admitted. */
  predicate CorsAllows(allowed: seq<string>, origin: Option<string>) {
    origin.None? || origin.value == "" || |allowed| == 0 || origin.value in allowed
  }

  /** Unset, every origin is admitted; set to a list of clean origins, an
      origin is admitted exactly when it is one of them, so a padded or
      differently cased spelling is refused. */
  lemma CorsDecision(origins: seq<string>, origin: string)
    requires |origins| >= 1
    requires forall k :: 0 <= k < |origins| ==> origins[k] != "" && ',' !in origins[k] && Trim(origins[k]) == origins[k]
    ensures CorsAllows(AllowedOrigins(None), Some(origin))
    ensures CorsAllows(AllowedOrigins(Some(Join(origins, ','))), Some(origin)) <==> origin == "" || origin in origins
  {
    AllowedOriginsOfList(origins);
  }

  // ---------------------------------------------------------------------
  // answering

  /** What a thrown error carries: its `status` and `message` properties. */
  datatype Thrown = Thrown(status: Value, message: Value)

  /** The status and the message of the JSON body sent back. */
  datatype Reply = Reply(status: Value, message: Value)

  /** How a request ended in the route stack: replied, or threw. */
  datatype Handled = Replied(reply: Reply) | Raised(error: Thrown)

  /** The error a refused origin raises; it has no status. */
  function CorsError(allowed: seq<string>, origin: Option<string>): (r: Option<Thrown>)
    ensures r.None? <==> CorsAllows(allowed, origin)
  {
    if CorsAllows(allowed, origin) then None else Some(Thrown(Undefined, Str("Not allowed by CORS")))
  }

  /** The last two handlers: 404 when no route handled the request, and
      for an error its status or else 500, with its message or else a
      generic one. */
  function Respond(handled: Option<Handled>): (r: Reply)
    ensures handled.None? ==> r == Reply(Num(404.0), Str("Resource not found"))
    ensures handled.Some? && handled.value.Replied? ==> r == handled.value.reply
    ensures handled.Some? && handled.value.Raised? ==>
              var e := handled.value.error;
              (Falsy(e.status) ==> r.status == Num(500.0)) && (!Falsy(e.status) ==> r.status == e.status)
              && (Falsy(e.message) ==> r.message == Str("Internal server error"))
              && (!Falsy(e.message) ==> r.message == e.message)
  {
    match handled
    case None => Reply(Num(404.0), Str("Resource not found"))
    case Some(Replied(reply)) => reply
    case Some(Raised(e)) => Reply(Or(e.status, Num(500.0)), Or(e.message, Str("Internal server error")))
  }

  /** An `HttpError` thrown by a rule reaches the client with its own
      status and message; a refused origin is answered 500. */
  lemma ErrorsReachClient(e: HttpError, allowed: seq<string>, origin: Option<string>)
    requires e.status != 0 && e.message != ""
    ensures Respond(Some(Raised(Thrown(Num(e.status as real), Str(e.message))))) == Reply(Num(e.status as real), Str(e.message))
    ensures !CorsAllows(allowed, origin) ==>
              Respond(Some(Raised(CorsError(allowed, origin).value))) == Reply(Num(500.0), Str("Not allowed by CORS"))
  {
  }
}
