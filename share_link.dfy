/**
 * The shareable dashboard link: `ShareLinkModal` builds a token from the
 * dashboard id, the access type, the expiry choice and the creation time;
 * `SharedAnalyticsDashboard` decodes it, checks its fields and its age, and
 * shows the dashboard or an error followed by a redirect home.
 *
 * The token is base64 (section 4 of RFC 4648) of the percent-encoding
 * (section 2.1 of RFC 3986, `encodeURIComponent`) of the JSON text
 * (RFC 8259) of the payload. The three conversions are parameters, together
 * with JavaScript's string-to-number conversion; `Lawful` states what the
 * real ones guarantee. The clock is the `now` parameter.
 */
module ShareLink {
  import opened Wrappers
  import Text

  // ---------------------------------------------------------------- JSON values

  /** A JSON value as JavaScript holds it; an object or array is kept as the text its string conversion gives. */
  datatype Json = JNull | JBool(b: bool) | JNum(n: real) | JStr(s: string) | JObject(text: string)

  /** A parsed JSON object: its members by name. */
  type Object = map<string, Json>

  /** The falsy JSON values: `null`, `false`, `0` and `""`. */
  predicate Falsy(v: Json) {
    v == JNull || v == JBool(false) || v == JNum(0.0) || v == JStr("")
  }

  /** `obj.key` is truthy: the member exists and is not falsy. */
  predicate Present(o: Object, key: string) {
    key in o && !Falsy(o[key])
  }

  /**
   * The conversions a token passes through. `parse` is None when the text is
   * not JSON or its value is not an object; `decodeUri` is None on a
   * malformed escape; `btoa` is None when a character is beyond U+00FF and
   * `atob` on text that is not base64; `toNumber` is `Number(text)`, None for NaN.
   */
  datatype Platform = Platform(stringify: Object -> string, parse: string -> Option<Object>,
                               encodeUri: string -> string, decodeUri: string -> Option<string>,
                               btoa: string -> Option<string>, atob: string -> Option<string>,
                               toNumber: string -> Option<real>)

  /**
   * What the real conversions guarantee: each decoder inverts its encoder,
   * no encoder empties its input, and `btoa` accepts whatever percent-encoding
   * yields (which is ASCII).
   */
  ghost predicate Lawful(p: Platform) {
    && (forall o :: p.parse(p.stringify(o)) == Some(o))
    && (forall o :: |p.stringify(o)| > 0)
    && (forall s :: p.decodeUri(p.encodeUri(s)) == Some(s))
    && (forall s :: |s| > 0 ==> |p.encodeUri(s)| > 0)
    && (forall s :: p.btoa(p.encodeUri(s)).Some?)
    && (forall s :: p.btoa(s).Some? ==> p.atob(p.btoa(s).value) == Some(s))
    && (forall s :: |s| > 0 && p.btoa(s).Some? ==> |p.btoa(s).value| > 0)
  }

  // ---------------------------------------------------------------- building a link (ShareLinkModal)

  datatype Access = View | Edit

  function AccessText(a: Access): string {
    match a
    case View => "view"
    case Edit => "edit"
  }

  /** The expiry choices the modal offers. */
  const Offered: seq<string> := ["never", "1d", "7d", "30d"]

  const MissingIdError := "Dashboard ID is required"
  const GenerateError := "Failed to generate share link. Please try again."
  const SharedPath := "/analytics/shared/"

  /** `tokenData`: exactly the four members, the time as a JSON number. */
  function TokenData(id: string, access: Access, expires: string, timestamp: int): (o: Object)
    ensures o.Keys == {"id", "access", "expires", "timestamp"}
    ensures o["id"] == JStr(id) && o["access"] == JStr(AccessText(access))
    ensures o["expires"] == JStr(expires) && o["timestamp"] == JNum(timestamp as real)
  {
    map["id" := JStr(id), "access" := JStr(AccessText(access)), "expires" := JStr(expires),
        "timestamp" := JNum(timestamp as real)]
  }

  /** `btoa(encodeURIComponent(JSON.stringify(o)))`; None when `btoa` throws. */
  function Token(p: Platform, o: Object): Option<string> {
    p.btoa(p.encodeUri(p.stringify(o)))
  }

  /** `decodeURIComponent(atob(token))` parsed as JSON; None when any step throws or the value is not an object. */
  function Decoded(p: Platform, token: string): Option<Object> {
    match p.atob(token)
    case None => None
    case Some(uri) =>
      match p.decodeUri(uri)
      case None => None
      case Some(text) => p.parse(text)
  }

  /** A token can always be built, is never empty, and decodes to the object it was built from. */
  lemma TokenRoundTrip(p: Platform, o: Object)
    requires Lawful(p)
    ensures match Token(p, o)
            case Some(t) => |t| > 0 && Decoded(p, t) == Some(o)
            case None => false
  {
    var text := p.stringify(o);
    var uri := p.encodeUri(text);
    assert p.btoa(uri).Some?;
    var t := p.btoa(uri).value;
    assert |t| > 0;
    assert p.atob(t) == Some(uri);
    assert p.decodeUri(uri) == Some(text);
    assert p.parse(text) == Some(o);
    DecodedSteps(p, t, uri, text);
    assert Token(p, o) == Some(t);
  }

  /** Decoding runs the three steps in turn. */
  lemma DecodedSteps(p: Platform, token: string, uri: string, text: string)
    requires p.atob(token) == Some(uri) && p.decodeUri(uri) == Some(text)
    ensures Decoded(p, token) == p.parse(text)
  {
  }

  function Link(origin: string, token: string): (r: string)
    ensures |r| == |origin| + |SharedPath| + |token|
    ensures r[..|origin|] == origin && r[|origin|..|origin| + |SharedPath|] == SharedPath
    ensures r[|origin| + |SharedPath|..] == token
  {
    origin + SharedPath + token
  }

  /** The modal's state. */
  class ShareLinkModal {
    var accessType: Access
    var expiresIn: string
    var isGenerating: bool
    var error: Option<string>
    var shareLink: Option<string>

    constructor ()
      ensures accessType == View && expiresIn == "never" && !isGenerating && error.None? && shareLink.None?
    {
      accessType, expiresIn, isGenerating, error, shareLink := View, "never", false, None, None;
    }

    /** `generateShareLink` for `dashboardId` at time `now`, on a page served from `origin`. */
    method GenerateShareLink(dashboardId: string, origin: string, now: int, p: Platform)
      modifies this
      ensures accessType == old(accessType) && expiresIn == old(expiresIn)
      ensures dashboardId == "" ==>
                error == Some(MissingIdError) && shareLink == old(shareLink) && isGenerating == old(isGenerating)
      ensures dashboardId != "" ==>
                !isGenerating &&
                match Token(p, TokenData(dashboardId, accessType, expiresIn, now))
                case Some(t) => error.None? && shareLink == Some(Link(origin, t))
                case None => error == Some(GenerateError) && shareLink == old(shareLink)
    {
      if dashboardId == "" {
        error := Some(MissingIdError);
        return;
      }
      isGenerating := true;
      error := None;
      var data := TokenData(dashboardId, accessType, expiresIn, now);
      match Token(p, data) {
        case Some(t) =>
          shareLink := Some(Link(origin, t));
        case None =>
          error := Some(GenerateError);
      }
      isGenerating := false;
    }

    /**
     * `setAccessType(a)` and the effect that follows it: when the choice
     * changes while the modal is open on a dashboard, the effect on
     * `[isOpen, dashboardId, accessType, expiresIn]` regenerates the link.
     */
    method SetAccessType(a: Access, isOpen: bool, dashboardId: string, origin: string, now: int, p: Platform)
      modifies this
      ensures accessType == a && expiresIn == old(expiresIn)
      ensures a == old(accessType) || !isOpen || dashboardId == "" ==>
                isGenerating == old(isGenerating) && error == old(error) && shareLink == old(shareLink)
      ensures a != old(accessType) && isOpen && dashboardId != "" ==>
                !isGenerating &&
                match Token(p, TokenData(dashboardId, a, expiresIn, now))
                case Some(t) => error.None? && shareLink == Some(Link(origin, t))
                case None => error == Some(GenerateError) && shareLink == old(shareLink)
    {
      var changed := a != accessType;
      accessType := a;
      if changed && isOpen && dashboardId != "" {
        GenerateShareLink(dashboardId, origin, now, p);
      }
    }

    /** `setExpiresIn(e)` and the same regenerating effect. */
    method SetExpiresIn(e: string, isOpen: bool, dashboardId: string, origin: string, now: int, p: Platform)
      modifies this
      ensures expiresIn == e && accessType == old(accessType)
      ensures e == old(expiresIn) || !isOpen || dashboardId == "" ==>
                isGenerating == old(isGenerating) && error == old(error) && shareLink == old(shareLink)
      ensures e != old(expiresIn) && isOpen && dashboardId != "" ==>
                !isGenerating &&
                match Token(p, TokenData(dashboardId, accessType, e, now))
                case Some(t) => error.None? && shareLink == Some(Link(origin, t))
                case None => error == Some(GenerateError) && shareLink == old(shareLink)
    {
      var changed := e != expiresIn;
      expiresIn := e;
      if changed && isOpen && dashboardId != "" {
        GenerateShareLink(dashboardId, origin, now, p);
      }
    }
  }

  // ---------------------------------------------------------------- checking a link (SharedAnalyticsDashboard)

  /** Milliseconds in a day. */
  const Day: nat := 24 * 60 * 60 * 1000

  /** `getExpirationTime`: the strict comparison matches only the three strings. */
  function ExpirationTime(expires: Json): (d: nat)
    ensures expires == JStr("1d") ==> d == Day
    ensures expires == JStr("7d") ==> d == 7 * Day
    ensures expires == JStr("30d") ==> d == 30 * Day
    ensures expires != JStr("1d") && expires != JStr("7d") && expires != JStr("30d") ==> d == 0
  {
    if expires == JStr("1d") then Day
    else if expires == JStr("7d") then 7 * Day
    else if expires == JStr("30d") then 30 * Day
    else 0
  }

  /** What JavaScript's `+` gives: a number, or a string when either side converts to one. */
  datatype Sum = Numeric(x: real) | Concatenated(s: string)

  /** `timestamp + duration`: numbers and booleans add (null counts 0), strings and objects concatenate the duration's digits. */
  function PlusDuration(v: Json, d: nat): (r: Sum)
    ensures v.JNum? ==> r == Numeric(v.n + d as real)
  {
    match v
    case JNull => Numeric(d as real)
    case JBool(b) => Numeric((if b then 1.0 else 0.0) + d as real)
    case JNum(n) => Numeric(n + d as real)
    case JStr(s) => Concatenated(s + Text.NatToString(d))
    case JObject(t) => Concatenated(t + Text.NatToString(d))
  }

  /** `now > sum`: a string is converted to a number first, and NaN compares false. */
  function After(now: int, sum: Sum, toNumber: string -> Option<real>): bool {
    match sum
    case Numeric(x) => now as real > x
    case Concatenated(s) =>
      match toNumber(s)
      case None => false
      case Some(x) => now as real > x
  }

  /** What an accepted link shows: `{id, accessType: access, expiresIn: expires}`. */
  datatype Shared = Shared(id: Json, accessType: Json, expiresIn: Json)

  /** The four members `validateShareToken` requires to be truthy. */
  predicate WellFormed(o: Object) {
    Present(o, "id") && Present(o, "access") && Present(o, "expires") && Present(o, "timestamp")
  }

  /** The age check: a token that does not say `never` is too old once `now` is past its time plus its duration. */
  predicate Expired(o: Object, now: int, p: Platform)
    requires WellFormed(o)
  {
    o["expires"] != JStr("never") && After(now, PlusDuration(o["timestamp"], ExpirationTime(o["expires"])), p.toNumber)
  }

  /**
   * `validateShareToken` at time `now`: None is the thrown error (no token,
   * undecodable, malformed or expired), Some the dashboard data.
   */
  function Validate(token: Option<string>, now: int, p: Platform): (r: Option<Shared>)
    ensures token.None? || token == Some("") ==> r.None?
    ensures r.Some? <==> token.Some? && token.value != "" && Decoded(p, token.value).Some?
                         && WellFormed(Decoded(p, token.value).value)
                         && !Expired(Decoded(p, token.value).value, now, p)
    ensures r.Some? ==> var o := Decoded(p, token.value).value;
                        r.value == Shared(o["id"], o["access"], o["expires"])
  {
    if token.None? || token.value == "" then None
    else
      match Decoded(p, token.value)
      case None => None
      case Some(o) =>
        if !WellFormed(o) then None
        else if Expired(o, now, p) then None
        else Some(Shared(o["id"], o["access"], o["expires"]))
  }

  const InvalidLinkError := "This share link is invalid or has expired"
  const RedirectDelay: nat := 3000

  /** A navigation scheduled with `setTimeout`. */
  datatype Redirect = Redirect(path: string, afterMs: nat)

  /** The shared dashboard page's state. */
  class SharedDashboard {
    var isLoading: bool
    var error: Option<string>
    var dashboardData: Option<Shared>
    var redirect: Option<Redirect>

    constructor ()
      ensures isLoading && error.None? && dashboardData.None? && redirect.None?
    {
      isLoading, error, dashboardData, redirect := true, None, None, None;
    }

    /** The validation effect for the route's `token` at time `now`. */
    method ValidateShareToken(token: Option<string>, now: int, p: Platform)
      modifies this
      ensures !isLoading
      ensures Validate(token, now, p).Some? ==>
                error.None? && dashboardData == Validate(token, now, p) && redirect == old(redirect)
      ensures Validate(token, now, p).None? ==>
                error == Some(InvalidLinkError) && dashboardData == old(dashboardData)
                && redirect == Some(Redirect("/", RedirectDelay))
    {
      isLoading := true;
      error := None;
      var r := Validate(token, now, p);
      if r.Some? {
        dashboardData := r;
      } else {
        error := Some(InvalidLinkError);
        redirect := Some(Redirect("/", RedirectDelay));
      }
      isLoading := false;
    }
  }

  // ---------------------------------------------------------------- what the two halves promise together

  /** Every expiry the modal offers is `never` or one that `getExpirationTime` knows. */
  lemma OfferedRecognised()
    ensures forall k :: 0 <= k < |Offered| ==> Offered[k] == "never" || ExpirationTime(JStr(Offered[k])) > 0
  {
    forall k | 0 <= k < |Offered|
      ensures Offered[k] == "never" || ExpirationTime(JStr(Offered[k])) > 0
    {
      if k == 1 { assert ExpirationTime(JStr("1d")) == Day; }
      else if k == 2 { assert ExpirationTime(JStr("7d")) == 7 * Day; }
      else if k == 3 { assert ExpirationTime(JStr("30d")) == 30 * Day; }
    }
  }

  /** A token whose four members are truthy and whose expiry is `never` passes the age check at any time. */
  lemma NeverExpires(o: Object, now: int, p: Platform)
    requires WellFormed(o) && o["expires"] == JStr("never")
    ensures !Expired(o, now, p)
  {
  }

  /** With a numeric timestamp, a token is too old exactly when `now` is past its time plus its duration: the boundary itself is accepted. */
  lemma ExpiryBoundary(o: Object, now: int, p: Platform)
    requires WellFormed(o) && o["expires"] != JStr("never") && o["timestamp"].JNum?
    ensures Expired(o, now, p) <==> now as real > o["timestamp"].n + ExpirationTime(o["expires"]) as real
  {
  }

  /** A member that is missing or falsy makes the link invalid, whatever the time. */
  lemma FalsyRejected(token: string, now: int, p: Platform, key: string)
    requires key in {"id", "access", "expires", "timestamp"}
    requires Decoded(p, token).Some? && !Present(Decoded(p, token).value, key)
    ensures Validate(Some(token), now, p).None?
  {
  }

  /**
   * A link the modal generated at `created` is accepted at `now` exactly
   * when its expiry is `never` or `now` is at most `created` plus the
   * expiry's duration, and it then shows the id, access type and expiry it
   * was built with. The token is any that decodes to the modal's payload,
   * which by `TokenRoundTrip` every token the modal builds does. (A creation
   * time of 0 would be falsy and is excluded.)
   */
  lemma GeneratedLinkAccepted(p: Platform, t: string, id: string, access: Access, expires: string, created: int, now: int)
    requires |t| > 0 && Decoded(p, t) == Some(TokenData(id, access, expires, created))
    requires id != "" && expires in Offered && created != 0
    ensures Validate(Some(t), now, p).Some?
            <==> expires == "never" || now <= created + ExpirationTime(JStr(expires))
    ensures Validate(Some(t), now, p).Some? ==>
            Validate(Some(t), now, p).value == Shared(JStr(id), JStr(AccessText(access)), JStr(expires))
  {
    var o := TokenData(id, access, expires, created);
    assert AccessText(access) != "";
    assert expires != "";
    assert WellFormed(o);
    if expires != "never" {
      ExpiryBoundary(o, now, p);
    }
  }
}
