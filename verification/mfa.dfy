/**
 * The MFA orchestration client: its configuration, its session state, and the
 * five operations `token`, `challenge`, `enroll`, `start` and `complete`.
 *
 * The identity provider is a finite script of responses; every POST the client
 * issues is appended to a request log and consumes the next response. When the
 * script is exhausted the request is still logged but no answer ever comes, so
 * the operation stays `Pending` (a promise that never settles).
 */
module Mfa {
  import opened Wrappers
  import opened JsValues

  // ---------------------------------------------------------------------------
  // Configuration
  // ---------------------------------------------------------------------------

  /** The configured challenge type is a free string; only "oob" and "otp" select a branch. */
  datatype ChallengeType = Oob | Otp | Other(name: string)

  /** The branch a configured challenge-type string selects (strict equality). */
  function KindOf(name: string): (t: ChallengeType)
    ensures NameOf(t) == name
    ensures t.Other? <==> name != "oob" && name != "otp"
  {
    if name == "oob" then Oob else if name == "otp" then Otp else Other(name)
  }

  /** The string a challenge type is configured as. */
  function NameOf(t: ChallengeType): string
  {
    match t
    case Oob => "oob"
    case Otp => "otp"
    case Other(n) => n
  }

  /** The constructor's `options` argument, treated as immutable. */
  datatype Options = Options(
    challengeType: string,
    oobChannels: seq<string>,
    authenticatorTypes: seq<string>,
    grantType: string)

  /** `mfaDefaultOptions`. */
  const DefaultOptions: Options :=
    Options("oob", ["sms"], ["oob"], "http://auth0.com/oauth/grant-type/mfa-oob")

  /**
   * A client instance. `isEnrolled` is the method `enroll` finds on the instance
   * when it calls `this.isEnrolled(error)`; `New` installs the class's own.
   */
  datatype Client = Client(
    clientId: string,
    options: Options,
    isEnrolled: JsObject -> Completion<bool>)

  /** The constructor: the instance's configuration and its own `isEnrolled`. */
  function New(clientId: string, options: Options): (c: Client)
    ensures c.clientId == clientId && c.options == options
    ensures forall o :: c.isEnrolled(o) == IsEnrolled(o)
  {
    Client(clientId, options, IsEnrolled)
  }

  // ---------------------------------------------------------------------------
  // Session state, provider responses, requests and results
  // ---------------------------------------------------------------------------

  datatype Session = Session(mfaToken: Scalar, phoneNumber: Scalar, otp: Scalar, oobCode: Scalar)

  /** The session right after construction: every field is `null`. */
  const Unstarted: Session := Session(Null, Null, Null, Null)

  /** A successful response body. */
  datatype Payload = Payload(fields: JsObject)

  /**
   * The `error` of an error body. `post` settles only when it is truthy, so it
   * is never empty; a body without one leaves the promise pending forever and
   * has no place in a script.
   */
  type ErrorCode = n: string | n != "" witness "e"

  /** One provider answer: a JSON body, or an error with its `error` and `error_description`. */
  datatype Response = Data(payload: Payload) | Error(name: ErrorCode, description: string)

  datatype Endpoint = OAuthToken | MfaChallenge | MfaAssociate

  /** A request as the client builds it: target, body object and optional `Authorization` value. */
  datatype Request = Request(endpoint: Endpoint, body: map<string, Value>, bearer: Option<string>)

  /** The `data` property of a result envelope. */
  datatype Datum = NullData | UndefinedData | Body(payload: Payload)

  /** The `{data, error}` object an operation resolves to. */
  datatype Envelope = Envelope(data: Datum, error: Scalar)

  /** How an operation's promise ends. */
  datatype Settlement = Fulfilled(env: Envelope) | Rejected(reason: string) | Pending

  /** The outcome of an operation with the session, the unread responses and the log after it. */
  datatype Step = Step(outcome: Settlement, session: Session, script: seq<Response>, log: seq<Request>)

  const AssociationRequired: string := "association_required"
  const AccessDenied: string := "access_denied"
  const PhoneRequired: string := "phone number is required"

  /** The TypeError `description.includes` raises when `description` is `null` or `undefined`. */
  function CannotReadIncludes(description: Scalar): string
  {
    "TypeError: Cannot read properties of " + Display(description) + " (reading 'includes')"
  }

  /** The error object `post` resolves with: `{name, description}`. */
  function PostError(name: string, description: string): JsObject
  {
    map["name" := Str(name), "description" := Str(description)]
  }

  predicate Succeeded(o: Settlement)
  {
    o.Fulfilled? && o.env.data.Body?
  }

  /** Enrolment needs a phone number: out-of-band with an SMS or voice channel. */
  predicate NeedsPhone(o: Options)
  {
    KindOf(o.challengeType) == Oob && ("voice" in o.oobChannels || "sms" in o.oobChannels)
  }

  predicate PhoneMissing(o: Options, s: Session)
  {
    NeedsPhone(o) && !Truthy(s.phoneNumber)
  }

  // ---------------------------------------------------------------------------
  // Request bodies
  // ---------------------------------------------------------------------------

  /** The body of the token exchange. */
  function TokenBody(c: Client, s: Session): (b: map<string, Value>)
    ensures "client_id" in b && b["client_id"] == Atom(Str(c.clientId))
    ensures "grant_type" in b && b["grant_type"] == Atom(Str(c.options.grantType))
    ensures "mfa_token" in b && b["mfa_token"] == Atom(s.mfaToken)
    ensures "challenge_type" in b && b["challenge_type"] == Atom(Str(c.options.challengeType))
    ensures ("oob_code" in b) == (KindOf(c.options.challengeType) == Oob)
    ensures ("binding_code" in b) == (KindOf(c.options.challengeType) == Oob)
    ensures ("otp" in b) == (KindOf(c.options.challengeType) == Otp)
    ensures "oob_code" in b ==> b["oob_code"] == Atom(s.oobCode) && b["binding_code"] == Atom(s.otp)
    ensures "otp" in b ==> b["otp"] == Atom(s.otp)
    ensures !("otp" in b && "oob_code" in b)
    ensures b.Keys <= {"client_id", "grant_type", "mfa_token", "challenge_type", "oob_code", "binding_code", "otp"}
  {
    var input := map[
      "client_id" := Atom(Str(c.clientId)),
      "grant_type" := Atom(Str(c.options.grantType)),
      "mfa_token" := Atom(s.mfaToken),
      "challenge_type" := Atom(Str(c.options.challengeType))];
    match KindOf(c.options.challengeType)
    case Oob => input["oob_code" := Atom(s.oobCode)]["binding_code" := Atom(s.otp)]
    case Otp => input["otp" := Atom(s.otp)]
    case Other(_) => input
  }

  function TokenRequest(c: Client, s: Session): Request
  {
    Request(OAuthToken, TokenBody(c, s), None)
  }

  /** The body of a challenge request. */
  function ChallengeBody(c: Client, s: Session): (b: map<string, Value>)
    ensures b.Keys == {"client_id", "mfa_token", "challenge_type"}
    ensures b["client_id"] == Atom(Str(c.clientId))
    ensures b["mfa_token"] == Atom(s.mfaToken)
    ensures b["challenge_type"] == Atom(Str(c.options.challengeType))
  {
    map[
      "client_id" := Atom(Str(c.clientId)),
      "mfa_token" := Atom(s.mfaToken),
      "challenge_type" := Atom(Str(c.options.challengeType))]
  }

  function ChallengeRequest(c: Client, s: Session): Request
  {
    Request(MfaChallenge, ChallengeBody(c, s), None)
  }

  /** The body of an association request (only built once the phone check has passed). */
  function EnrollBody(c: Client, s: Session): (b: map<string, Value>)
    ensures "client_id" in b && b["client_id"] == Atom(Str(c.clientId))
    ensures "authenticator_types" in b && b["authenticator_types"] == List(c.options.authenticatorTypes)
    ensures ("oob_channels" in b) == (KindOf(c.options.challengeType) == Oob)
    ensures "oob_channels" in b ==> b["oob_channels"] == List(c.options.oobChannels)
    ensures ("phone_number" in b) == NeedsPhone(c.options)
    ensures "phone_number" in b ==> b["phone_number"] == Atom(s.phoneNumber)
    ensures b.Keys <= {"client_id", "authenticator_types", "oob_channels", "phone_number"}
  {
    var o := c.options;
    var input := map[
      "client_id" := Atom(Str(c.clientId)),
      "authenticator_types" := List(o.authenticatorTypes)];
    match KindOf(o.challengeType)
    case Oob =>
      var input := input["oob_channels" := List(o.oobChannels)];
      if "voice" in o.oobChannels || "sms" in o.oobChannels
      then input["phone_number" := Atom(s.phoneNumber)]
      else input
    case _ => input
  }

  /** `Bearer ${mfaToken}`. */
  function Bearer(s: Session): string
  {
    "Bearer " + Display(s.mfaToken)
  }

  function EnrollRequest(c: Client, s: Session): Request
  {
    Request(MfaAssociate, EnrollBody(c, s), Some(Bearer(s)))
  }

  // ---------------------------------------------------------------------------
  // The "already enrolled" recogniser
  // ---------------------------------------------------------------------------

  /**
   * The class's `isEnrolled(data)`: reads `data.error` and `data.description`;
   * `description.includes` throws when `description` is not a string.
   */
  function IsEnrolled(x: JsObject): (r: Completion<bool>)
    ensures r == Normal(true) <==>
      && Get(x, "error") == Str(AccessDenied)
      && Get(x, "description").Str?
      && IsSubstring("already", Get(x, "description").s)
      && IsSubstring("enrolled", Get(x, "description").s)
    ensures r.Throw? <==> Get(x, "error") == Str(AccessDenied) && !Get(x, "description").Str?
    ensures r.Throw? ==> r.reason == CannotReadIncludes(Get(x, "description"))
  {
    var error := Get(x, "error");
    var description := Get(x, "description");
    if error != Str(AccessDenied) then Normal(false)
    else if !description.Str? then Throw(CannotReadIncludes(description))
    else
      IncludesIsSubstring(description.s, "already");
      IncludesIsSubstring(description.s, "enrolled");
      Normal(Includes(description.s, "already") && Includes(description.s, "enrolled"))
  }

  // ---------------------------------------------------------------------------
  // What every challenge/enroll step guarantees
  // ---------------------------------------------------------------------------

  /** `rest` is what is left of `script` after reading some prefix of it. */
  ghost predicate Consumed(script: seq<Response>, rest: seq<Response>)
  {
    |rest| <= |script| && rest == script[|script| - |rest|..]
  }

  /** `log'` is `log` with requests appended. */
  ghost predicate Extends(log: seq<Request>, log': seq<Request>)
  {
    |log| <= |log'| && log'[..|log|] == log
  }

  /** The response read last when `script` has been consumed down to `rest`. */
  function Last(script: seq<Response>, rest: seq<Response>): Response
    requires |rest| < |script|
  {
    script[|script| - |rest| - 1]
  }

  /**
   * The contract shared by `challenge` and `enroll`, however they re-route:
   * one response per request (a pending request has none), the session changes
   * only on success and then only in `oobCode` and only under "oob", a success
   * carries the last response's payload, a surfaced error carries the last
   * response's description, and a rejection is the phone precondition or a
   * throwing recogniser.
   */
  ghost predicate Coherent(c: Client, s: Session, script: seq<Response>, log: seq<Request>, r: Step)
  {
    && Consumed(script, r.script)
    && Extends(log, r.log)
    && |r.log| - |log| == |script| - |r.script| + (if r.outcome.Pending? then 1 else 0)
    && (r.outcome.Pending? ==> r.script == [])
    && (!Succeeded(r.outcome) ==> r.session == s)
    && (Succeeded(r.outcome) ==>
          && |r.script| < |script|
          && Last(script, r.script) == Data(r.outcome.env.data.payload)
          && r.outcome.env.error == Null
          && r.session == s.(oobCode := r.session.oobCode)
          && (KindOf(c.options.challengeType) == Oob ==>
                r.session.oobCode == Get(r.outcome.env.data.payload.fields, "oob_code"))
          && (KindOf(c.options.challengeType) != Oob ==> r.session == s))
    && (r.outcome.Fulfilled? && !Succeeded(r.outcome) ==>
          && |r.script| < |script|
          && Last(script, r.script).Error?
          && r.outcome.env == Envelope(NullData, Str(Last(script, r.script).description)))
    && (r.outcome.Rejected? ==>
          || (PhoneMissing(c.options, s) && r.outcome.reason == PhoneRequired)
          || (&& |r.script| < |script|
              && Last(script, r.script).Error?
              && c.isEnrolled(PostError(Last(script, r.script).name, Last(script, r.script).description))
                 == Throw(r.outcome.reason)))
  }

  /** A step that started after one request and one response is coherent from before them. */
  lemma CoherentAfterOne(c: Client, s: Session, script: seq<Response>, log: seq<Request>, req: Request, r: Step)
    requires 0 < |script|
    requires Coherent(c, s, script[1..], log + [req], r)
    ensures Coherent(c, s, script, log, r)
    ensures |log| < |r.log| && r.log[|log|] == req
  {
  }

  // ---------------------------------------------------------------------------
  // Operations
  // ---------------------------------------------------------------------------

  /** The session after a challenge or association answered with data: only "oob" keeps its `oob_code`. */
  function StoreOobCode(c: Client, s: Session, payload: Payload): Session
  {
    match KindOf(c.options.challengeType)
    case Oob => s.(oobCode := Get(payload.fields, "oob_code"))
    case _ => s
  }

  /** `token()`: one exchange request, no recovery, session untouched. */
  function Token(c: Client, s: Session, script: seq<Response>, log: seq<Request>): (r: Step)
    ensures r.session == s
    ensures r.log == log + [TokenRequest(c, s)]
    ensures |script| == 0 ==> r.outcome == Pending && r.script == script
    ensures 0 < |script| ==> r.script == script[1..]
    ensures 0 < |script| && script[0].Data? ==>
      r.outcome == Fulfilled(Envelope(Body(script[0].payload), Undefined))
    ensures 0 < |script| && script[0].Error? ==>
      r.outcome == Fulfilled(Envelope(UndefinedData, Str(script[0].description)))
  {
    var log' := log + [TokenRequest(c, s)];
    if |script| == 0 then Step(Pending, s, script, log')
    else
      var env := match script[0]
        case Data(payload) => Envelope(Body(payload), Undefined)
        case Error(_, description) => Envelope(UndefinedData, Str(description));
      Step(Fulfilled(env), s, script[1..], log')
  }

  /** `challenge()`: re-routes to `enroll()` on `association_required`. */
  function Challenge(c: Client, s: Session, script: seq<Response>, log: seq<Request>): (r: Step)
    ensures Coherent(c, s, script, log, r)
    ensures |log| < |r.log| && r.log[|log|] == ChallengeRequest(c, s)
    ensures 0 < |script| && script[0].Data? ==>
      && r.outcome == Fulfilled(Envelope(Body(script[0].payload), Null))
      && r.script == script[1..]
      && r.log == log + [ChallengeRequest(c, s)]
      && (KindOf(c.options.challengeType) == Oob ==> r.session == s.(oobCode := Get(script[0].payload.fields, "oob_code")))
      && (KindOf(c.options.challengeType) != Oob ==> r.session == s)
    decreases |script|
  {
    var log' := log + [ChallengeRequest(c, s)];
    if |script| == 0 then Step(Pending, s, script, log')
    else match script[0]
      case Error(name, description) =>
        if name == AssociationRequired then
          var r := Enroll(c, s, script[1..], log');
          CoherentAfterOne(c, s, script, log, ChallengeRequest(c, s), r);
          r
        else Step(Fulfilled(Envelope(NullData, Str(description))), s, script[1..], log')
      case Data(payload) =>
        Step(Fulfilled(Envelope(Body(payload), Null)), StoreOobCode(c, s, payload), script[1..], log')
  }

  /**
   * `enroll()`: fails fast without a phone number when one is needed, and
   * re-routes to `challenge()` when the instance's `isEnrolled` accepts the error.
   */
  function Enroll(c: Client, s: Session, script: seq<Response>, log: seq<Request>): (r: Step)
    ensures Coherent(c, s, script, log, r)
    ensures PhoneMissing(c.options, s) ==> r == Step(Rejected(PhoneRequired), s, script, log)
    ensures !PhoneMissing(c.options, s) ==> |log| < |r.log| && r.log[|log|] == EnrollRequest(c, s)
    ensures !PhoneMissing(c.options, s) && 0 < |script| && script[0].Data? ==>
      && r.outcome == Fulfilled(Envelope(Body(script[0].payload), Null))
      && r.script == script[1..]
      && r.log == log + [EnrollRequest(c, s)]
      && (KindOf(c.options.challengeType) == Oob ==> r.session == s.(oobCode := Get(script[0].payload.fields, "oob_code")))
      && (KindOf(c.options.challengeType) != Oob ==> r.session == s)
    decreases |script|
  {
    if PhoneMissing(c.options, s) then Step(Rejected(PhoneRequired), s, script, log)
    else
      var log' := log + [EnrollRequest(c, s)];
      if |script| == 0 then Step(Pending, s, script, log')
      else match script[0]
        case Error(name, description) =>
          (match c.isEnrolled(PostError(name, description))
           case Normal(enrolled) =>
             if enrolled then
               var r := Challenge(c, s, script[1..], log');
               CoherentAfterOne(c, s, script, log, EnrollRequest(c, s), r);
               r
             else Step(Fulfilled(Envelope(NullData, Str(description))), s, script[1..], log')
           case Throw(reason) => Step(Rejected(reason), s, script[1..], log'))
        case Data(payload) =>
          Step(Fulfilled(Envelope(Body(payload), Null)), StoreOobCode(c, s, payload), script[1..], log')
  }

  /** `start(mfaToken, phoneNumber)`: records both and challenges. */
  function Start(c: Client, s: Session, mfaToken: Scalar, phoneNumber: Scalar,
                 script: seq<Response>, log: seq<Request>): (r: Step)
    ensures r.session.mfaToken == mfaToken && r.session.phoneNumber == phoneNumber
    ensures r.session.otp == s.otp
    ensures !Succeeded(r.outcome) || KindOf(c.options.challengeType) != Oob ==> r.session.oobCode == s.oobCode
    ensures |log| < |r.log| && r.log[|log|].endpoint == MfaChallenge
    ensures "mfa_token" in r.log[|log|].body && r.log[|log|].body["mfa_token"] == Atom(mfaToken)
    ensures Coherent(c, s.(mfaToken := mfaToken, phoneNumber := phoneNumber), script, log, r)
    ensures 0 < |script| && script[0].Data? ==>
      && r.outcome == Fulfilled(Envelope(Body(script[0].payload), Null))
      && r.script == script[1..]
      && |r.log| == |log| + 1
      && (KindOf(c.options.challengeType) == Oob ==> r.session.oobCode == Get(script[0].payload.fields, "oob_code"))
    ensures 0 < |script| && script[0].Error? && script[0].name != AssociationRequired ==>
      && r.outcome == Fulfilled(Envelope(NullData, Str(script[0].description)))
      && r.script == script[1..]
      && |r.log| == |log| + 1
    ensures 0 < |script| && script[0].Error? && script[0].name == AssociationRequired ==>
      var s' := s.(mfaToken := mfaToken, phoneNumber := phoneNumber);
      r == Enroll(c, s', script[1..], log + [ChallengeRequest(c, s')])
  {
    Challenge(c, s.(mfaToken := mfaToken, phoneNumber := phoneNumber), script, log)
  }

  /** `complete(otp)`: records the proof and exchanges it. */
  function Complete(c: Client, s: Session, otp: Scalar, script: seq<Response>, log: seq<Request>): (r: Step)
    ensures r.session == s.(otp := otp)
    ensures r.log == log + [TokenRequest(c, s.(otp := otp))]
    ensures |r.log| == |log| + 1 && r.log[..|log|] == log && r.log[|log|].endpoint == OAuthToken
    ensures KindOf(c.options.challengeType) == Oob ==>
      && "oob_code" in r.log[|log|].body && r.log[|log|].body["oob_code"] == Atom(s.oobCode)
      && "binding_code" in r.log[|log|].body && r.log[|log|].body["binding_code"] == Atom(otp)
    ensures KindOf(c.options.challengeType) == Otp ==>
      "otp" in r.log[|log|].body && r.log[|log|].body["otp"] == Atom(otp)
    ensures KindOf(c.options.challengeType) != Oob ==>
      "oob_code" !in r.log[|log|].body && "binding_code" !in r.log[|log|].body
    ensures |script| == 0 ==> r.outcome == Pending && r.script == script
    ensures 0 < |script| ==> r.script == script[1..]
    ensures 0 < |script| && script[0].Data? ==>
      r.outcome == Fulfilled(Envelope(Body(script[0].payload), Undefined))
    ensures 0 < |script| && script[0].Error? ==>
      r.outcome == Fulfilled(Envelope(UndefinedData, Str(script[0].description)))
  {
    Token(c, s.(otp := otp), script, log)
  }
}
