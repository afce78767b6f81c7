/**
 * Properties of the MFA client that relate several calls: the two re-routings,
 * what the class's own `isEnrolled` makes of the errors `post` produces, the
 * out-of-band code across a whole ceremony, and end-to-end ceremonies.
 */
module MfaProperties {
  import opened Wrappers
  import opened JsValues
  import opened Mfa

  // ---------------------------------------------------------------------------
  // Re-routing
  // ---------------------------------------------------------------------------

  /** `association_required` makes `challenge` hand over to exactly one `enroll`, whose result it returns. */
  lemma ChallengeReroutesToEnroll(c: Client, s: Session, script: seq<Response>, log: seq<Request>)
    requires 0 < |script| && script[0].Error? && script[0].name == AssociationRequired
    ensures Challenge(c, s, script, log) == Enroll(c, s, script[1..], log + [ChallengeRequest(c, s)])
  {
  }

  /** Any other challenge error is surfaced as `{data: null, error: description}` with nothing else changed. */
  lemma ChallengeSurfacesOtherErrors(c: Client, s: Session, script: seq<Response>, log: seq<Request>)
    requires 0 < |script| && script[0].Error? && script[0].name != AssociationRequired
    ensures Challenge(c, s, script, log)
      == Step(Fulfilled(Envelope(NullData, Str(script[0].description))), s, script[1..], log + [ChallengeRequest(c, s)])
  {
  }

  /** When the instance's `isEnrolled` accepts an association error, `enroll` returns a fresh `challenge`'s result. */
  lemma EnrollReroutesWhenRecognised(c: Client, s: Session, script: seq<Response>, log: seq<Request>)
    requires !PhoneMissing(c.options, s)
    requires 0 < |script| && script[0].Error?
    requires c.isEnrolled(PostError(script[0].name, script[0].description)) == Normal(true)
    ensures Enroll(c, s, script, log) == Challenge(c, s, script[1..], log + [EnrollRequest(c, s)])
  {
  }

  /** A successful out-of-band challenge overwrites whatever code the session held. */
  lemma OobChallengeOverwritesOobCode(c: Client, s: Session, script: seq<Response>, log: seq<Request>)
    requires KindOf(c.options.challengeType) == Oob
    requires 0 < |script| && script[0].Data?
    ensures Challenge(c, s, script, log).session == s.(oobCode := Get(script[0].payload.fields, "oob_code"))
  {
  }

  // ---------------------------------------------------------------------------
  // The class's own `isEnrolled`
  // ---------------------------------------------------------------------------

  /** The provider's own "already enrolled" error is recognised. */
  lemma IsEnrolledRecognisesAlreadyEnrolled()
    ensures IsEnrolled(map["error" := Str("access_denied"), "description" := Str("User is already enrolled.")])
      == Normal(true)
  {
    var d := "User is already enrolled.";
    assert d[8..15] == "already";
    assert OccursAt(d, "already", 8);
    assert d[16..24] == "enrolled";
    assert OccursAt(d, "enrolled", 16);
  }

  /** The error code must match exactly: the right description alone is not enough. */
  lemma IsEnrolledNeedsAccessDenied(code: string, description: string)
    requires code != AccessDenied
    ensures IsEnrolled(map["error" := Str(code), "description" := Str(description)]) == Normal(false)
  {
  }

  /** Both words must occur in the description. */
  lemma IsEnrolledNeedsBothWords(description: string)
    requires !IsSubstring("already", description) || !IsSubstring("enrolled", description)
    ensures IsEnrolled(map["error" := Str(AccessDenied), "description" := Str(description)]) == Normal(false)
  {
  }

  /** `post`'s `{name, description}` object has no `error` property, so it is never "already enrolled". */
  lemma PostErrorsAreNeverEnrolled(name: string, description: string)
    ensures IsEnrolled(PostError(name, description)) == Normal(false)
  {
    assert "error" != "name" && "error" != "description";
    assert Get(PostError(name, description), "error") == Undefined;
  }

  /** With the class's own `isEnrolled`, every provider error ends `enroll` with its description. */
  lemma EnrollErrorIsTerminal(clientId: string, options: Options, s: Session, script: seq<Response>, log: seq<Request>)
    requires !PhoneMissing(options, s)
    requires 0 < |script| && script[0].Error?
    ensures Enroll(New(clientId, options), s, script, log)
      == Step(Fulfilled(Envelope(NullData, Str(script[0].description))), s, script[1..],
              log + [EnrollRequest(New(clientId, options), s)])
  {
    PostErrorsAreNeverEnrolled(script[0].name, script[0].description);
  }

  /**
   * With the class's own `isEnrolled`, `enroll` sends at most one request and
   * rejects only for a missing phone number.
   */
  lemma EnrollSendsAtMostOne(clientId: string, options: Options, s: Session, script: seq<Response>, log: seq<Request>)
    ensures var r := Enroll(New(clientId, options), s, script, log);
      && |r.log| <= |log| + 1
      && (r.outcome.Rejected? ==> r.outcome.reason == PhoneRequired && PhoneMissing(options, s))
  {
    if !PhoneMissing(options, s) && 0 < |script| && script[0].Error? {
      EnrollErrorIsTerminal(clientId, options, s, script, log);
    }
  }

  /**
   * With the class's own `isEnrolled`, `challenge` sends at most two requests
   * (itself and one `enroll`) and rejects only for a missing phone number.
   */
  lemma ChallengeSendsAtMostTwo(clientId: string, options: Options, s: Session, script: seq<Response>, log: seq<Request>)
    ensures var r := Challenge(New(clientId, options), s, script, log);
      && |r.log| <= |log| + 2
      && (r.outcome.Rejected? ==> r.outcome.reason == PhoneRequired && PhoneMissing(options, s))
  {
    var c := New(clientId, options);
    if 0 < |script| && script[0].Error? && script[0].name == AssociationRequired {
      EnrollSendsAtMostOne(clientId, options, s, script[1..], log + [ChallengeRequest(c, s)]);
    }
  }

  // ---------------------------------------------------------------------------
  // Whole ceremonies
  // ---------------------------------------------------------------------------

  /** Without "oob", `oobCode` stays `null` from construction through `start` and `complete`. */
  lemma NonOobCeremonyKeepsOobCodeNull(c: Client, mfaToken: Scalar, phoneNumber: Scalar, otp: Scalar,
                                       script: seq<Response>)
    requires KindOf(c.options.challengeType) != Oob
    ensures var a := Start(c, Unstarted, mfaToken, phoneNumber, script, []);
      && a.session.oobCode == Null
      && Complete(c, a.session, otp, a.script, a.log).session.oobCode == Null
  {
  }

  /** Out-of-band SMS, enrolled user: the exchange carries the challenge's code and the user's binding code. */
  lemma OobHappyPath()
    ensures
      var c := New("client", DefaultOptions);
      var tokens := Payload(map["access_token" := Str("at"), "id_token" := Str("it")]);
      var script := [Data(Payload(map["oob_code" := Str("c1")])), Data(tokens)];
      var a := Start(c, Unstarted, Str("t1"), Str("+15551234"), script, []);
      var b := Complete(c, a.session, Str("123456"), a.script, a.log);
      && a.outcome.Fulfilled? && a.session.oobCode == Str("c1")
      && |b.log| == 2 && b.log[0].endpoint == MfaChallenge && b.log[1].endpoint == OAuthToken
      && b.log[1].body["oob_code"] == Atom(Str("c1"))
      && b.log[1].body["binding_code"] == Atom(Str("123456"))
      && b.outcome == Fulfilled(Envelope(Body(tokens), Undefined))
  {
  }

  /** Out-of-band SMS, first-time user: `association_required` leads to one enrolment carrying the phone number. */
  lemma FirstTimeUserOob()
    ensures
      var c := New("client", DefaultOptions);
      var tokens := Payload(map["access_token" := Str("at")]);
      var script := [Error(AssociationRequired, "no authenticator"), Data(Payload(map["oob_code" := Str("c1")])), Data(tokens)];
      var a := Start(c, Unstarted, Str("t1"), Str("+15551234"), script, []);
      var b := Complete(c, a.session, Str("123456"), a.script, a.log);
      && |a.log| == 2 && a.log[0].endpoint == MfaChallenge && a.log[1].endpoint == MfaAssociate
      && a.log[1].bearer == Some("Bearer t1")
      && a.log[1].body["phone_number"] == Atom(Str("+15551234"))
      && a.session.oobCode == Str("c1")
      && b.log[2].body["oob_code"] == Atom(Str("c1"))
      && b.outcome == Fulfilled(Envelope(Body(tokens), Undefined))
  {
    var c := New("client", DefaultOptions);
    var tokens := Payload(map["access_token" := Str("at")]);
    var script := [Error(AssociationRequired, "no authenticator"), Data(Payload(map["oob_code" := Str("c1")])), Data(tokens)];
    var s := Unstarted.(mfaToken := Str("t1"), phoneNumber := Str("+15551234"));
    assert !PhoneMissing(c.options, s);
    ChallengeReroutesToEnroll(c, s, script, []);
    var a := Enroll(c, s, script[1..], [ChallengeRequest(c, s)]);
    assert a == Start(c, Unstarted, Str("t1"), Str("+15551234"), script, []);
    assert script[1..][0] == Data(Payload(map["oob_code" := Str("c1")]));
    assert a.log == [ChallengeRequest(c, s), EnrollRequest(c, s)];
    assert a.session.oobCode == Str("c1");
    assert a.script == [Data(tokens)];
    assert Bearer(s) == "Bearer t1";
  }

  /** One-time password: no code is stored and the exchange carries `otp` alone. */
  lemma OtpPath()
    ensures
      var c := New("client", Options("otp", [], ["otp"], "http://auth0.com/oauth/grant-type/mfa-otp"));
      var tokens := Payload(map["access_token" := Str("at")]);
      var script := [Data(Payload(map[])), Data(tokens)];
      var a := Start(c, Unstarted, Str("t1"), Null, script, []);
      var b := Complete(c, a.session, Str("654321"), a.script, a.log);
      && a.session.oobCode == Null
      && b.log[1].body["otp"] == Atom(Str("654321"))
      && "oob_code" !in b.log[1].body && "binding_code" !in b.log[1].body
      && b.outcome == Fulfilled(Envelope(Body(tokens), Undefined))
  {
  }

  /** Default options and no phone number: a first-time user's enrolment fails before sending anything. */
  lemma DefaultsWithoutPhoneFailFast(rest: seq<Response>)
    ensures
      var c := New("client", DefaultOptions);
      var a := Start(c, Unstarted, Str("t1"), Null, [Error(AssociationRequired, "no authenticator")] + rest, []);
      && a.outcome == Rejected(PhoneRequired)
      && |a.log| == 1 && a.log[0].endpoint == MfaChallenge
      && a.script == rest
  {
  }
}
