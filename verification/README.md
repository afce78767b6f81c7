# MFA orchestration client — a Dafny model

This project models the `Auth0MultiFactorAuthentication` class of `index.js`. The class is a client-side
state machine that completes a multi-factor login against an OAuth2-style identity provider. It has
three provider operations: `token` exchanges the MFA token and proof for tokens, `challenge` asks the
provider to issue a challenge, and `enroll` associates an authenticator. `start` and `complete` are the two
entry points. The model also covers `reformatAuthResult`, the small adapter that camel-cases a
primary-authentication result.

How it is modelled:

- **Configuration.** The constructor's options become an immutable `Options` record. A `Client` holds the
  options, the client id and the instance's `isEnrolled` method. The configured challenge type stays a free
  string, as in the code. `KindOf` classifies it as `Oob`, `Otp` or `Other(name)`, and any other string
  takes neither branch.
- **Session.** A `Session` record holds `mfaToken`, `phoneNumber`, `otp` and `oobCode`. Each field is a
  JavaScript `null`, `undefined` or string. `Unstarted` has all four set to `null`.
- **Provider.** The provider is a finite script of responses: `Data(payload)` or `Error(name, description)`.
  Every POST appends its request to a log and consumes the next response. A request is its endpoint, its
  body object and an optional `Bearer` value. If the script is exhausted, the request is logged but never
  answered, and the operation stays `Pending`.
- **Operations.** Every operation is a pure function from (client, session, script, log) to a `Step`. A
  `Step` holds how the call's promise settled, the new session, the unread responses and the extended log.
  A promise either fulfils with the `{data, error}` envelope, is rejected (for example "phone number is
  required"), or stays pending.
- **Mutual recursion.** `Challenge` and `Enroll` call each other. Each call consumes at least one response
  first, so they terminate on the length of the script.

Behaviour that follows the code as written:

- **The "already enrolled" recovery never fires.** `isEnrolled` reads the `error` and `description`
  properties of its argument. `enroll` passes it the object built by `post`, and that object is
  `{name, description}`. So `error` is always `undefined`, the check answers false, and every association
  error reaches the caller as `{data: null, error: description}`.
  - In JavaScript, `this.isEnrolled` is looked up on the instance. The model keeps it as a field of
    `Client`, so `Enroll` does call `Challenge` when that method accepts an error.
  - `New` installs the class's own `IsEnrolled`. `PostErrorsAreNeverEnrolled`, `EnrollErrorIsTerminal`,
    `EnrollSendsAtMostOne` and `ChallengeSendsAtMostTwo` prove that, for such a client, the branch is
    never taken.
- **Phone numbers are only checked under "oob".** A channel list containing "sms" or "voice" requires a
  phone number only when the challenge type is exactly "oob".
- **Other challenge types are not rejected.** Such a value sends neither proof field to the token
  endpoint and skips the channel handling in `enroll`.
- **A failed exchange returns `data: undefined`.** The other operations return `data: null` on failure.

## Model

| member | source | states |
|---|---|---|
| `AuthResult.Reformat` | index.js:1-7 | the result has exactly the five camelCase properties, each holding the value of its snake_case counterpart (undefined when missing) |
| `AuthResult.ReformatRoundTrip` | index.js:1-7 | renaming back recovers each of the five input properties and invents none, so no field is lost or mixed up |
| `AuthResult.RenamingIsOneForOne` | index.js:2-6 | the five source names are distinct and so are the five target names |
| `MfaProperties.DefaultsWithoutPhoneFailFast` | index.js:9-14 | with the default options ("oob", channel "sms") and no phone number, a first-time user's `start` is rejected with "phone number is required" after the challenge request alone |
| `Mfa.New` | index.js:17-21 | an instance keeps the client id and options it was given, and its `isEnrolled` is the class's own |
| `MfaProperties.NonOobCeremonyKeepsOobCodeNull` | index.js:23-27 | starting from the constructed session with a non-"oob" type, `oobCode` is still null after `start` and after `complete` |
| `Mfa.KindOf` | index.js:75-88 | the string selects "oob" or "otp" by exact match, and every other string is `Other`; the chosen kind names the configured string back |
| `Mfa.TokenBody` | index.js:68-88 | always sends client_id, grant_type, mfa_token and challenge_type; oob_code = oobCode and binding_code = otp exactly under "oob"; otp exactly under "otp"; never both sets; no other property |
| `Mfa.Token` | index.js:65-97 | sends exactly the exchange request with no recovery and leaves the session unchanged; the result is the payload with error undefined, or data undefined with the error's description |
| `Mfa.ChallengeBody` | index.js:102-106 | the challenge body is exactly client_id, mfa_token and challenge_type, with the configured values |
| `Mfa.Challenge` | index.js:99-137 | first sends the challenge request; a data answer gives `{data: payload, error: null}` after that one request and, only under "oob", stores its oob_code; one response per request; the session changes only on success and only in `oobCode`, only under "oob", to the returned oob_code; failures carry the last response's description; a rejection is only the phone precondition or a throwing recogniser |
| `MfaProperties.ChallengeReroutesToEnroll` | index.js:123-125 | an `association_required` error makes the result exactly that of `enroll` run on the remaining script |
| `MfaProperties.ChallengeSurfacesOtherErrors` | index.js:109-127 | any other error name gives `{data: null, error: description}` with the session, including `oobCode`, unchanged |
| `MfaProperties.OobChallengeOverwritesOobCode` | index.js:129-134 | a successful "oob" challenge sets `oobCode` to the returned oob_code whatever it held before |
| `Mfa.EnrollBody` | index.js:142-161 | always client_id and authenticator_types; oob_channels exactly under "oob"; phone_number exactly when "oob" has an "sms" or "voice" channel; nothing else |
| `Mfa.Enroll` | index.js:139-183 | with a required phone number missing, rejects before sending anything and leaves the script, log and session untouched; otherwise first sends the association request with `Bearer <mfaToken>`; a data answer gives `{data: payload, error: null}` after that one request and, only under "oob", stores its oob_code; then keeps the same guarantees as `challenge` |
| `MfaProperties.EnrollReroutesWhenRecognised` | index.js:169-171 | when the instance's `isEnrolled` accepts the error object, `enroll` returns exactly a new `challenge` on the remaining script |
| `Mfa.IsEnrolled` | index.js:185-196 | true exactly when `error` is "access_denied" and the description is a string containing both "already" and "enrolled" case-sensitively; throws exactly when `error` matches and the description is not a string, with the TypeError for reading `includes` of null or undefined |
| `JsValues.IncludesIsSubstring` | index.js:190-191 | the `includes` search holds exactly when the word occurs at some position of the description |
| `MfaProperties.IsEnrolledRecognisesAlreadyEnrolled` | index.js:187-193 | the provider's "access_denied" with "User is already enrolled." is recognised |
| `MfaProperties.IsEnrolledNeedsAccessDenied` | index.js:188-189 | any other error code is not recognised, whatever the description says |
| `MfaProperties.IsEnrolledNeedsBothWords` | index.js:190-191 | with "access_denied", a description lacking either word is not recognised |
| `MfaProperties.PostErrorsAreNeverEnrolled` | index.js:55-58 | the `{name, description}` error object that `post` builds is never recognised as "already enrolled" |
| `MfaProperties.EnrollErrorIsTerminal` | index.js:166-173 | for the class as written, every provider error ends `enroll` with `{data: null, error: description}` after exactly one request |
| `MfaProperties.EnrollSendsAtMostOne` | index.js:139-183 | for the class as written, `enroll` sends at most one request and rejects only for a missing phone number |
| `MfaProperties.ChallengeSendsAtMostTwo` | index.js:99-137 | for the class as written, `challenge` sends at most two requests and rejects only for a missing phone number |
| `Mfa.Start` | index.js:198-202 | sets `mfaToken` and `phoneNumber`, keeps `otp`, keeps `oobCode` unless an "oob" challenge succeeds, and sends the challenge with the new token first; a data answer gives `{data: payload, error: null}`, and any error other than `association_required` gives `{data: null, error: description}`, each after one request; an `association_required` answer gives exactly the result of `enroll` on the updated session and the remaining script, with the challenge request logged first |
| `Mfa.Complete` | index.js:204-207 | sets only `otp`; sends exactly the token request built from the updated session, one exchange carrying oobCode and the new otp as binding_code under "oob", the otp alone under "otp", and no oob fields otherwise; reads one response and returns the exchange's result: payload with error undefined, or data undefined with the description, or pending when no answer comes |
| `MfaProperties.OobHappyPath` | index.js:198-207 | "oob"/SMS ceremony: the challenge stores "c1", the exchange carries oob_code "c1" and binding_code "123456", and the result is the token payload |
| `MfaProperties.FirstTimeUserOob` | index.js:123-165 | after `association_required`, one association request carrying the Bearer token and the phone number stores the code, and the ceremony then completes |
| `MfaProperties.OtpPath` | index.js:83-88 | "otp" ceremony: no code is stored, and the exchange carries otp "654321" and no oob_code or binding_code |

## Left out

- `post` (index.js:30-63): `fetch`, the `Content-Type` header, JSON encoding and decoding, and promise chaining are replaced by the response script. An `Error` in the script stands for an error body with a non-empty `error` property: its code has the type `ErrorCode`, which excludes the empty string. A body whose `error` is missing or empty never settles the promise in the source (index.js:53), and no script entry stands for it.
- A missing `error_description` would make the description `undefined`. The script always carries a string description.
- `JSON.stringify` omits properties whose value is `undefined`. The logged body is the object as the client builds it, before serialisation.
- URLs and the `domain` argument (index.js:19-20, 66, 100, 140): each request is tagged with its endpoint instead.
- Asynchrony: every operation is one synchronous step. There is never more than one request in flight.
- `mfaDefaultOptions` is one mutable object shared by every instance (index.js:9-14, 17). Here the options are an immutable value.
- JavaScript type errors from malformed inputs are not modelled. A `null` success body under "oob" throws at index.js:131 and 177 when `oob_code` is destructured; `reformatAuthResult` throws on `null` or `undefined` at index.js:2; an `oobChannels` value without an `includes` method (not an array or string) throws at index.js:152. Primitive or array success bodies, which the client passes through as `data`, cannot be written as a `Payload` either. Payloads are always objects and the channels always a sequence.
- Options always carry all four fields as strings or string sequences. A caller's options object lacking `challengeType`, `grantType` or `authenticatorTypes` would put `undefined` into the request bodies, which the model does not represent.
- Response payloads and error objects are flat objects whose properties are `null`, `undefined` or strings. Numbers such as `expires_in`, booleans and nested values cannot be written in a payload. The client only reads `oob_code` from a payload and passes the rest through unchanged.
- Session fields hold only `null`, `undefined` or strings. `start` and `complete` take values of that kind.
- The "already enrolled" recovery that index.js:169-171 and the comment at index.js:187 aim at, and phone-number validation: the code implements neither.
