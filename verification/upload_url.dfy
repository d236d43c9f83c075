/** The HTTP-triggered function that issues a pre-signed upload URL
    (lambda/index.js). The request body arrives already parsed, the clock and
    the bucket name are parameters, and the object-storage signer's answer is
    an input: the handler becomes a pure map from those to the response and
    the signer call it makes, if any. */
module UploadUrl {
  import opened Wrappers
  import Decimal
  import StorageKey

  /** A JSON value found under a request field. Strings are kept; any other
      JSON value (number, boolean, null, array, object) is represented by its
      JavaScript truthiness and by what a template literal prints for it.
      An object whose own `toString` and `valueOf` members leave it without a
      primitive value (such as `{"toString": 1}`), or an array holding one,
      cannot be printed at all: a template literal throws a TypeError. Such
      values are objects or arrays, so they are always truthy. */
  datatype Json = JStr(s: string) | JOther(truthy: bool, text: string) | JUnprintable

  /** JavaScript truthiness of a looked-up property; a missing one is
      `undefined`, which is falsy. */
  predicate Truthy(v: Option<Json>) {
    match v
    case None => false
    case Some(JStr(s)) => s != ""
    case Some(JOther(t, _)) => t
    case Some(JUnprintable) => true
  }

  /** What `${v}` prints, or None when printing throws. */
  function Text(v: Json): (r: Option<string>)
    ensures r.None? <==> v.JUnprintable?
    ensures v.JStr? ==> r == Some(v.s)
  {
    match v
    case JStr(s) => Some(s)
    case JOther(_, t) => Some(t)
    case JUnprintable => None
  }

  /** The outcome of `JSON.parse(event.body)` followed by reading the two
      fields. A body that parses to `null` makes the field read throw. Any
      other parsed value yields the two properties, absent when it has no
      such field (a number, a string or an array has neither). */
  datatype Body =
    | Unparsable
    | NullBody
    | Parsed(fileName: Option<Json>, fileType: Option<Json>)

  /** What the signer (`s3.getSignedUrlPromise`) does when asked. */
  datatype SignOutcome = Signed(url: string) | SignFailed(cause: string)

  datatype SignParams = SignParams(bucket: Option<string>, key: string, contentType: Json, expires: nat)

  datatype SignCall = SignCall(operation: string, params: SignParams)

  datatype Headers = Headers(allowOrigin: string, allowCredentials: bool)

  /** The JSON response body, before serialisation. */
  datatype Payload = Grant(uploadUrl: string, fileKey: string) | Error(error: string)

  datatype Response = Response(statusCode: nat, headers: Headers, body: Payload)

  /** The handler's result together with the signer call it made, if any. */
  datatype Reply = Reply(response: Response, signerCall: Option<SignCall>)

  const Cors: Headers := Headers("*", true)
  const SignOperation: string := "putObject"
  const ExpirySeconds: nat := 300
  const MissingFieldsMessage: string := "fileName and fileType are required"
  const InternalErrorMessage: string := "Failed to generate pre-signed URL"

  const BadRequest: Response := Response(400, Cors, Error(MissingFieldsMessage))
  const InternalError: Response := Response(500, Cors, Error(InternalErrorMessage))

  /** Both fields are present and truthy: the request the handler accepts. */
  predicate Valid(body: Body) {
    body.Parsed? && Truthy(body.fileName) && Truthy(body.fileType)
  }

  /** A valid request whose file name can be printed into a key: the
      request the handler goes on to sign. */
  predicate Signable(body: Body) {
    Valid(body) && Text(body.fileName.value).Some?
  }

  /** The validation step: either the body could not be read, or a field is
      missing or falsy, or both field values are accepted. */
  datatype Validation = Throws | MissingField | Accepted(fileName: Json, fileType: Json)

  function Validate(body: Body): (v: Validation)
    ensures v.Throws? <==> !body.Parsed?
    ensures v.MissingField? <==> body.Parsed? && !Valid(body)
    ensures v.Accepted? <==> Valid(body)
    ensures v.Accepted? ==> body == Parsed(Some(v.fileName), Some(v.fileType))
  {
    match body
    case Unparsable => Throws
    case NullBody => Throws
    case Parsed(name, typ) =>
      if !Truthy(name) || !Truthy(typ) then MissingField else Accepted(name.value, typ.value)
  }

  /** The one call the handler makes to the signer for an accepted request. */
  function SignRequest(bucket: Option<string>, key: string, fileType: Json): (c: SignCall)
    ensures c.operation == "putObject"
    ensures c.params.bucket == bucket && c.params.key == key && c.params.contentType == fileType
    ensures c.params.expires == 300
  {
    SignCall(SignOperation, SignParams(bucket, key, fileType, ExpirySeconds))
  }

  /** `exports.handler`. */
  function Handler(body: Body, clock: nat, bucket: Option<string>, signer: SignOutcome): (r: Reply)
    // every path carries the cross-origin headers, and the status is one of three
    ensures r.response.headers == Headers("*", true)
    ensures r.response.statusCode in {200, 400, 500}
    // an unreadable body is an internal failure, and nothing is signed
    ensures !body.Parsed? ==>
      r == Reply(Response(500, Cors, Error("Failed to generate pre-signed URL")), None)
    // a missing or falsy field is a client error, and nothing is signed
    ensures body.Parsed? && !Valid(body) ==>
      r == Reply(Response(400, Cors, Error("fileName and fileType are required")), None)
    // a valid request whose file name cannot be printed throws while the key
    // is built: an internal failure, and nothing is signed
    ensures Valid(body) && body.fileName.value.JUnprintable? ==>
      r == Reply(Response(500, Cors, Error("Failed to generate pre-signed URL")), None)
    // otherwise the request is signed exactly once, for the derived key
    ensures Signable(body) ==>
      r.signerCall == Some(SignCall("putObject", SignParams(
        bucket, Decimal.Render(clock) + "-" + Text(body.fileName.value).value, body.fileType.value, 300)))
    // and answered with the signed URL, or with the generic failure
    ensures Signable(body) && signer.Signed? ==>
      r.response == Response(200, Cors, Grant(signer.url, Decimal.Render(clock) + "-" + Text(body.fileName.value).value))
    ensures Signable(body) && signer.SignFailed? ==>
      r.response == Response(500, Cors, Error("Failed to generate pre-signed URL"))
    // success happens exactly when the request is signable and signing succeeds
    ensures r.response.statusCode == 200 <==> Signable(body) && signer.Signed?
    ensures r.signerCall.Some? <==> Signable(body)
  {
    match Validate(body)
    case Throws => Reply(InternalError, None)
    case MissingField => Reply(BadRequest, None)
    case Accepted(name, typ) =>
      match Text(name)
      case None => Reply(InternalError, None)
      case Some(printed) =>
        var key := StorageKey.Make(clock, printed);
        var call := SignRequest(bucket, key, typ);
        match signer
        case Signed(url) => Reply(Response(200, Cors, Grant(url, key)), Some(call))
        case SignFailed(_) => Reply(InternalError, Some(call))
  }

  /** The cause of a signing failure never reaches the caller: any two
      failures give the same response. */
  lemma SignerFailureHidesCause(body: Body, clock: nat, bucket: Option<string>, cause1: string, cause2: string)
    ensures Handler(body, clock, bucket, SignFailed(cause1)).response
         == Handler(body, clock, bucket, SignFailed(cause2)).response
    ensures Handler(body, clock, bucket, SignFailed(cause1)).response.body.Error?
    ensures cause1 != InternalErrorMessage && cause1 != MissingFieldsMessage ==>
      Handler(body, clock, bucket, SignFailed(cause1)).response.body != Error(cause1)
  {
  }

  /** The key in a successful response reads back as the clock value at the
      time of handling and the requested file name. */
  lemma GrantKeyRecoversRequest(body: Body, clock: nat, bucket: Option<string>, signer: SignOutcome)
    requires Handler(body, clock, bucket, signer).response.statusCode == 200
    ensures Handler(body, clock, bucket, signer).response.body.Grant?
    ensures StorageKey.Split(Handler(body, clock, bucket, signer).response.body.fileKey)
         == Some((clock, Text(body.fileName.value).value))
  {
    StorageKey.SplitMake(clock, Text(body.fileName.value).value);
  }

  /** The same request handled at two different times is granted two
      different keys; at the same time, the same key. */
  lemma DistinctClocksDistinctKeys(body: Body, clock1: nat, clock2: nat, bucket: Option<string>, signer: SignOutcome)
    requires Signable(body) && signer.Signed?
    ensures (Handler(body, clock1, bucket, signer).response.body.fileKey
             == Handler(body, clock2, bucket, signer).response.body.fileKey) <==> clock1 == clock2
  {
    StorageKey.MakeInjective(clock1, Text(body.fileName.value).value, clock2, Text(body.fileName.value).value);
  }

  /** A file name that cannot be printed, such as `{"toString": 1}`, passes
      validation but makes the key construction throw: the generic 500, and
      the signer is never asked, whatever it would have answered. */
  lemma UnprintableNameIsInternalError(fileType: Json, clock: nat, bucket: Option<string>, signer: SignOutcome)
    requires Truthy(Some(fileType))
    ensures Validate(Parsed(Some(JUnprintable), Some(fileType))).Accepted?
    ensures Handler(Parsed(Some(JUnprintable), Some(fileType)), clock, bucket, signer)
         == Reply(Response(500, Cors, Error("Failed to generate pre-signed URL")), None)
  {
  }

  /** The documented example: "test-file.jpg" of type "image/jpeg" at clock
      1234567890, with bucket "test-uploads-bucket". */
  lemma ExampleRequest(url: string)
    ensures
      var r := Handler(Parsed(Some(JStr("test-file.jpg")), Some(JStr("image/jpeg"))),
                       1234567890, Some("test-uploads-bucket"), Signed(url));
      && r.response == Response(200, Cors, Grant(url, "1234567890-test-file.jpg"))
      && r.signerCall == Some(SignCall("putObject", SignParams(
           Some("test-uploads-bucket"), "1234567890-test-file.jpg", JStr("image/jpeg"), 300)))
  {
    ExampleClockRendering();
    assert StorageKey.Make(1234567890, "test-file.jpg") == "1234567890-test-file.jpg";
  }

  /** The example clock value, rendered one digit at a time. */
  lemma ExampleClockRendering()
    ensures Decimal.Render(1234567890) == "1234567890"
  {
    assert Decimal.Render(1) == "1";
    assert Decimal.Render(12) == Decimal.Render(1) + [Decimal.DigitChar(2)];
    assert Decimal.Render(123) == Decimal.Render(12) + [Decimal.DigitChar(3)];
    assert Decimal.Render(1234) == Decimal.Render(123) + [Decimal.DigitChar(4)];
    assert Decimal.Render(12345) == Decimal.Render(1234) + [Decimal.DigitChar(5)];
    assert Decimal.Render(123456) == Decimal.Render(12345) + [Decimal.DigitChar(6)];
    assert Decimal.Render(1234567) == Decimal.Render(123456) + [Decimal.DigitChar(7)];
    assert Decimal.Render(12345678) == Decimal.Render(1234567) + [Decimal.DigitChar(8)];
    assert Decimal.Render(123456789) == Decimal.Render(12345678) + [Decimal.DigitChar(9)];
    assert Decimal.Render(1234567890) == Decimal.Render(123456789) + [Decimal.DigitChar(0)];
  }
}
