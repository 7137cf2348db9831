/**
 * The voice-detection endpoint of the service (main.py, `detect_voice` and its two guards):
 * the ordered checks that turn a request into an HTTP status, and the call into the audio
 * processor when every check passes.
 *
 * The framework's parameter parsing, the file read and the response serialisation are not
 * modelled: a request arrives as the API-key header, the file name, the length of the body
 * (None when reading it raises) and what decoding and analysing that body yield.
 */
module Admission {
  import opened Wrappers
  import RateLimit
  import PathSuffix
  import Scoring

  /** `RATE_LIMIT_REQUESTS` and `RATE_LIMIT_WINDOW_SECONDS`, the settings of the global limiter. */
  const RateLimitRequests: int := 30
  const RateLimitWindowSeconds: int := 60
  /** `MAX_FILE_SIZE_MB`, and the bytes in one MB (1024 * 1024). */
  const MaxFileSizeMb: real := 25.0
  const BytesPerMb: nat := 1048576

  /** Why a request is refused. */
  datatype Rejection =
    | MissingApiKey
    | InvalidApiKey
    | RateLimitExceeded
    | MissingFilename
    | UnsupportedFormat
    | FileTooLarge
    | EmptyFile
    | ProcessingError

  /** The HTTP status each refusal is raised with. */
  function StatusCode(r: Rejection): (code: nat)
    ensures code == 400 <==> r in {MissingFilename, UnsupportedFormat, EmptyFile}
    ensures code == 500 <==> r == ProcessingError
  {
    match r
    case MissingApiKey => 401
    case InvalidApiKey => 403
    case RateLimitExceeded => 429
    case MissingFilename => 400
    case UnsupportedFormat => 400
    case FileTooLarge => 413
    case EmptyFile => 400
    case ProcessingError => 500
  }

  /**
   * One call of the endpoint. `content` is the length of the uploaded body, None when
   * reading it raises; `sampleCount` and `measured` are what decoding and analysing the body
   * give the audio processor.
   */
  datatype Request = Request(
    apiKey: Option<string>,
    filename: Option<string>,
    content: Option<nat>,
    sampleCount: Option<nat>,
    measured: Option<Scoring.Measurements>)

  /** `verify_api_key`: a missing or empty header is 401, another key than the configured one is 403. */
  function VerifyApiKey(header: Option<string>, apiKey: string): (r: Result<string, Rejection>)
    ensures r == Failure(MissingApiKey) <==> header.None? || header == Some("")
    ensures r == Failure(InvalidApiKey) <==> header.Some? && header.value != "" && header.value != apiKey
    ensures r.Success? <==> header == Some(apiKey) && apiKey != ""
    ensures r.Success? ==> r.value == apiKey
  {
    match header
    case None => Failure(MissingApiKey)
    case Some(key) =>
      if key == "" then Failure(MissingApiKey)
      else if key != apiKey then Failure(InvalidApiKey)
      else Success(key)
  }

  /** `check_rate_limit`'s client id: `x_api_key or "anonymous"`. */
  function ClientIdOf(header: Option<string>): string
  {
    if header.Some? && header.value != "" then header.value else "anonymous"
  }

  /** Once the key is verified, the budget charged is the key's own. */
  lemma VerifiedClientIsKey(header: Option<string>, apiKey: string)
    requires VerifyApiKey(header, apiKey).Success?
    ensures ClientIdOf(header) == apiKey
  {
  }

  /** `len(file_content) / (1024 * 1024) > MAX_FILE_SIZE_MB`. */
  predicate TooLarge(length: nat)
  {
    length as real / BytesPerMb as real > MaxFileSizeMb
  }

  /** The size limit is exactly 25 MiB: 26214400 bytes pass, one more byte is refused. */
  lemma TooLargeIffOver25MiB(length: nat)
    ensures TooLarge(length) <==> length > 26214400
  {
    var mb := length as real / BytesPerMb as real;
    assert mb * 1048576.0 == length as real;
  }

  /** The checks inside the `try` block, in order: name, format, read, size, emptiness. */
  function ValidateUpload(filename: Option<string>, content: Option<nat>): (r: Result<nat, Rejection>)
    ensures r.Success? <==>
              && filename.Some? && filename.value != ""
              && PathSuffix.Extension(filename.value) in PathSuffix.AllowedFormats
              && content.Some? && 0 < content.value <= 26214400
    ensures r.Success? ==> r.value == content.value
  {
    TooLargeIffOver25MiB(if content.Some? then content.value else 0);
    if filename.None? || filename.value == "" then Failure(MissingFilename)
    else if PathSuffix.Extension(filename.value) !in PathSuffix.AllowedFormats then Failure(UnsupportedFormat)
    else if content.None? then Failure(ProcessingError)
    else if TooLarge(content.value) then Failure(FileTooLarge)
    else if content.value == 0 then Failure(EmptyFile)
    else Success(content.value)
  }

  /** What the endpoint answers, and the limiter's map afterwards. */
  datatype Step = Step(outcome: Result<Scoring.Detection, Rejection>, requests: RateLimit.Requests)

  /**
   * `detect_voice`: authentication, then the rate limit (which records the request when it
   * admits it), then the upload checks, then the audio processor.
   */
  function Decide(exp: real -> real, req: Request, apiKey: string, requests: RateLimit.Requests, now: real): (s: Step)
    requires Scoring.ExpAxioms(exp)
    ensures s.outcome.Success? ==> 0.0 <= s.outcome.value.confidence <= 1.0
  {
    match VerifyApiKey(req.apiKey, apiKey)
    case Failure(e) => Step(Failure(e), requests)
    case Success(_) =>
      var client := ClientIdOf(req.apiKey);
      var after := RateLimit.Updated(requests, RateLimitRequests, RateLimitWindowSeconds, client, now);
      if !RateLimit.Allowed(requests, RateLimitRequests, RateLimitWindowSeconds, client, now) then
        Step(Failure(RateLimitExceeded), after)
      else
        match ValidateUpload(req.filename, req.content)
        case Failure(e) => Step(Failure(e), after)
        case Success(_) => Step(Success(Scoring.DetectVoice(exp, req.sampleCount, req.measured)), after)
  }

  /** Reference for the order of the checks: the refusal of the first check that fails. */
  function FirstFailure(checks: seq<(bool, Rejection)>): Option<Rejection>
  {
    if checks == [] then None
    else if !checks[0].0 then Some(checks[0].1)
    else FirstFailure(checks[1..])
  }

  /** Each check of the endpoint with the refusal it raises, in the order they run. */
  function Checks(req: Request, apiKey: string, allowed: bool): seq<(bool, Rejection)>
  {
    [ (req.apiKey.Some? && req.apiKey.value != "", MissingApiKey),
      (req.apiKey == Some(apiKey), InvalidApiKey),
      (allowed, RateLimitExceeded),
      (req.filename.Some? && req.filename.value != "", MissingFilename),
      (req.filename.Some? && PathSuffix.Extension(req.filename.value) in PathSuffix.AllowedFormats, UnsupportedFormat),
      (req.content.Some?, ProcessingError),
      (req.content.Some? && !TooLarge(req.content.value), FileTooLarge),
      (req.content.Some? && req.content.value != 0, EmptyFile) ]
  }

  /**
   * The endpoint refuses with the first failing check in the order authentication, rate
   * limit, file name, format, read, size, emptiness, and otherwise answers with the audio
   * processor's detection.
   */
  lemma AdmissionOrder(exp: real -> real, req: Request, apiKey: string, requests: RateLimit.Requests, now: real)
    requires Scoring.ExpAxioms(exp)
    ensures var s := Decide(exp, req, apiKey, requests, now);
            var client := ClientIdOf(req.apiKey);
            var allowed := RateLimit.Allowed(requests, RateLimitRequests, RateLimitWindowSeconds, client, now);
            && (match FirstFailure(Checks(req, apiKey, allowed))
                case Some(e) => s.outcome == Failure(e)
                case None => s.outcome == Success(Scoring.DetectVoice(exp, req.sampleCount, req.measured)))
  {
    var client := ClientIdOf(req.apiKey);
    var allowed := RateLimit.Allowed(requests, RateLimitRequests, RateLimitWindowSeconds, client, now);
    var c := Checks(req, apiKey, allowed);
    assert FirstFailure(c[8..]) == None;
    assert FirstFailure(c[7..]) == if !c[7].0 then Some(c[7].1) else None;
    assert FirstFailure(c[6..]) == if !c[6].0 then Some(c[6].1) else FirstFailure(c[7..]);
    assert FirstFailure(c[5..]) == if !c[5].0 then Some(c[5].1) else FirstFailure(c[6..]);
    assert FirstFailure(c[4..]) == if !c[4].0 then Some(c[4].1) else FirstFailure(c[5..]);
    assert FirstFailure(c[3..]) == if !c[3].0 then Some(c[3].1) else FirstFailure(c[4..]);
    assert FirstFailure(c[2..]) == if !c[2].0 then Some(c[2].1) else FirstFailure(c[3..]);
    assert FirstFailure(c[1..]) == if !c[1].0 then Some(c[1].1) else FirstFailure(c[2..]);
    assert FirstFailure(c) == if !c[0].0 then Some(c[0].1) else FirstFailure(c[1..]);
  }

  /**
   * Only an authenticated request is charged to the rate limit, and it is charged to its
   * key; a request refused by authentication leaves the limiter as it was.
   */
  lemma BudgetChargedAfterAuthentication(exp: real -> real, req: Request, apiKey: string, requests: RateLimit.Requests, now: real)
    requires Scoring.ExpAxioms(exp)
    ensures VerifyApiKey(req.apiKey, apiKey).Failure? ==> Decide(exp, req, apiKey, requests, now).requests == requests
    ensures VerifyApiKey(req.apiKey, apiKey).Success? ==>
              Decide(exp, req, apiKey, requests, now).requests
              == RateLimit.Updated(requests, RateLimitRequests, RateLimitWindowSeconds, apiKey, now)
  {
    if VerifyApiKey(req.apiKey, apiKey).Success? {
      VerifiedClientIsKey(req.apiKey, apiKey);
    }
  }

  /** A request without a usable key is 401 and one with another key is 403, whatever else it holds. */
  lemma AuthenticationFailures(exp: real -> real, req: Request, apiKey: string, requests: RateLimit.Requests, now: real)
    requires Scoring.ExpAxioms(exp)
    ensures req.apiKey.None? || req.apiKey == Some("") ==>
              Decide(exp, req, apiKey, requests, now) == Step(Failure(MissingApiKey), requests)
              && StatusCode(MissingApiKey) == 401
    ensures req.apiKey.Some? && req.apiKey.value != "" && req.apiKey.value != apiKey ==>
              Decide(exp, req, apiKey, requests, now) == Step(Failure(InvalidApiKey), requests)
              && StatusCode(InvalidApiKey) == 403
  {
  }

  /** Once authenticated and admitted by the limiter, the upload checks decide the answer. */
  lemma UploadChecksDecide(exp: real -> real, req: Request, apiKey: string, requests: RateLimit.Requests, now: real)
    requires Scoring.ExpAxioms(exp)
    requires VerifyApiKey(req.apiKey, apiKey).Success?
    requires RateLimit.Allowed(requests, RateLimitRequests, RateLimitWindowSeconds, apiKey, now)
    ensures var s := Decide(exp, req, apiKey, requests, now);
            && (ValidateUpload(req.filename, req.content).Failure? ==>
                  s.outcome == Failure(ValidateUpload(req.filename, req.content).error))
            && (ValidateUpload(req.filename, req.content).Success? ==>
                  s.outcome == Success(Scoring.DetectVoice(exp, req.sampleCount, req.measured)))
  {
  }

  /**
   * An empty body under an accepted name, with the right key, is refused with 400 once the
   * limiter admits it ("empty.wav" is such a name: `PathSuffix.EmptyWavExtension`).
   */
  lemma EmptyUploadRejected(exp: real -> real, apiKey: string, requests: RateLimit.Requests, now: real,
                            filename: string, sampleCount: Option<nat>, measured: Option<Scoring.Measurements>)
    requires Scoring.ExpAxioms(exp)
    requires apiKey != ""
    requires RateLimit.Allowed(requests, RateLimitRequests, RateLimitWindowSeconds, apiKey, now)
    requires PathSuffix.Extension(filename) in PathSuffix.AllowedFormats
    ensures var s := Decide(exp, Request(Some(apiKey), Some(filename), Some(0), sampleCount, measured), apiKey, requests, now);
            s.outcome == Failure(EmptyFile) && StatusCode(s.outcome.error) == 400
  {
    var req := Request(Some(apiKey), Some(filename), Some(0), sampleCount, measured);
    PathSuffix.AcceptedNameIsNotEmpty(filename);
    UploadChecksDecide(exp, req, apiKey, requests, now);
  }

  /**
   * A body under a name whose extension is not "wav" or "mp3", with the right key, is
   * refused with 400 once the limiter admits it, whatever its size ("test.txt" is such a
   * name: `PathSuffix.TestTxtExtension`).
   */
  lemma WrongFormatRejected(exp: real -> real, apiKey: string, requests: RateLimit.Requests, now: real,
                            filename: string, content: Option<nat>, sampleCount: Option<nat>, measured: Option<Scoring.Measurements>)
    requires Scoring.ExpAxioms(exp)
    requires apiKey != "" && filename != ""
    requires RateLimit.Allowed(requests, RateLimitRequests, RateLimitWindowSeconds, apiKey, now)
    requires PathSuffix.Extension(filename) !in PathSuffix.AllowedFormats
    ensures var s := Decide(exp, Request(Some(apiKey), Some(filename), content, sampleCount, measured), apiKey, requests, now);
            s.outcome == Failure(UnsupportedFormat) && StatusCode(s.outcome.error) == 400
  {
    UploadChecksDecide(exp, Request(Some(apiKey), Some(filename), content, sampleCount, measured), apiKey, requests, now);
  }

  /**
   * The endpoint as it runs against the shared limiter: the two guards, then the checks of
   * the `try` block, then the audio processor.
   */
  method HandleDetectVoice(exp: real -> real, limiter: RateLimit.RateLimiter, req: Request, apiKey: string, now: real)
    returns (outcome: Result<Scoring.Detection, Rejection>)
    requires Scoring.ExpAxioms(exp)
    requires limiter.maxRequests == RateLimitRequests && limiter.windowSeconds == RateLimitWindowSeconds
    modifies limiter
    ensures outcome == Decide(exp, req, apiKey, old(limiter.requests), now).outcome
    ensures limiter.requests == Decide(exp, req, apiKey, old(limiter.requests), now).requests
  {
    var verified := VerifyApiKey(req.apiKey, apiKey);
    if verified.Failure? {
      return Failure(verified.error);
    }
    var allowed := limiter.IsAllowed(ClientIdOf(req.apiKey), now);
    if !allowed {
      return Failure(RateLimitExceeded);
    }
    var validated := ValidateUpload(req.filename, req.content);
    if validated.Failure? {
      return Failure(validated.error);
    }
    outcome := Success(Scoring.DetectVoice(exp, req.sampleCount, req.measured));
  }
}
