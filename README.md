# AI voice detection API: admission and decision core in Dafny

This project models the core of an HTTP service. A client uploads a WAV or MP3
recording to `POST /detect-voice`, and the service answers "AI-generated" or
"human" with a confidence and an explanation. Three parts are modelled:

- **The sliding-window rate limiter** (`RateLimiter` in `main.py`). It is a class
  whose `requests` field maps each client id to its request timestamps.
  `RateLimiter.IsAllowed` prunes the timestamps that have left the window,
  refuses the call when the window is full, and otherwise records `now`.
  Its postcondition ties the new state to the functions `Allowed` and `Updated`.
  Lemmas about those functions prove:
  - the budget: no client ever holds more than `max_requests` timestamps;
  - ordering: the histories stay sorted;
  - isolation: other clients are not affected;
  - refusal happens exactly when the window already holds `max_requests` requests.
- **The admission chain of `detect_voice`** (`main.py`). It runs these checks in
  order: API key (401/403), rate limit (429), file name (400), extension (400),
  read failure (500), size over 25 MiB (413), empty body (400), and then scoring.
  `Admission.Decide` is the pure reference definition. `HandleDetectVoice` is
  the stateful handler that calls into a shared `RateLimiter`, and it is proved
  to agree with `Decide`. The lemmas state:
  - the order of the checks;
  - that only an authenticated request is charged to the rate-limit budget;
  - the two refusals the service's own test script checks (`empty.wav` with no
    bytes, and `test.txt`).
  The file extension follows `Path(filename).suffix.lower().lstrip('.')`. Path
  components and the last-dot rule are modelled explicitly, so the accepted names
  are characterised exactly: those whose final path component has at least five
  characters and ends in `.wav` or `.mp3`, ignoring ASCII case (so `.wav` and
  `dir/.MP3` are refused).
- **The scoring decision layer** (`AudioProcessor` in `audio_processing.py`):
  - the sub-score normalisations;
  - the 0.35/0.25/0.25/0.15 weighted sum;
  - the logistic smoothing with steepness 8 around 0.5, and the clip;
  - the 0.5 decision threshold;
  - the choice of the key indicator (the first maximum, as Python's `max` picks it);
  - the fallback result `("human", 0.3, …)` when audio cannot be loaded or is
    shorter than one second (16000 samples).

  The exponential is a parameter `exp`, constrained by `ExpAxioms`: `exp(0) = 1`,
  `exp` is positive, and it is strictly increasing. `ExpAxiomsSatisfiable` shows
  that these constraints can be met. The signal statistics that librosa computes
  from the audio are inputs (`Measurements`).

Where the service's documentation and its code differ, the model follows the code:
- For a "human" answer, the reported confidence is the AI probability `p` itself,
  not `1 - p`. Only the explanation text uses `1 - p`.
- The component scores are capped at 1 but not floored at 0, so the weighted sum
  can be negative (`WeightedSumCanBeNegative`).

Modules:
- `Wrappers` holds `Option` and `Result`.
- `RateLimit` is the rate limiter.
- `PathSuffix` is the extension computation.
- `Scoring` is the audio decision layer.
- `Admission` is the endpoint.

## Model

| member | source | states |
|---|---|---|
| RateLimit.Pruned | main.py:63-66 | the kept timestamps are exactly those of the history that are later than the cutoff, and there are no more of them than before |
| RateLimit.Prune | main.py:63-66 | the filtering loop computes exactly `Pruned` of the history |
| RateLimit.PrunedLength | main.py:63-69 | the number of timestamps kept equals an independent count of the history's timestamps after the cutoff |
| RateLimit.PrunedSorted | main.py:63-66 | pruning a sorted history leaves it sorted |
| RateLimit.RefusedIffWindowFull | main.py:59-70 | a call is refused exactly when at least `max_requests` of the client's timestamps lie after `now - window_seconds` |
| RateLimit.UpdatedHistory | main.py:59-74 | after a call the client's entry exists and holds the pruned history; `now` is appended exactly when the call is admitted; with a positive window, nothing at or before the cutoff survives |
| RateLimit.OtherClientsUnchanged | main.py:55-73 | a call for one client leaves every other client's history as it was; the only key ever added is the caller's, as the defaultdict does |
| RateLimit.BoundedPreserved | main.py:69-73 | if every client holds at most `max_requests` timestamps, that still holds after a call |
| RateLimit.SortedPreserved | main.py:59-73 | if every history is sorted and no later than `now`, this still holds after a call at `now` |
| RateLimit.ReplayKeepsBounded | main.py:69-73 | over any sequence of calls from a fresh limiter, no client ever holds more than `max_requests` timestamps |
| RateLimit.ReplayKeepsSorted | main.py:59-73 | over any sequence of calls with non-decreasing clock readings, every history stays sorted |
| RateLimit.RateLimiter.constructor | main.py:52-55 | the limiter stores its limit and window and starts with no recorded requests |
| RateLimit.RateLimiter.IsAllowed | main.py:57-74 | the answer is `Allowed` of the old state and the new state is `Updated` of the old state; the per-client bound and the sorted order are preserved |
| PathSuffix.LastIndexOf | main.py:186 | the last position holding the character, or -1 if there is none, as `str.rfind` returns it inside `PurePath.suffix` |
| PathSuffix.Name | main.py:186 | the final path component never contains a separator and is never `.` |
| PathSuffix.NameIsLastComponent | main.py:186 | the name is the last of the path's components (the `/`-separated segments other than empty ones and `.`, split by an independent front-to-back definition), and empty when there is none |
| PathSuffix.Lower | main.py:186 | lower-casing keeps the length and maps each character on its own |
| PathSuffix.StripLeadingDots | main.py:186 | the result is empty or does not start with a dot |
| PathSuffix.StripLeadingDotsDropsDots | main.py:186 | the result is a suffix of the input, and everything removed in front of it is a dot |
| PathSuffix.AcceptedNameIsNotEmpty | main.py:179-187 | a file name whose extension is accepted is never empty, so the empty-name check cannot be skipped by an accepted name |
| PathSuffix.ExtensionAllowedIff | main.py:186-187 | the extension is `wav` or `mp3` exactly when the final path component is at least five characters long and ends in `.wav` or `.mp3`, ignoring ASCII case |
| PathSuffix.ExtensionAfterLastDot | main.py:186 | the extension is the lower-cased text after the last dot of the final component when that dot is neither first nor last, and empty otherwise |
| PathSuffix.PlainName | main.py:186 | a name without separators that is neither empty nor `.` is its own final component |
| PathSuffix.EmptyWavExtension | test_api.py:91 | `empty.wav` has extension `wav`, which is accepted |
| PathSuffix.TestTxtExtension | test_api.py:119 | `test.txt` has extension `txt`, which is not accepted |
| Admission.StatusCode | main.py:99-233 | 400 is the status of exactly the missing-name, wrong-format and empty-file refusals; 500 is the status of exactly the processing error |
| Admission.VerifyApiKey | main.py:97-112 | a missing or empty header is 401, any other key than the configured one is 403, and the configured key is accepted and returned |
| Admission.VerifiedClientIsKey | main.py:115-119 | once the key is verified, the rate-limit client id is that key, never `anonymous` |
| Admission.TooLargeIffOver25MiB | main.py:196-202 | a body is too large exactly when it holds more than 26214400 bytes |
| Admission.ValidateUpload | main.py:177-208 | an upload passes exactly when it has a name, an accepted extension, a readable body of at most 25 MiB, and that body is not empty; a passing upload yields its length |
| Admission.Decide | main.py:169-234 | a request that reaches scoring is answered with a confidence in [0, 1] |
| Admission.AdmissionOrder | main.py:169-208 | the outcome is the first failing check in the order key present, key valid, rate limit, name, format, read, size, empty; scoring happens only when none fails |
| Admission.BudgetChargedAfterAuthentication | main.py:169-173 | a request refused by authentication leaves the rate-limit state untouched; an authenticated one is charged to its key exactly as `is_allowed` would do |
| Admission.AuthenticationFailures | main.py:169-173 | for any request carrying a file part, one without a key gets 401 and one with a wrong key gets 403, whatever else it holds, and neither touches the rate-limit state, since authentication runs before the rate-limit check |
| Admission.UploadChecksDecide | main.py:177-215 | for an authenticated request within its budget, the outcome is the upload validation's failure, or scoring when the upload is valid |
| Admission.EmptyUploadRejected | test_api.py:83-99 | an authenticated, admitted upload with an accepted extension and an empty body is refused as empty with 400 |
| Admission.WrongFormatRejected | test_api.py:111-127 | an authenticated, admitted upload whose extension is not `wav` or `mp3` is refused for its format with 400 |
| Admission.HandleDetectVoice | main.py:143-234 | the handler's outcome and the limiter's new state are those of `Decide` applied to the limiter's old state |
| Scoring.ArtifactScore | audio_processing.py:169-203 | the artifact score is at most 1 for non-negative smoothness, and at least 0 when formant regularity and periodicity are non-negative and the SNR ratio is at least 5 |
| Scoring.TemporalScore | audio_processing.py:205-229 | the temporal score is at most 1 for a non-negative interval statistic, and at least 0 for a non-negative RMS variation |
| Scoring.SpectralScore | audio_processing.py:231-255 | the spectral score is at most 1 for non-negative centroid variation and flatness at most 1, and at least 0 for non-negative flatness and harmonic ratio |
| Scoring.FeatureScore | audio_processing.py:278-279 | the feature score is at most 1, equals 1 exactly when the variance is at most 0, and is negative exactly when the variance exceeds 5 |
| Scoring.WeightedSum | audio_processing.py:270-287 | when all four scores lie in [0, 1], so does their weighted sum |
| Scoring.WeightsSumToOne | audio_processing.py:270-275 | the four weights are positive and add up to 1 |
| Scoring.WeightedSumCanBeNegative | audio_processing.py:195-287 | a low SNR ratio gives a negative artifact score, and the weighted sum can fall below 0 |
| Scoring.Logistic | audio_processing.py:290 | the smoothed probability lies strictly between 0 and 1 and is at least 0.5 exactly when its argument is at least 0.5 |
| Scoring.LogisticIncreasing | audio_processing.py:290 | the smoothing is strictly increasing |
| Scoring.Classify | audio_processing.py:257-292 | the AI probability lies in [0, 1] and reaches the 0.5 threshold exactly when the weighted sum does |
| Scoring.ClassifyMonotone | audio_processing.py:282-292 | the AI probability rises strictly with each of the artifact, temporal and spectral scores, and does not rise with the feature variance |
| Scoring.MaxByScore | audio_processing.py:318 | the pick has the largest score, and every entry before it scores strictly less (Python's `max` keeps the first maximum) |
| Scoring.KeyIndicatorIsFirstMaximum | audio_processing.py:312-318 | the key indicator is spectral artifacts exactly when the artifact score is the largest; it is pitch consistency exactly when the temporal score beats the artifact score and is at least the spectral score; otherwise it is spectral patterns |
| Scoring.GenerateResponse | audio_processing.py:294-334 | the answer is AI-generated exactly when the probability is at least 0.5; an AI answer is AI evidence quoting the probability; a human answer is human evidence quoting one minus it |
| Scoring.LoadAudio | audio_processing.py:104-121 | loading succeeds exactly when the audio decodes to at least 16000 samples, and then yields that count |
| Scoring.DetectVoice | audio_processing.py:55-102 | the confidence always lies in [0, 1]; undecodable or too-short audio, or a failing analysis, gives the fallback answer human with 0.3 |
| Scoring.DetectionOnSuccess | audio_processing.py:83-98 | on success the reported confidence is the AI probability for both labels, the label is AI-generated (written `"AI-generated"`, otherwise `"human"`) exactly when it reaches 0.5, an AI explanation names the key indicator and quotes the confidence, and a human explanation quotes one minus the confidence |
| Scoring.ShortAudioFallsBack | audio_processing.py:115-117 | audio shorter than one second at 16 kHz always yields the fallback answer, labelled `"human"` |

## Left out

- Feature extraction is not modelled: the MFCC, STFT, autocorrelation, onset, centroid, flatness and HPSS statistics that librosa computes from the samples. These statistics are the fields of `Measurements`. The numeric `features` vector enters only through its variance statistic. A failure while computing them is the `None` case of the measurements.
- Audio decoding is not modelled, and neither is the `file_format` argument that `detect_voice` passes to `_load_audio`, which ignores it. Decoding is reduced to "fails" or "yields n samples".
- Floating point is not modelled: all scores are reals. NaN, infinities and the `1e-8` guards in the divisions are not modelled; those guards belong to the statistics, which are inputs.
- `exp` is modelled only by the properties the proofs need: `exp(0) = 1`, positivity, and strict monotonicity.
- `round(confidence, 2)`, the percentage formatting in the explanations, and the exact English sentences are not modelled. Explanations are structured values that carry the indicator and the quoted probability.
- The clock is not modelled: `time.time()` is the `now` parameter of `IsAllowed`, `Decide` and `HandleDetectVoice`. The timestamp and processing-time fields of the response are left out.
- The environment is a parameter: the configured `API_KEY` read from the environment is the `apiKey` parameter.
- FastAPI is not modelled: routing, CORS, the exception handlers that only wrap a refusal into JSON, the health and root endpoints, and uvicorn start-up. A request with no file part at all is refused by the framework before the handler runs, so it is not modelled. An upload without a file name is the `None` filename.
- `file.read()` is reduced to its result: the byte count, or `None` when reading fails (500). The body's bytes matter only through their length and the samples they decode to.
- Concurrency is not modelled: the shared limiter is used by one call at a time, and the asynchronous scheduling and thread offload are not modelled.
- Pathlib is modelled on POSIX paths only: final component, then last dot, as CPython up to 3.12 computes `suffix`. Windows drive and backslash handling is not modelled, and neither are Python 3.13's changes to `suffix`.
- `str.lower` is modelled for ASCII letters only. Other Unicode case mappings are not modelled.
- Scoring.TemporalScore: the `else 0.5` branch for an empty score list cannot be reached, because the RMS score is always present, so the model does not include it.
- Scoring.ArtifactScore: the bound 0 is stated only for non-negative formant regularity and periodicity and an SNR ratio of at least 5, because the code does not floor `min(1.0, x / 5)`, `min(1.0, (snr - 5) / 20)` or `min(1.0, periodicity)` (`WeightedSumCanBeNegative`). The bound 1 needs non-negative smoothness, because `1 - min(1.0, x / 2000)` exceeds 1 for negative `x`.
- Scoring.TemporalScore: the bound 0 is stated only for a non-negative RMS variation, because `min(1.0, rms / 0.5)` is not floored. The bound 1 needs a non-negative interval statistic, because `1 - min(1.0, x / 2)` exceeds 1 for negative `x`.
- Scoring.SpectralScore: the bound 0 is stated only for non-negative flatness and harmonic ratio, because the mean flatness enters unclipped and `min(1.0, ratio / 0.8)` is not floored. The bound 1 needs flatness at most 1 and a non-negative centroid variation, for the same two reasons.
- The test script's two authentication requests (no key, wrong key) post no file part. The required `file` parameter makes the framework refuse them before `verify_api_key` runs, so they cannot be represented here. `Admission.AuthenticationFailures` states the 401/403 answers for requests that do carry a file.
