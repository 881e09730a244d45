# mixamo-blend-pipeline: a verified model of the pipeline's deterministic core

This project models the parts of the mixamo-blend-pipeline that can be stated
precisely once time, randomness, the file system, the environment and the
cloud SDKs are passed in as parameters. It then proves what the code and its
tests promise about them. These parts are:

- the resilience layer: capped exponential backoff, the bounded retry
  wrapper, the circuit breaker and the transient-error classifier;
- the workflow configuration schema validator;
- Google Cloud Storage path checks and upload pre-validation;
- health classification and the probe endpoints' HTTP codes;
- the NPC mission engine;
- the secret manager's backend choice and cache;
- the download and blend stages' input checks and batch loops;
- `PipelineConfig.from_env` with its `get_config` singleton;
- the `--metadata key=value` parser of the upload command line.

One module models each source file:

| module | file | form |
|---|---|---|
| `Retry` | src/utils/retry.py (backoff, retry loop, classifier) | functions; `RetryWithBackoff` is a `while` loop proved against the accumulator function `RetryFrom` |
| `Breaker` | src/utils/retry.py (circuit breaker) | two classes, `CircuitBreaker` and `CircuitBreakerStats`, whose methods are proved to be the pure steps `CallStep`, `FailureStep`, and so on, with lemmas about those steps |
| `ConfigLoader` | src/utils/config_loader.py | methods with loops, proved against the functions `MissingFrom`, `ItemsFrom`, `SectionErrors` and `ConfigErrors` |
| `Uploader` | src/uploader/uploader.py | functions, plus the `UploadBatch` loop |
| `HealthCheck` | src/utils/health_check.py | functions; class `HealthChecker` |
| `NpcEngine` | src/npc_engine/engine.py | class `NPCEngine` over maps, with a registration order |
| `Secrets` | src/utils/secrets.py | class `SecretManager` whose cache is a `map` field |
| `Downloader` | src/downloader/downloader.py | functions, plus the `DownloadBatch` loop |
| `Blender` | src/blender/blender.py | functions, plus the `BlendBatch` loop |
| `EnvConfig` | src/utils/config.py | the function `FromEnv`; class `ConfigSingleton` |
| `UploadCli` | scripts/upload.py | the `ParseMetadata` loop, proved against the fold `Parsed` |

Six shared modules model the Python runtime the code relies on:

- `Optional`: `Option`.
- `Strings`: `strip`, `lower`, `in`, `startswith`, `str(int)`, zero padding. Whitespace is Python's full `str.isspace()` set, Unicode spaces such as U+3000 included.
- `PyValue`: parsed YAML/JSON values, the exception class hierarchy, and Python's `in`, subscript, `get` and `len` with their `TypeError`s.
- `Paths`: `pathlib` name, suffix, `/`, and existence and size over an abstract file system.
- `Environ`: `os.getenv`.
- `Batch`: the "append one result per item" loop shared by the three batch functions.

Python exceptions are data. `Outcome<T>` is either `Ok(value)` or
`Raised(exc)`, and an `Exc` carries its class, its message and an optional
HTTP status. `except C` is modelled by `IsSubclass`.

Code and design description disagree in two places. The model follows the code both times:

- The design describes a rejection by an open breaker as fail-fast. In the code, `CircuitBreakerError` derives from `Exception`, and the retry wrapper retries `(Exception,)` by default. So a retry loop around an open breaker retries every rejection until all attempts are used (`Breaker.RetryRetriesOpenBreaker`).
- `BlendConfig(**config_dict)` rejects any key that is not a dataclass field, `output_filename` included. The `output_filename` shown in `blend_batch`'s docstring therefore always gives an "Invalid config" result, as the repository's own blender tests expect (`Blender.OutputFilenameRejected`).

## Model

| member | source | states |
|---|---|---|
| Retry.BackoffDelay | src/utils/retry.py:105-116 | Without jitter the delay is the smaller of `base_delay * multiplier**attempt` and `max_delay`. With jitter it is the jitter factor times that capped delay. |
| Retry.BackoffBelowCap | src/utils/retry.py:105-109 | Below the cap, the jitter-free delay is exactly the exponential delay. |
| Retry.BackoffExample | src/utils/retry.py:98-103 | The documented example: attempt 2 with base 1.0, multiplier 2.0, cap 60 and no jitter gives 4.0. |
| Retry.DefaultSchedule | src/utils/retry.py:99 | With the defaults and no jitter, attempts 0, 1 and 2 wait 1, 2 and 4 seconds. |
| Retry.BackoffJitterBounds | src/utils/retry.py:112-114 | With a jitter factor in [0.5, 1.5], the delay lies between 0.5 and 1.5 times the capped delay. |
| Retry.JitterExceedsCap | src/utils/retry.py:108-114 | Jitter is applied after the cap, so the delay can exceed `max_delay`: attempt 6, cap 60 and factor 1.5 give 90. |
| Retry.BackoffMonotone | src/utils/retry.py:105-109 | With `multiplier >= 1`, the jitter-free delay never decreases from one attempt to the next. |
| Retry.RetryWithBackoff | src/utils/retry.py:165-233 | The wrapper's loop returns the outcome and the number of calls, and sleeps the delays, that the reference function `RetrySpec` gives. `RetrySpec` includes the `ValueError` that `time.sleep` raises on a negative delay. |
| Retry.RetryFromBounds | src/utils/retry.py:169-223 | From any iteration, the loop never calls past `max_attempts` and sleeps fewer times than it calls. |
| Retry.RetryAtMostMaxAttempts | src/utils/retry.py:169-223 | The function is called at most `max_attempts` times. There are fewer sleeps than calls. |
| Retry.RetryFromStopsAt | src/utils/retry.py:178-223 | From any iteration: retried failures up to attempt k, then an attempt k that succeeds or raises an uncaught exception. The run returns attempt k's own outcome after k+1 calls. |
| Retry.RetryReturnsFirstSuccess | src/utils/retry.py:178-189 | k retried failures, then a success, give exactly that success after k+1 calls, with k sleeps. Assumes the callback lets nothing escape and every delay is non-negative. |
| Retry.RetryFromAllFail | src/utils/retry.py:191-227 | When every remaining attempt fails with a retried exception, the loop uses every remaining attempt and re-raises the last exception. |
| Retry.RetryAllFail | src/utils/retry.py:191-227 | A function that always fails with a retried exception runs `max_attempts` times and sleeps `max_attempts-1` times, with the delays of attempts 0..max_attempts-2. The last exception is re-raised unchanged. Assumes every delay is non-negative. |
| Retry.RetryNonMatchingPropagates | src/utils/retry.py:191 | After k retried failures, an exception outside `exceptions` at attempt k propagates at once: k+1 calls, k sleeps, no retry. |
| Retry.DelaysNonNegative | src/utils/retry.py:105-116 | Non-negative `base_delay`, `max_delay`, `multiplier` and jitter factors give only non-negative delays, which `time.sleep` accepts. |
| Retry.RetryNegativeDelayRaises | src/utils/retry.py:195-220 | A negative delay after a retried failure makes `time.sleep` raise `ValueError("sleep length must be non-negative")`. It leaves the wrapper after one call, with no sleep and no further attempt. |
| Retry.NegativeBaseDelay | src/utils/retry.py:105-109 | A negative `base_delay` without jitter gives a negative first delay. |
| Retry.RetryNoAttempts | src/utils/retry.py:169-233 | With `max_attempts <= 0` the function is never called, and a `RuntimeError` "<name> failed without exception" is raised. |
| Retry.RetryFromCallbackSwallowed | src/utils/retry.py:211-217 | From any iteration, a callback that raises only `Exception` subclasses leaves the loop's run unchanged. |
| Retry.RetryCallbackErrorsSwallowed | src/utils/retry.py:211-217 | Errors an `on_retry` callback raises are swallowed: the run equals the run with no callback. |
| Retry.RetryTwoFailuresThenSuccess | src/utils/retry.py:169-223 | Two failures, then a success, with the defaults and no jitter: 3 calls, sleeps of 1 s and 2 s, and the success is returned. |
| Retry.IsTransientError | src/utils/retry.py:515-566 | `is_transient_error` holds iff the exception is an `OSError` subclass, or has status 429, 500, 502, 503 or 504, or has a message with a transient keyword, in any case. |
| Retry.OSErrorsAreTransient | src/utils/retry.py:532-539 | Every `OSError` subclass is transient. |
| Retry.TransientByKindOnlyOSErrors | src/utils/retry.py:532-539 | `isinstance(e, (ConnectionError, TimeoutError, OSError))` holds exactly for the `OSError` subclasses. |
| Retry.TransientIgnoresCase | src/utils/retry.py:550-560 | The classification does not depend on the case of the exception message. |
| Retry.NotTransientWithoutSignals | src/utils/retry.py:532-560 | Take an exception that is not an `OSError` and has no transient status (429, 500, 502, 503, 504). It is transient exactly when its message contains one of the keywords. |
| Breaker.InitialInvariant | src/utils/retry.py:328-340 | A fresh breaker satisfies the invariant: CLOSED iff no opening time, and a count below the threshold while CLOSED. The breaker's and the stats' last failure times agree, and successes plus failures never exceed requests. |
| Breaker.CallPreservesInvariant | src/utils/retry.py:358-398 | Every call keeps the invariant. |
| Breaker.ResetPreservesInvariant | src/utils/retry.py:482-494 | A manual reset keeps the invariant. |
| Breaker.OpenHasOpeningTime | src/utils/retry.py:407-408 | Under the invariant an OPEN breaker always has `opened_at`, so the `None` branch of `_should_attempt_reset` is never taken while OPEN. |
| Breaker.ResetDueMonotone | src/utils/retry.py:400-411 | `_should_attempt_reset` becomes true exactly at `opened_at + timeout` and stays true as time goes on. It is false before that time. |
| Breaker.CallCountsRequest | src/utils/retry.py:374 | Every call increments `total_requests` by one, rejected calls included. |
| Breaker.OpenRefusesBeforeTimeout | src/utils/retry.py:377-384 | OPEN with `now - opened_at < timeout`: the function does not run, and only `total_requests` changes. |
| Breaker.OpenTriesAfterTimeout | src/utils/retry.py:377-381 | OPEN once the timeout has elapsed: the breaker moves to HALF_OPEN, `state_changes` goes up by one, and the function runs. |
| Breaker.ClosedSuccessResetsCount | src/utils/retry.py:420-440 | A success while CLOSED sets `failure_count` to 0 and leaves the breaker CLOSED. |
| Breaker.ClosedFailureOpensAtThreshold | src/utils/retry.py:442-471 | A counted failure while CLOSED opens the breaker with `opened_at = now` exactly when the incremented count reaches `failure_threshold`. |
| Breaker.HalfOpenSuccessCloses | src/utils/retry.py:429-432 | A success while HALF_OPEN closes the breaker with `failure_count = 0` and `opened_at = None`. |
| Breaker.HalfOpenFailureReopens | src/utils/retry.py:458-462 | A counted failure while HALF_OPEN reopens the breaker from `now`. |
| Breaker.UnexpectedFailureUntouched | src/utils/retry.py:395-398 | An exception outside `expected_exception` leaves the breaker state, `failure_count`, the failure stats and `opened_at` unchanged. |
| Breaker.CallReturnsOwnOutcome | src/utils/retry.py:391-398 | A call that ran the function hands back the function's own result or exception. |
| Breaker.ClosedFailuresCount | src/utils/retry.py:442-471 | From a CLOSED breaker, counted failures below the threshold add up in `failure_count` and keep the breaker CLOSED. |
| Breaker.ThresholdFailuresOpen | src/utils/retry.py:464-471 | `failure_threshold` consecutive counted failures from a clean CLOSED breaker open it at the last failure's time. |
| Breaker.RunAppend | src/utils/retry.py:358-398 | Running two sequences of calls one after the other is the same as running their concatenation. |
| Breaker.EndToEndScenario | src/utils/retry.py:358-418 | Threshold 3, timeout 60: three failures at t=0 open the breaker. A call right after is refused without running, and a call at t=61 runs as the HALF_OPEN trial. |
| Breaker.CircuitBreakerStats.constructor | src/utils/retry.py:257-273 | Fresh statistics are all zero, with no last failure time. |
| Breaker.CircuitBreaker.constructor | src/utils/retry.py:306-340 | Stores the four settings. The breaker starts CLOSED, with a zero count, no times and fresh statistics. |
| Breaker.CircuitBreaker.TransitionToHalfOpen | src/utils/retry.py:413-418 | The new state is `HalfOpenStep` of the old one: HALF_OPEN, the attempts reset, one more state change. |
| Breaker.CircuitBreaker.OpenCircuit | src/utils/retry.py:473-480 | The new state is `OpenStep`: OPEN, `opened_at = now`, one more state change. |
| Breaker.CircuitBreaker.CloseCircuit | src/utils/retry.py:482-489 | The new state is `CloseStep`: CLOSED, count 0, no opening time, one more state change. |
| Breaker.CircuitBreaker.OnSuccess | src/utils/retry.py:420-440 | The new state is `SuccessStep` of the old one. |
| Breaker.CircuitBreaker.OnFailure | src/utils/retry.py:442-471 | The new state is `FailureStep` of the old one at time `now`. |
| Breaker.CircuitBreaker.Reset | src/utils/retry.py:491-494 | A manual reset performs `CloseStep` and keeps the invariant. |
| Breaker.CircuitBreaker.GetStats | src/utils/retry.py:496-503 | `get_stats` returns the live statistics object itself, not a copy. |
| Breaker.CircuitBreaker.Call | src/utils/retry.py:358-398 | The new state and whether the function ran are those given by `CallStep`. The result is the function's outcome if it ran, else `CircuitBreakerError("Circuit breaker is OPEN")`. The invariant is kept. |
| Breaker.StaysOpen | src/utils/retry.py:377-384 | While every attempt comes before the timeout, an OPEN breaker stays OPEN with the same `opened_at`. |
| Breaker.RetryRetriesOpenBreaker | src/utils/retry.py:506-508 | The retry wrapper with `(Exception,)` around an OPEN breaker retries each rejection, given non-negative delays. All `max_attempts` calls are used with `max_attempts-1` sleeps, the function never runs, and `CircuitBreakerError` is raised. |
| Breaker.OpenMessageNoKeyword | src/utils/retry.py:384 | "Circuit breaker is OPEN", lower-cased, contains none of the transient keywords. |
| Breaker.OpenErrorNotTransient | src/utils/retry.py:506-560 | `is_transient_error` does not classify `CircuitBreakerError` as transient. |
| ConfigLoader.ErrorToString | src/utils/config_loader.py:79-83 | `str(error)` starts with "field: message". It ends with " (got: value)" when a value is present and is exactly "field: message" otherwise. |
| ConfigLoader.GotShownIffValue | src/utils/config_loader.py:79-83 | For fields and messages without "(got: ", the rendering contains "(got: " iff the error carries a value. |
| ConfigLoader.TopLevelErrors | src/utils/config_loader.py:155-175 | The top-level checks give at most two errors, each on field `version` or `workflow`. |
| ConfigLoader.Check.Errors | src/utils/config_loader.py:223-242 | An optional field's check gives at most one error, none exactly when the value is allowed, named `prefix.field`. |
| ConfigLoader.MissingFieldErrors | src/utils/config_loader.py:218-220 | The required-field loop over one item returns what the reference function `MissingFrom` gives. |
| ConfigLoader.ValidateItem | src/utils/config_loader.py:214-242 | The body of the per-item loop returns that item's errors, `ItemErrors`. |
| ConfigLoader.ValidateSection | src/utils/config_loader.py:197-244 | `_validate_blend_batch`, `_validate_download_batch` and `_validate_upload_batch` return `SectionErrors`: missing, not a list, or empty, then the items in order. |
| ConfigLoader.FullPipelineErrors | src/utils/config_loader.py:316-330 | Every full_pipeline error names a section that is absent from the config. |
| ConfigLoader.ValidateConfig | src/utils/config_loader.py:135-194 | `validate_config` returns `ConfigErrors`: the top-level errors, then the workflow-specific ones. |
| ConfigLoader.TopLevelFirst | src/utils/config_loader.py:152-187 | The version and workflow errors come first in every result. |
| ConfigLoader.MissingVersionFirst | src/utils/config_loader.py:155-156 | A missing `version` gives `ConfigError("version", "Missing required field")` as the first error. |
| ConfigLoader.UnsupportedVersionFirst | src/utils/config_loader.py:157-164 | A version other than "1.0" gives "Unsupported version (supported: ['1.0'])" as the first error, carrying the value. |
| ConfigLoader.NoVersionErrorWhenSupported | src/utils/config_loader.py:155-187 | With version "1.0", no error names `version`. |
| ConfigLoader.WorkflowErrorsFields | src/utils/config_loader.py:178-187 | The workflow-specific errors never name `version` or `workflow`. |
| ConfigLoader.SectionErrorsFields | src/utils/config_loader.py:197-313 | Every error of a section validator names the section or one of its items. |
| ConfigLoader.ItemErrorsFields | src/utils/config_loader.py:214-242 | Every error of item i is named by `key[i]`. |
| ConfigLoader.OtherWorkflowsUnchecked | src/utils/config_loader.py:166-187 | Take a missing or invalid workflow. Only the top-level errors are reported, and they include the workflow error, which carries the invalid value. |
| ConfigLoader.SectionMissingOrNotList | src/utils/config_loader.py:201-208 | A missing section, or one that is not a list, gives exactly one error, and validation of that section stops. |
| ConfigLoader.SectionEmpty | src/utils/config_loader.py:210-211 | An empty list gives exactly "Must contain at least one blend/download/upload". |
| ConfigLoader.AbsentEmpty | src/utils/config_loader.py:218-220 | No required field is absent exactly when every one is present. |
| ConfigLoader.MissingFromDict | src/utils/config_loader.py:218-220 | On a dictionary item the required-field loop reports exactly the absent fields, in order. |
| ConfigLoader.MissingFieldsReported | src/utils/config_loader.py:214-220 | A dictionary item's errors start with one `key[i].field` "Missing required field" error per absent required field, in order. |
| ConfigLoader.OptionalsDict | src/utils/config_loader.py:222-242 | On a dictionary item the optional checks never raise. They pass exactly when every present value is allowed. |
| ConfigLoader.BlendOptionalFields | src/utils/config_loader.py:223-242 | A blend's optional checks pass iff a present `ratio` is a number in [0.0, 1.0] and a present `method` is linear, snn or spade. |
| ConfigLoader.RatioErrorsReported | src/utils/config_loader.py:225-230 | A non-numeric ratio gives "Must be a number" with its type name. An out-of-range ratio gives "Must be between 0.0 and 1.0" with its value. |
| ConfigLoader.FormatAndFolder | src/utils/config_loader.py:272-311 | A download `format` must be fbx or bvh. An upload `folder` must be a string. |
| ConfigLoader.FullPipelineMissing | src/utils/config_loader.py:321-328 | full_pipeline gives one error per missing download/blend/upload section, and nothing else. |
| ConfigLoader.StringItemPassesRequiredFields | src/utils/config_loader.py:302-303 | A string item passes the membership test by substring: the upload item "file" gives no errors. |
| ConfigLoader.NonContainerItemRaises | src/utils/config_loader.py:218-219 | An item that is not a dict, list or string makes the validator raise `TypeError`. |
| ConfigLoader.ItemErrorsDict | src/utils/config_loader.py:214-242 | A dictionary item validates without raising, and it has no errors iff it holds every required field with allowed optional values. |
| ConfigLoader.ItemsFromDicts | src/utils/config_loader.py:214-242 | From any index, the item loop over dictionaries never raises, and it adds no errors exactly when every remaining item is valid. |
| ConfigLoader.SectionErrorsDicts | src/utils/config_loader.py:197-313 | A list section of dictionaries validates without raising, and it has no errors iff it is well formed. |
| ConfigLoader.SectionNotOkHasErrors | src/utils/config_loader.py:201-208 | A missing or non-list section always has errors. |
| ConfigLoader.NoErrorsIffWellFormed | src/utils/config_loader.py:189-194 | Take a config whose section items are dictionaries. `validate_config` returns no errors iff the config is well formed: version "1.0", a valid workflow, and a well-formed section or the three full_pipeline sections. |
| ConfigLoader.ExamplesValid | src/utils/config_loader.py:333-403 | Every template of `get_config_examples` validates with zero errors. |
| ConfigLoader.BlendExampleValid | src/utils/config_loader.py:339-363 | The blend_batch template validates with zero errors. |
| ConfigLoader.DownloadExampleValid | src/utils/config_loader.py:364-381 | The download_batch template validates with zero errors. |
| ConfigLoader.UploadExampleValid | src/utils/config_loader.py:382-401 | The upload_batch template validates with zero errors. |
| Uploader.ValidateGcsPath | src/uploader/uploader.py:111-137 | The check is true iff the bucket is non-empty, at most 63 characters, starts with neither "goog" nor "g00g", and contains neither ".." nor "._". |
| Uploader.FolderNeverMatters | src/uploader/uploader.py:128-137 | The destination folder never changes the result; an unusual folder only warns. |
| Uploader.LengthBoundary | src/uploader/uploader.py:115-117 | 63 characters pass the length check; 64 fail it. |
| Uploader.GcsPathExamples | src/uploader/uploader.py:111-125 | Documented cases: "my-bucket" passes with any folder; "", "google-bucket", "bucket..name" and "bucket._name" fail. |
| Uploader.UploadFile | src/uploader/uploader.py:141-322 | Every result carries the input `local_path` and config unchanged. `success` iff a `gcs_uri` is set iff there is no error message. |
| Uploader.UploadCheckOrder | src/uploader/uploader.py:171-250 | Failures come in order: not found (size 0), not a file (size 0), too small, too large, invalid GCS path. A success means every check passed. |
| Uploader.UploadUri | src/uploader/uploader.py:252-305 | An uploadable file, with the SDK calls returning, gives `gs://bucket/` + folder without trailing slashes + `/` + file name, plus the file's size. |
| Uploader.ExtensionOnlyWarns | src/uploader/uploader.py:232-236 | The extension does not decide success. Two paths naming the same file-system entry, with any suffixes (`.bvh` and `.txt`, say), get the same verdict and size. Once the file is found to be a regular file, they also get the same error message. |
| Uploader.SdkErrorsCaught | src/uploader/uploader.py:307-322 | An SDK `Exception` becomes "GCS upload failed: …" with the file size. A non-`Exception` propagates. |
| Uploader.UploadBatch | src/uploader/uploader.py:354-366 | The loop returns `Collect` over the paths: `upload_file` for each path, in order. |
| Uploader.UploadBatchResults | src/uploader/uploader.py:356-366 | When no upload raises, there is one result per path, in input order. Each result is that path's `upload_file` result. |
| Uploader.EmptyBatch | src/uploader/uploader.py:356-358 | An empty path list gives an empty result list. |
| Uploader.BatchWithoutStorage | src/uploader/uploader.py:258-266 | Without `google.cloud.storage`, the first uploadable path raises `ImportError` out of the batch. |
| HealthCheck.AggregateStatus | src/utils/health_check.py:209-229 | The result is the worst component status: UNHEALTHY if any component is, else DEGRADED if any is, else HEALTHY, including for no components. |
| HealthCheck.AggregateIsFold | src/utils/health_check.py:224-229 | The aggregation equals the fold of "worse of two" over the components. |
| HealthCheck.AggregateNeverImproves | src/utils/health_check.py:224-229 | Adding a component never improves the aggregate. |
| HealthCheck.ClassifyDisk | src/utils/health_check.py:304-315 | Less than 10% free is UNHEALTHY, less than 20% is DEGRADED, otherwise HEALTHY. |
| HealthCheck.DiskMonotone | src/utils/health_check.py:304-315 | More free space never gives a worse disk status. |
| HealthCheck.ClassifyMemory | src/utils/health_check.py:364-375 | Over 90% used is UNHEALTHY, over 80% is DEGRADED, otherwise HEALTHY. |
| HealthCheck.MemoryMonotone | src/utils/health_check.py:364-375 | More memory use never gives a better memory status. |
| HealthCheck.CheckModules | src/utils/health_check.py:231-275 | The "python_modules" component is HEALTHY iff every import works. An `ImportError` gives UNHEALTHY; any other exception propagates. |
| HealthCheck.CheckFilesystem | src/utils/health_check.py:277-339 | The "filesystem" component is `ClassifyDisk` of the percentage free. A zero total or any `Exception` gives UNHEALTHY; only non-`Exception`s propagate. |
| HealthCheck.CheckMemory | src/utils/health_check.py:341-399 | The "memory" component is `ClassifyMemory` of the percentage used. Any `Exception` gives UNHEALTHY. |
| HealthCheck.CheckCloud | src/utils/health_check.py:401-512 | The gcs and bigquery components are never UNHEALTHY. They are HEALTHY iff the import works, the bucket or project is set, and access succeeds. |
| HealthCheck.ComponentsInOrder | src/utils/health_check.py:176-185 | The components come in the order python_modules, filesystem, memory, then gcs and bigquery when enabled. |
| HealthCheck.HealthChecker.constructor | src/utils/health_check.py:146-156 | Records the start time and reads the two feature flags as `getenv(key, "false").lower() == "true"`. |
| HealthCheck.HealthChecker.CheckHealth | src/utils/health_check.py:158-207 | Raises iff some check raises. Otherwise the components are those checks in order, the status is their aggregate, and the uptime is now minus the start time. |
| HealthCheck.CloudNeverUnhealthy | src/utils/health_check.py:420-427 | A cloud check never reports UNHEALTHY. A missing bucket or project gives DEGRADED "… not configured". |
| HealthCheck.ResponseCode | src/utils/health_check.py:551-586 | The code is 200, 503 or 404, and 404 exactly for unknown paths. |
| HealthCheck.EndpointCodes | src/utils/health_check.py:551-579 | `/health` gives 200 iff HEALTHY. `/ready` and `/readiness` give 200 iff not UNHEALTHY. `/live` and `/liveness` give 200 iff the modules check is HEALTHY. |
| HealthCheck.HealthyIsReady | src/utils/health_check.py:551-564 | A system that passes `/health` passes `/ready`. |
| HealthCheck.CloudNeverBlocksReadiness | src/utils/health_check.py:420-512 | With modules, disk and memory HEALTHY, `/ready` answers 200 whatever the cloud checks say. |
| NpcEngine.MissionOutcome | src/npc_engine/engine.py:153-223 | The result always carries the mission id. "No agents registered for mission" is checked before "No scenario loaded for mission". On success, `objectives_completed` counts the scenario's objectives, and the reward is always 5.0 times that count. |
| NpcEngine.MissionAfterChecks | src/npc_engine/engine.py:186-232 | Once both checks pass, the result is success with one entry per agent. An `objectives` entry without a length gives the failure with its message. |
| NpcEngine.MissionReportsAgents | src/npc_engine/engine.py:191-221 | On success, the keys of `agents_data` and `animation_sequences` are exactly the registered agents. Each entry holds the agent's role and animation. |
| NpcEngine.NPCEngine.constructor | src/npc_engine/engine.py:35-41 | The engine starts with no mission id, no agents, no scenario and no blended animations. |
| NpcEngine.NPCEngine.RegisterAgent | src/npc_engine/engine.py:43-75 | Returns True iff the id is new. Only then does it store `{role, animation_path, status: "ready"}`. Nothing else changes. |
| NpcEngine.NPCEngine.InjectAnimation | src/npc_engine/engine.py:77-104 | Returns True iff the agent exists. Only then does it set both the agent's `animation_path` and `blended_animations[id]`. |
| NpcEngine.NPCEngine.LoadMissionScenario | src/npc_engine/engine.py:106-132 | Refuses an empty config and leaves the scenario unchanged. Otherwise it stores the config. |
| NpcEngine.NPCEngine.ExecuteMission | src/npc_engine/engine.py:134-232 | Always sets `mission_id`. The result is `MissionOutcome` of the agents and scenario, and nothing else changes. |
| NpcEngine.NPCEngine.MissionStatistics | src/npc_engine/engine.py:234-246 | `mission_id` is the engine's. `num_agents` is `len(agents)`. `agents` is the ids in registration order, the order of `list(self.agents.keys())`. `blended_animations` is the number of injected animations, and `scenario_loaded` holds iff a scenario is loaded. |
| NpcEngine.NPCEngine.Reset | src/npc_engine/engine.py:248-254 | Restores the empty initial state. |
| NpcEngine.ResetStats | src/npc_engine/engine.py:240-254 | After a reset the statistics are those of a fresh engine. |
| NpcEngine.NoAgentsFirst | src/npc_engine/engine.py:157-165 | Without agents the mission fails with "No agents registered for mission", whatever the scenario. |
| NpcEngine.RewardPerObjective | src/npc_engine/engine.py:203-204 | A scenario with n objectives succeeds with reward 5.0·n. |
| NpcEngine.ObjectivesWithoutLength | src/npc_engine/engine.py:203-232 | An integer `objectives` makes `len` raise. The mission fails with "object of type 'int' has no len()". |
| Secrets.ProjectId | src/utils/secrets.py:136 | The project is GOOGLE_CLOUD_PROJECT when non-empty, else BQ_PROJECT. |
| Secrets.DetectConfig | src/utils/secrets.py:121-156 | With a project and KUBERNETES_SERVICE_HOST: Secret Manager with that project. With Kubernetes alone: Kubernetes. Otherwise: environment. Caching is on, with a TTL of 300. |
| Secrets.ProjectAloneIsEnvironment | src/utils/secrets.py:142-156 | A project outside Kubernetes selects the environment backend, with no project id. |
| Secrets.EffectiveBackend | src/utils/secrets.py:158-183 | Secret Manager stays selected only when its client can be created; otherwise the backend becomes the environment. |
| Secrets.Fetch | src/utils/secrets.py:218-222 | Without Secret Manager or its client, the value comes from the environment. Secret Manager's value wins when it holds the secret. Nothing is found only when neither holds it. |
| Secrets.LookupResult | src/utils/secrets.py:213-242 | A cache hit returns the cached value. Otherwise the fetched value is returned. A missing value raises `ValueError` "Required secret '…' not found in …" when required, and returns the default when not. |
| Secrets.CacheAfter | src/utils/secrets.py:238-239 | The cache only grows, never changes an entry, and gains the name iff caching is on and a value was fetched. |
| Secrets.CacheHitIgnoresSources | src/utils/secrets.py:213-215 | A cache hit gives the same result whatever the environment and Secret Manager now hold, and leaves the cache alone. |
| Secrets.SecondLookupCached | src/utils/secrets.py:213-242 | With caching on, a second lookup returns what the first found, even after the secret was rotated. |
| Secrets.OptionalMissingCachesNothing | src/utils/secrets.py:225-235 | A missing optional secret returns the default and caches nothing. |
| Secrets.SecretManager.constructor | src/utils/secrets.py:96-119 | Uses the given or the detected config, falls back to the environment when the client is unavailable, and starts with an empty cache. |
| Secrets.SecretManager.GetSecret | src/utils/secrets.py:185-242 | Returns `LookupResult` and leaves the cache as `CacheAfter` says. The backend does not change. |
| Secrets.SecretManager.GetFromGcp | src/utils/secrets.py:244-283 | Secret Manager's value when the client exists and the access works; the environment's otherwise. |
| Secrets.SecretManager.ClearCache | src/utils/secrets.py:322-329 | Empties the cache and changes nothing else. |
| Secrets.SecretManager.RefreshSecret | src/utils/secrets.py:331-348 | Removes only that name from the cache, then looks it up again as required. |
| Secrets.RefreshIsFresh | src/utils/secrets.py:344-348 | A refresh returns the backend's current value, or raises `ValueError`, never the old cached value. Other cached names stay. |
| Downloader.ValidateDownload | src/downloader/downloader.py:89-152 | An empty or whitespace-only path raises `ValueError`. Otherwise the result is True iff the path exists, is not a directory, has extension fbx or bvh (case-insensitive, dots stripped) and is at least `min_size_bytes`. |
| Downloader.WideSpacePathRaises | src/downloader/downloader.py:116-117 | A path of one ideographic space (U+3000) is whitespace only, so it raises `ValueError("file_path cannot be empty")`. |
| Downloader.MkdirFailure | src/downloader/downloader.py:219-228 | An `OSError` from `mkdir` is re-raised as `OSError` naming the directory; anything else propagates unchanged. |
| Downloader.InputError | src/downloader/downloader.py:202-217 | `ValueError`s in order: empty id, empty output path, then format not fbx/bvh (case-insensitive). None iff all three pass. |
| Downloader.DownloadChecked | src/downloader/downloader.py:219-263 | Raises iff `mkdir` fails. An existing file with `overwrite=False` gives success with its absolute path and size. Otherwise the result is the fixed "not yet implemented" failure. |
| Downloader.DownloadAnimation | src/downloader/downloader.py:156-263 | The three `ValueError`s in order, then `DownloadChecked`. |
| Downloader.NeverDownloads | src/downloader/downloader.py:231-263 | A success only means an existing file was kept. With `overwrite=True`, the result is a failure containing "not yet implemented". |
| Downloader.FormatIgnoresCase | src/downloader/downloader.py:212 | "FBX" and "fbx" give the same result. |
| Downloader.DownloadItem | src/downloader/downloader.py:332-387 | A missing `animation_id` gives a failure with id "unknown". A missing `output_filename` gives a failure carrying the id. Only non-`Exception`s escape. |
| Downloader.BatchPrecheck | src/downloader/downloader.py:309-327 | `ValueError` for empty configs, then for an empty `output_dir`, then the batch directory's `mkdir` failure. |
| Downloader.DownloadBatch | src/downloader/downloader.py:267-397 | Raises the precheck's error when there is one. Otherwise returns one `DownloadItem` per config, in order. |
| Downloader.DownloadBatchResults | src/downloader/downloader.py:332-387 | When every `mkdir` raises at most an `Exception`, there is one result per config, in input order. |
| Blender.LoadBvh | src/blender/blender.py:118-138 | A missing file raises `FileNotFoundError`. Else a suffix other than ".bvh", compared lower-cased, raises `ValueError`. Else `NotImplementedError` is raised. |
| Blender.LoadBvhSuffixCase | src/blender/blender.py:123 | ".BVH" passes the suffix check. |
| Blender.BelowMinFrames | src/blender/blender.py:259 | `transition_frames < 30` is decided for numbers. A non-number raises `TypeError`. |
| Blender.GetItem | src/blender/blender.py:440-455 | `d.get(key, default)` is the value of the first item with that key, or the default when there is none. |
| Blender.FirstUnexpected | src/blender/blender.py:431 | The key `BlendConfig(**d)` complains about is the first key that is not a field. It is None iff every key is a field. |
| Blender.BlendFiles | src/blender/blender.py:272-353 | A missing source is reported before a missing target. Then `mkdir`, then the fixed not-implemented failure. A result never succeeds and carries the config. |
| Blender.BlendMotions | src/blender/blender.py:245-353 | Checks in order: unsupported blend_mode, then `transition_frames < 30`, then the source and target files. Every result has `success=False`, no output path, frame count 0, and the input config. |
| Blender.BlendNeverSucceeds | src/blender/blender.py:340-353 | `blend_motions` never succeeds. With every check passed, it returns the "requires blendanim framework" failure. |
| Blender.SourceCheckedFirst | src/blender/blender.py:275-297 | With neither file present, the error names the source. |
| Blender.MakeBlendConfig | src/blender/blender.py:431-432 | `BlendConfig(**d)` succeeds iff every key is a field. Otherwise it raises `TypeError` "… unexpected keyword argument '<key>'". |
| Blender.DefaultOutputNameExample | src/blender/blender.py:451-454 | The default output name for index 7 is "blend_0007.bvh". |
| Blender.BlendItem | src/blender/blender.py:401-459 | Missing source or target gives "Missing required fields in config i: […]". An invalid dict gives "Invalid config i: …". Otherwise the result is `blend_motions` on `output_dir/<name>`. |
| Blender.BlendBatch | src/blender/blender.py:357-465 | An empty list gives `[]`. A failing `mkdir` propagates. Otherwise there is one `BlendItem` per dict, in order. |
| Blender.OutputFilenameNotAField | src/blender/blender.py:30-52 | `output_filename` is not a `BlendConfig` field. |
| Blender.OutputFilenameRejected | src/blender/blender.py:430-448 | A dict that carries `output_filename` always yields the "Invalid config" failure. |
| Blender.DefaultNameUsed | src/blender/blender.py:451-454 | For every dict `BlendConfig` accepts, the output name is `blend_{i:04d}.bvh`. |
| Blender.BlendBatchResults | src/blender/blender.py:401-459 | When no item raises, there is one result per dict, in input order. |
| EnvConfig.ParseInt | src/utils/config.py:92-95 | `int(s)` in CPython's order. It skips leading whitespace (Python's whitespace without U+001C–U+001F) and reads an optional sign and the run of digits and underscores. A well-formed run of more than 4300 digits raises the `ValueError` "Exceeds the limit (4300 digits) for integer string conversion: …", whatever follows it. Otherwise `int(s)` succeeds iff the run is digit groups separated by single underscores and only whitespace follows. Any other text raises `ValueError` "invalid literal for int() with base 10: " plus at most 200 characters of its repr. |
| EnvConfig.ParseIntOfParts | src/utils/config.py:92-95 | Whitespace, an optional sign, digit groups of at most 4300 digits and whitespace parse to the signed value of the digits. |
| EnvConfig.ParseIntOkParts | src/utils/config.py:92-95 | Conversely, every text `int()` accepts splits into exactly those parts, and its value is theirs. |
| EnvConfig.ParseIntOverLimit | src/utils/config.py:92-95 | Whitespace, a sign and more than 4300 digits in digit groups raise the digit-limit `ValueError` with the digit count, even when something other than whitespace follows. |
| EnvConfig.ParseIntOfSigned | src/utils/config.py:92-95 | A sign followed by digit groups, with nothing around them, parses to their signed value within 4300 digits and raises the limit error beyond. |
| EnvConfig.ParseIntOfIntToString | src/utils/config.py:92-95 | `int(str(n)) == n` when `str(n)` has at most 4300 digits. Beyond that it is the limit error. |
| EnvConfig.ParseIntOfBlank | src/utils/config.py:92-95 | A blank value, such as an empty `MAX_UPLOAD_SIZE_MB`, raises the invalid-literal `ValueError`. |
| EnvConfig.ParseIntIgnoresSpaces | src/utils/config.py:92-95 | Whitespace that `int()` skips, put around a text, leaves the result unchanged. The only exception is that an invalid-literal message quotes the text it was given. |
| EnvConfig.ParseIntOfWideSpaced | src/utils/config.py:92-95 | `int("\u30005") == 5`: non-ASCII whitespace is skipped like ASCII whitespace. |
| EnvConfig.ParseIntOfSeparatorSpaced | src/utils/config.py:92-95 | `int("\x1c5")` raises the invalid-literal `ValueError`: U+001C is not skipped, though `str.isspace()` accepts it. |
| EnvConfig.Required | src/utils/config.py:61-79 | A required variable passes iff it is set and non-empty. Otherwise `ValueError` "<KEY> environment variable is required. Set it in .env or export it." is raised. |
| EnvConfig.FromEnv | src/utils/config.py:61-96 | Succeeds iff the three required variables are present and both numeric settings parse. Every failure is a `ValueError`. |
| EnvConfig.RequiredInOrder | src/utils/config.py:65-79 | GCS_BUCKET is checked first, then BQ_PROJECT, then BQ_DATASET. |
| EnvConfig.FromEnvFields | src/utils/config.py:82-96 | The required fields are copied. Absent optional variables are None. `es_index` defaults to "mb_blends_v1". The two integers are `int()` of the variable or of its default. |
| EnvConfig.FromEnvDefaults | src/utils/config.py:86-95 | With only the required variables set: no optional values, `es_index` "mb_blends_v1", 500 MB and 300 seconds. |
| EnvConfig.ParseDefaults | src/utils/config.py:92-95 | `int("500") == 500` and `int("300") == 300`. |
| EnvConfig.FromEnvParsesIntegers | src/utils/config.py:92-95 | With the required variables set, MAX_UPLOAD_SIZE_MB and UPLOAD_TIMEOUT_SECONDS written as `str(n)` load iff both have at most 4300 digits, and are then read back as n. |
| EnvConfig.ConfigSingleton.constructor | src/utils/config.py:100 | No configuration is loaded at first. |
| EnvConfig.ConfigSingleton.GetConfig | src/utils/config.py:103-118 | Once loaded, the same configuration is returned and kept. Otherwise it is `from_env`, stored on success, and the store stays empty on failure. |
| UploadCli.ParseMetadata | scripts/upload.py:103-117 | None or an empty list gives `{}`. Otherwise the result is `Parsed(items)`, the pairs folded in order. |
| UploadCli.SeparatorAt | scripts/upload.py:114 | `split("=", 1)` splits at the first '='. |
| UploadCli.FoldKeys | scripts/upload.py:109-115 | The keys of the fold are exactly the keys of the entries seen. |
| UploadCli.FoldLastWins | scripts/upload.py:115 | The value of a key is that of the last entry naming it. |
| UploadCli.ParsedKeys | scripts/upload.py:109-115 | The keys are exactly the stripped keys of the items containing '='. |
| UploadCli.LastPairWins | scripts/upload.py:115 | A later duplicate key overwrites an earlier one. |
| UploadCli.NonPairSkipped | scripts/upload.py:110-112 | An item without '=' leaves the dictionary as it was. |
| UploadCli.SplitAtFirstEquals | scripts/upload.py:114-115 | "k=v=w" splits into key `k` and value `v=w`, both stripped. |

## Left out

- Logging, timing and `duration_seconds` / `execution_time_seconds` / `latency_ms` fields: side effects and clock readings that decide nothing.
- `time.sleep`, `random.uniform` and `datetime.now`: the sleeps are a ghost trace, the jitter factors a parameter per attempt, the clock a `now` argument.
- `Breaker.CircuitBreaker.Call`: the source reads the clock three times: in `_should_attempt_reset` (src/utils/retry.py:410), in `_on_failure` (src/utils/retry.py:451) and in `_open_circuit` (src/utils/retry.py:476). The model uses one `now` per call. So on a failure that opens the breaker, `opened_at` and `last_failure_time` are merged into that one instant, where in the source `opened_at` is slightly later.
- `half_open_max_attempts` and `half_open_attempts` are stored and reset, as in the source, but never checked, because the source never checks them.
- The circuit breaker's `__call__` decorator and the retry decorator's `functools.wraps` plumbing: the model calls `call` and the wrapper directly.
- Concurrency: the breaker has no locking, so the model only has sequential calls.
- Floating point: delays, percentages and ratios are Dafny `real`, not IEEE doubles. `round(...)` in `to_dict` and the `:.1f` / `:.2f` formatting are parameters (`fmt`) or left out.
- `ConfigLoader.ErrorToString`: `str(value)` of a Python value is a parameter `render`, because Python's float and container repr are outside the model. `Blender.BlendMotions` and `Blender.BlendItem` also take `render`.
- `load_config` (YAML and file reading), `get_json_secret` (JSON parsing), `migrate_to_secret_manager` and `save_bvh`: I/O or parsing outside the named core.
- Google Cloud clients, psutil and the import system: their outcomes are parameters (`sdk`, `storageInstalled`, `Probes`, `clientAvailable`, `Sources`).
- Which HTTP requests reach `do_GET`, `run_health_server`, and the JSON bodies: `HealthCheck.ResponseCode` takes the two statuses `do_GET` computes.
- `mkdir` side effects: a `mkdir` is modelled by the exception it raises, if any. The directories it creates are not added to the file system.
- `Downloader.DownloadItem`: configuration dictionaries are string-to-string maps, so non-string values are not modelled. `max_parallel` is ignored, as in the source.
- `EnvConfig.ParseInt`: `int()` accepts only ASCII digits (Python also accepts other Unicode decimal digits). The invalid-literal message quotes the text without Python's repr escaping, and cuts it at 200 characters. The digit limit is the default of 4300 that CPython has had since 3.11 and its security releases of 3.8 to 3.10. A limit changed with `sys.set_int_max_str_digits` or `PYTHONINTMAXSTRDIGITS` is not modelled, and neither are older interpreters without a limit.
- `Strings.IntToString`: `str(n)` of an integer with more than 4300 digits raises `ValueError` in CPython. The model renders every integer, so it does not capture that error. It is used only to state that `int()` reads `str(n)` back.
- `Paths.Render`: `PurePosixPath` keeps a leading `//` (exactly two slashes) as a root of its own. The model renders it as a single `/`. The pipeline's paths never start with `//`.
- `.env` loading via python-dotenv in `from_env`: the environment is a map given to `FromEnv`.
- `UploadCli.ParseMetadata`: the dictionary is a Dafny `map`, so the insertion order of the keys is not kept.
- `Blender.PathOf`: the message of the `TypeError` that `Path()` raises on a non-string is version-dependent, so only its class is stated.
- scripts/pipeline.py, scripts/blend.py, scripts/download.py, scripts/test_upload.py, and every other part of scripts/upload.py: print-driven command-line orchestration, not part of this model.
- src/utils/visualizations.py, src/utils/dashboard.py, src/utils/metrics.py and src/utils/logging.py: plotting, metrics wrappers and logging setup, not part of this model.
