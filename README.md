# cdsapi client core in Dafny

This project models the two client classes of `cdsapi`, the Python client of the
Copernicus Climate Data Store web API:

- `cdsapi.api.Client`. Its constructor settles the service URL, the API key and
  certificate verification from its arguments and the `~/.cdsapirc` file. Its
  `retrieve` submits a request, polls the request until it reaches a final state
  (announcing each new state once and backing off between polls), then downloads
  the result or checks it with a HEAD. When `delete` is set (it is not by
  default) and the reply carries a `request_id`, it then deletes the task on
  the server. The POST, the polling GETs, the download GET and the HEAD are
  wrapped by `robust`, which retries connection errors and retriable statuses up
  to `retry_max` times. The DELETE is sent once, without `robust`.
- `cdsapi.legacy_client.LegacyClient`. Its constructor takes a URL and a key from
  its arguments, then from the environment, then from the file. It keeps its raw
  arguments and forwards log calls to callbacks or to the logger.

The model is split into these modules:

- `Outcomes`: options, results and failures.
- `Text`: Python's `strip`, `split`, `join` and `int`.
- `Logging`: the callback-or-logger dispatch.
- `Protocol`: replies, responses, settings, messages and effects.
- `RcFile`: `read_config`.
- `Units`: `bytes_to_string`.
- `Retry`: `robust`.
- `Transfer`: `_download`.
- `Job` and `JobFacts`: `_api`, as functions, with the properties proved about them.
- `Api`: `Client` as a class.
- `Legacy`: `LegacyClient`.

The model treats the outside world as data:

- The environment, the existing files and every answer of the service are inputs:
  - one `seq<Outcome>` per wrapped call;
  - one `Poll` per polling round, with the elapsed time seen at the timeout check.
- What the client does is returned as a log of `Event`s: log deliveries, sleeps and
  files written.
- A Python exception becomes a `Failure`. For the five kinds of exception the
  clients raise themselves, `Protocol.ExceptionText` gives the exact text.

Each method follows the source's loops and branches. It is proved equal to a
specification function, and the properties are proved about that function.

## Model

| member | source | states |
|---|---|---|
| Units.BytesToString | cdsapi/api.py:19-25 | The division loop gives `HumanSize(n)`: the unit index is the number of divisions by 1024, and a count of 1024^6 or more fails on the unit list. |
| Units.ScaledRange | cdsapi/api.py:22-24 | The value left after the loop is below 1024, and at least 1 when the input is. |
| Units.ScaledTimesUnit | cdsapi/api.py:22-24 | The value left, times 1024 to the unit index, gives the input back exactly. |
| Units.UnitIndexAtLeast | cdsapi/api.py:22-24 | The unit index reaches k exactly when the input reaches 1024^k. |
| Units.HumanSizeOfPower | tests/test_api.py:7-13 | `bytes_to_string(1024^k)` is "1" followed by the k-th unit, for every k from 0 to 5. |
| Units.HumanSizeFails | cdsapi/api.py:25 | `u[i]` raises exactly when the input is at least 1024^6. |
| RcFile.ReadConfig | cdsapi/api.py:28-36 | The line-by-line loop gives `ConfigOf(lines)`. The loop is identical in cdsapi/legacy_client.py:8-16. |
| RcFile.LastLineWins | cdsapi/api.py:31-35 | The only keys kept are url, key and verify. A key is present exactly when some line sets it. Its value comes from the last line that sets it. |
| RcFile.LastEntryWins | cdsapi/api.py:35 | Storing entries in order keeps, for each key, the value of the last entry for it. |
| RcFile.ValueKeepsColons | cdsapi/api.py:33 | The line `k: v` for a kept key gives `v`, with every ':' it contains, as the value. |
| RcFile.SpaceBeforeColonIgnored | cdsapi/api.py:33-34 | White space before the ':' stays in the key, so the line sets nothing. |
| RcFile.StripKeyValue | cdsapi/api.py:33 | Stripping `k: v\n`, with v already stripped, gives `k: v`. When v is empty, the space after the ':' goes too and the result is `k:`. |
| RcFile.ParseStripped | cdsapi/api.py:32-35 | A line whose stripped form is `k:rest` gives `(k, strip(rest))` when k is a kept key, and nothing otherwise. |
| Text.StripKeeps | cdsapi/api.py:33 | `strip()` never removes a character that is not white space. |
| Text.StripEmpty | cdsapi/api.py:229 | `strip()` returns '' exactly when the string is all white space. |
| Text.JoinSplit | cdsapi/api.py:228 | Joining the parts of `split(c)` with c gives the string back. |
| Text.ParseIntToString | cdsapi/api.py:72 | `int(str(n)) == n` for every integer. |
| Logging.Dispatch | cdsapi/api.py:236-258 | A log call reaches one sink only, with its level and arguments unchanged. The sink is the level's callback when one is set, and the logger otherwise. |
| Api.ResolveClientContract | cdsapi/api.py:59-81 | Given URL and key win and the file is not read. The "Missing/incomplete configuration file" failure happens exactly when the URL or the key is still missing and the file's `verify` did not fail first. With no `verify` argument and no file read, the client does not verify. |
| Api.Resolve | cdsapi/api.py:59-75 | The constructor's steps give `ResolveClient`. |
| Api.Client.Create | cdsapi/api.py:43-103 | The client is made exactly when resolution succeeds. Its settings are the arguments plus the resolved values, `last_state` is None, and a single debug message lists the settings. A failure logs nothing. |
| Api.Client.Retrieve | cdsapi/api.py:105-106 | Same as `_api` on `<url>/resources/<name>`. |
| Api.Client.Download | cdsapi/api.py:108-128 | The source's steps give `DownloadRun`: the file name, the info lines, the data written and the failures. |
| Transfer.DownloadWritesBody | cdsapi/api.py:116-123 | When the server answers, the file holds the body's bytes in order. The download fails on size exactly when their count differs from the expected size. |
| Transfer.NonEmptyFlatten | cdsapi/api.py:118-121 | Skipping empty chunks loses no byte. |
| Transfer.LastSegmentOfUrl | cdsapi/api.py:110-111 | The default file name contains no '/'. It is the end of the URL after its last '/', or the whole URL when there is none. |
| Api.Client.Api | cdsapi/api.py:130-234 | The method's log, result and final `last_state` are those of `ApiRun`. |
| Api.Client.Submit | cdsapi/api.py:141-165 | The submission steps give `Submission`. |
| Job.SubmissionOutcome | cdsapi/api.py:141-165 | A submission is accepted exactly for a status below 400 with a JSON body. Otherwise the service's `message` or the body text is raised when there is one, and the HTTP error when there is none. |
| Job.RejectionTextShape | cdsapi/api.py:154-163 | The raised text is the message followed by one ". "-separated sentence per required licence. Without licences it is the message alone. |
| Api.Client.RejectionMessage | cdsapi/api.py:157-162 | The loop that appends the licence sentences gives the text of `ExceptionText(Rejected(...))`. |
| Api.Client.Poll | cdsapi/api.py:167-234 | The `while True` loop gives `PollLoop`: the result, the log and `last_state`. Its invariant ties the sleep to `Backoff`. |
| Api.Client.Pass | cdsapi/api.py:172-234 | One pass gives `Round`. The next sleep is `Backoff(k + 1)`. |
| Api.Client.Proceed | cdsapi/api.py:178-234 | Handling the state gives `Handle`. |
| Api.Client.Complete | cdsapi/api.py:178-203 | Fetching and deleting give `Completion`. |
| Api.Client.ReportFailure | cdsapi/api.py:225-232 | A failed job logs its message, its reason and the shown traceback, then raises with its message and reason. |
| Api.Client.ShowTraceback | cdsapi/api.py:228-231 | The traceback loop logs exactly the lines `Shown` selects, in order. |
| Api.Client.Robust | cdsapi/api.py:260-295 | The retry loop gives `Retry.Robust`: the response, the warnings and sleeps, and the number of calls. |
| Protocol.RetriableStatuses | cdsapi/api.py:262-272 | `retriable` accepts 500, 502, 503, 504, 429 and 408. Each is an error status for `raise_for_status`, so a retried response is never a success. Of 500 to 504, only 501 is not retried. |
| Retry.RobustContract | cdsapi/api.py:274-295 | There are at most `retry_max` calls. The first response with a non-retriable status is returned unchanged, after only failed attempts. None is returned exactly when all `retry_max` attempts failed. |
| Retry.FailureLogsShape | cdsapi/api.py:279-293 | Failed attempt i logs its own recovery warning first: the connection error's text, or the HTTP status, with attempt number i and `retry_max`. Then it logs a "Retrying in `sleep_max` seconds" warning and sleeps `sleep_max`. |
| JobFacts.BackoffClosedForm | cdsapi/api.py:211-215 | From the second poll on, the sleep before poll k is min(1.5^k, `sleep_max`), the first sleep being 1 second (line 167). |
| JobFacts.BackoffMonotone | cdsapi/api.py:211-215 | With `sleep_max` at least 1, the sleep never shrinks and stays between 1 and `sleep_max`. |
| JobFacts.RoundNotices | cdsapi/api.py:172-176 | A round announces the reply's state exactly when it differs from `last_state`, and records it. |
| JobFacts.LoopNotices | cdsapi/api.py:170-234 | Over the whole loop, no state is announced twice in a row. The first announcement differs from the starting `last_state`. `last_state` ends at the last state announced, or unchanged when none was. |
| JobFacts.IterateNotices | cdsapi/api.py:170-234 | The same holds for any sequence of passes that each announce at most one new state. |
| JobFacts.ApiNotices | cdsapi/api.py:130-234 | The same over a whole `_api` call, since nothing is announced before the first reply. |
| JobFacts.HandleQuiet | cdsapi/api.py:178-234 | Handling a state never logs "Request is ...". |
| JobFacts.HandleFinalStates | cdsapi/api.py:178-234 | "completed" ends with what the fetch and the DELETE give. "failed" ends with the job's message and reason. Any other state raises "Unknown API state". The loop goes on exactly for a queued or running job with a `request_id`, not timed out, whose GET returns a non-error status with a JSON body. |
| JobFacts.TimeoutHandle | cdsapi/api.py:205-212 | TIMEOUT is raised exactly for a queued or running job past a truthy `timeout`, before any sleep or GET. Otherwise the round first sleeps `Backoff(k)`. |
| JobFacts.CompletionNeverRaises | cdsapi/api.py:178-203 | The completed branch never raises one of the client's own exceptions. |
| JobFacts.CompletionContract | cdsapi/api.py:178-203 | Success requires the data to have been fetched: a download to the target whose size matches `content_length`, or a HEAD without an error status. The log then ends with "Done". |
| JobFacts.CleanupContract | cdsapi/api.py:188-200 | The DELETE is sent exactly when the reply has `request_id` and `delete` is set. Only a connection error fails the call. An HTTP error status adds a warning. |
| JobFacts.ShownPrefix | cdsapi/api.py:228-231 | The traceback lines shown are a prefix with no blank line, cut just before the first blank line, or all lines with `full_stack`. |
| JobFacts.BlankLineIsSpace | cdsapi/api.py:229 | A line counts as blank exactly when it is all white space. |
| Legacy.ArgListRoundTrip | cdsapi/legacy_client.py:44-64 | `self.args` has one element per argument in declaration order, and reading it back by position gives the arguments. |
| Legacy.Precedence | cdsapi/legacy_client.py:81-95 | For the URL and the key, the argument wins over the environment, which wins over the file. |
| Legacy.UrlFromFile | cdsapi/legacy_client.py:87-95 | The URL comes from the file only when neither the argument nor `CDSAPI_URL` gives one. |
| Legacy.KeyFromFile | cdsapi/legacy_client.py:87-95 | The key comes from the file only when neither the argument nor `CDSAPI_KEY` gives one. |
| Legacy.FileUnread | cdsapi/legacy_client.py:87-88 | When the arguments and the environment give the URL and the key, the file is not read. Any set of files gives the same client. |
| Legacy.MissingConfiguration | cdsapi/legacy_client.py:87-101 | The missing-configuration failure happens exactly when the URL or the key is missing from every source and the file's `verify` did not fail first. No other failure is possible. |
| Legacy.VerifyResolution | cdsapi/legacy_client.py:97-113 | An explicit `verify` wins. Otherwise, when the file was read, its `verify` decides (non-zero verifies, absent counts as 1). Otherwise the client verifies. |
| Legacy.VerifyDefaultsDiffer | cdsapi/legacy_client.py:103-105 | Given only a URL and a key, the legacy client verifies and `cdsapi.api.Client` does not. |
| Legacy.LegacyClient.Resolve | cdsapi/legacy_client.py:81-105 | The constructor's steps give `ResolveLegacy`. |
| Legacy.LegacyClient.Create | cdsapi/legacy_client.py:22-148 | The client is made exactly when resolution succeeds. `args` holds the arguments as passed. URL, key and verify are the resolved values, and `progress` is `progress and not quiet`. Every other field is its argument unchanged, and `last_state` is None. It logs one debug delivery of the twelve settings, in the source's order. A failure logs nothing. |
| Legacy.LegacyClient.Emit | cdsapi/legacy_client.py:169-191 | A log call goes unchanged to the callback for its level, and to the logger only when that callback is unset. |

## Left out

- HTTP transport: `requests` sessions, `session.auth` from the key (cdsapi/api.py:132-133), and JSON encoding and decoding. The answers of the service are inputs, and a reply is a record of the fields the client reads.
- Time: `time.time` and `time.sleep`. Sleeps are logged as events, and elapsed times are inputs.
- The poll loop receives a finite list of rounds. When they run out while the job is still queued or running, the loop ends with `OutOfReplies`. The source would go on polling.
- Every wrapped call receives at least `retry_max` attempts to choose from.
- Floating-point arithmetic: sizes, sleeps and the download rate are exact reals, so the 1.5 factor and the divisions by 1024 are exact.
- Units.ShowTenths: renders `%g` as the integer part and the tenths digit. That is what the source prints below 100000 in magnitude, and every non-negative value shown is below 1024. A negative size is not divided, and from 100000 in magnitude the source rounds to six significant digits instead: -149999.9 prints as "-150000". From about 1000000 it switches to exponent form. The model keeps the tenths in both cases.
- `time.sleep` with a negative `sleep_max` raises in the source; the model records the sleep.
- HTTP reason phrases (`r.reason`, `delete.reason`) in the recovery warning and in the DELETE messages are not modelled.
- Exceptions other than `ConnectionError` from a wrapped call, and Python type errors on malformed replies, are not modelled. For example, `content_length` is an integer field rather than text passed to `int()`.
- Api.Client.Create: `url` and `key` default to `CDSAPI_URL` and `CDSAPI_KEY` as read when the module is imported (cdsapi/api.py:44-45). The model takes them as arguments already filled in.
- Process-global logger configuration: levels, handlers and formatters (cdsapi/legacy_client.py:66-79). Only which sink receives each call is modelled.
- The abstract methods of `LegacyClient` (cdsapi/legacy_client.py:153-167, 193-203) have no behaviour. `_initialize_session` only stores the session, which the model keeps as an identity.
- Python truthiness of `verify`, `quiet` and `progress` is modelled with booleans, and `timeout` as an optional real.
- Text.ParseInt: accepts only ASCII digits, not the other Unicode digits Python's `int()` accepts.
- cdsapi/beta_api.py, the scripts and setup.py are not part of this model.
