/** The data the job client exchanges with the service and with its caller:
    replies and responses as the client reads them, the client's settings, the
    messages it logs and the effects it has. */
module Protocol {
  import opened Outcomes
  import opened Text
  import opened Logging

  newtype byte = b: int | 0 <= b < 256

  type Chunk = seq<byte>

  /** A reply's `context` as the submission error path reads it. */
  datatype Context = Context(requiredTerms: Option<seq<Term>>)

  /** A failed job's `error`: `message`, `reason` and `context.traceback`. */
  datatype JobError = JobError(message: Option<string>, reason: Option<string>, traceback: Option<string>)

  /** The JSON reply of the service; `None` stands for a key that is absent. */
  datatype Reply = Reply(
    state: Option<string>,
    requestId: Option<string>,
    location: Option<string>,
    contentLength: Option<int>,
    message: Option<string>,
    context: Option<Context>,
    error: Option<JobError>)

  /** `dict(message=text)`, the reply made up for a body that is not JSON. */
  function TextReply(text: string): Reply
  {
    Reply(None, None, None, None, Some(text), None, None)
  }

  /** An HTTP response: its status, its headers as they print, its body
      decoded as JSON when it is JSON, its body as text, and its body as the
      chunks a streamed read yields. */
  datatype Response = Response(status: int, headers: string, json: Option<Reply>, text: string, body: seq<Chunk>)

  /** What one call of a `requests` function does: raise a ConnectionError
      (with the text it prints as) or answer. */
  datatype Outcome = ConnectionError(error: string) | Received(response: Response)

  /** `retriable` (cdsapi/api.py:262-272): 500, 502, 503, 504, 429 and 408. */
  predicate Retriable(status: int)
  {
    status == 500 || status == 502 || status == 503 || status == 504 || status == 429 || status == 408
  }

  /** The statuses `raise_for_status` raises for. */
  predicate IsHttpError(status: int)
  {
    400 <= status < 600
  }

  /** Every status `retriable` accepts is one `raise_for_status` rejects, so a
      retried response is never a success; among the server errors 500 to 504
      only 501 (not implemented) is not retried. */
  lemma RetriableStatuses(status: int)
    ensures Retriable(status) ==> IsHttpError(status)
    ensures Retriable(status) && status < 500 ==> status == 408 || status == 429
    ensures 500 <= status <= 504 ==> (Retriable(status) <==> status != 501)
  {
  }

  /** The fields `Client.__init__` sets from its arguments (cdsapi/api.py:77-92). */
  datatype Settings = Settings(
    url: string,
    key: string,
    quiet: bool,
    verify: bool,
    timeout: Option<real>,
    sleepMax: real,
    retryMax: int,
    fullStack: bool,
    delete: bool,
    callbacks: Callbacks)

  /** Python truth of the `timeout` setting: set and not zero. */
  predicate HasTimeout(timeout: Option<real>)
  {
    timeout.Some? && timeout.value != 0.0
  }

  /** The messages the job client logs, one constructor per call site. */
  datatype Message =
    | ClientSettings(url: string, key: string, quiet: bool, verify: bool, timeout: Option<real>,
                     sleepMax: real, retryMax: int, fullStack: bool, delete: bool)  // debug "CDSAPI %s"
    | SendingRequest(url: string)                          // info "Sending request to %s"
    | Post(url: string, request: string)                   // debug "POST %s %s"
    | ErrorReply(reply: Reply)                             // debug, the reply of a rejected submission
    | ReplyDump(reply: Reply)                              // debug "REPLY %s"
    | RequestIs(state: string)                             // info "Request is %s"
    | Head(location: string)                               // debug "HEAD %s"
    | Headers(headers: string)                             // debug, the headers of the HEAD response
    | DeleteTask(taskUrl: string)                          // debug "DELETE %s"
    | DeleteReturns(status: int)                           // debug "DELETE returns %s %s"
    | DeleteFailed(taskUrl: string, status: int)           // warning "DELETE %s returns %s %s"
    | Done                                                 // debug "Done"
    | RequestIdSleep(requestId: string, seconds: real)     // debug "Request ID is %s, sleep %s"
    | GetTask(taskUrl: string)                             // debug "GET %s"
    | FailureMessage(text: string)                         // error "Message: %s"
    | FailureReason(text: string)                          // error "Reason:  %s"
    | TracebackLine(line: string)                          // error "  %s"
    | RecoveringFromConnectionError(error: string, attempt: int, retryMax: int) // warning
    | RecoveringFromHttpError(status: int, attempt: int, retryMax: int) // warning
    | RetryingIn(seconds: real)                            // warning "Retrying in %s seconds"
    | Downloading(url: string, filename: string, size: string)        // info "Downloading %s to %s (%s)"
    | DownloadRate(rate: string)                           // info "Download rate %s/s"

  /** An effect of the client: a logging call, a `time.sleep`, or a file closed
      after writing (name and whole content). */
  datatype Event =
    | Logged(delivered: Delivered<Message>)
    | Slept(seconds: real)
    | Saved(filename: string, data: seq<byte>)

  /** `self.info(...)` and the like: one delivery through the client's callbacks or logger. */
  function Log(cfg: Settings, level: Level, msg: Message): Event
  {
    Logged(Dispatch(cfg.callbacks, level, msg))
  }

  /** `str(x)` of an optional string: Python shows `None` for an absent value. */
  function Show(s: Option<string>): string
  {
    if s.Some? then s.value else "None"
  }

  /** The sentence added for one licence to accept (cdsapi/api.py:158-161).
      The two adjacent literals of the source run "terms" and "of" together. */
  function TermSentence(t: Term): string
  {
    "To access this resource, you first need to accept the termsof '" + t.title + "' at " + t.url
  }

  function TermSentences(terms: seq<Term>): (r: seq<string>)
    ensures |r| == |terms| && forall i :: 0 <= i < |terms| ==> r[i] == TermSentence(terms[i])
  {
    if terms == [] then [] else TermSentences(terms[..|terms| - 1]) + [TermSentence(terms[|terms| - 1])]
  }

  /** `str(e)` for an exception the client raises itself. */
  function ExceptionText(f: Failure): string
    requires RaisedByClient(f)
  {
    match f
    case Rejected(message, terms) => Join([message] + TermSentences(terms), ". ")
    case Timeout => "TIMEOUT"
    case JobFailed(jobMessage, reason) => Show(jobMessage) + ". " + Show(reason) + "."
    case UnknownState(state) => "Unknown API state [" + state + "]"
    case MissingConfig(path) => "Missing/incomplete configuration file: " + path
  }
}
