/** `Client._api` (cdsapi/api.py:130-234): submit a request, poll the request until
    it reaches a final state, then fetch the result and delete its task. These
    functions state what one call does; the client's method follows them step
    by step. */
module Job {
  import opened Outcomes
  import opened Text
  import opened Logging
  import opened Protocol
  import opened Retry
  import opened Transfer

  // ---------------------------------------------------------------------------
  // Submission (cdsapi/api.py:141-165)

  /** The licences a reply asks for, when its `context` has `required_terms`. */
  predicate AsksForTerms(reply: Reply)
  {
    reply.context.Some? && reply.context.value.requiredTerms.Some?
  }

  /** The licences named in the raised text: those the reply asks for, if any. */
  function RequiredTerms(reply: Reply): seq<Term>
  {
    if AsksForTerms(reply) then reply.context.value.requiredTerms.value else []
  }

  /** The exception raised for a rejected submission whose reply has a
      `message`: the message, then one ". "-separated sentence per licence
      the reply asks for, in order. */
  lemma RejectionTextShape(reply: Reply)
    requires reply.message.Some?
    ensures ExceptionText(Rejected(reply.message.value, RequiredTerms(reply)))
      == reply.message.value + Prefixed(TermSentences(RequiredTerms(reply)), ". ")
    ensures !AsksForTerms(reply) ==> ExceptionText(Rejected(reply.message.value, RequiredTerms(reply))) == reply.message.value
  {
    JoinCons(reply.message.value, TermSentences(RequiredTerms(reply)), ". ");
  }

  datatype Submitted = Submitted(reply: Result<Reply>, log: seq<Event>)

  /** The first reply of the service, from what the wrapped POST returned. */
  function Submission(cfg: Settings, response: Option<Response>): Submitted
  {
    match response
    case None => Submitted(Err(NoResponse), [])
    case Some(r) =>
      if !IsHttpError(r.status) && r.json.Some? then Submitted(Ok(r.json.value), [])
      else
        var reply := if IsHttpError(r.status) && r.json.Some? then r.json.value else TextReply(r.text);
        var log := [Log(cfg, Debug, ErrorReply(reply))];
        if reply.message.Some? then Submitted(Err(Rejected(reply.message.value, RequiredTerms(reply))), log)
        else Submitted(Err(HttpError(r.status)), log)
  }

  /** A submission is accepted exactly when the service answers with a status
      below 400 and a JSON body; a rejection raises the service's `message`
      (or the body's text) when there is one, and the HTTP error otherwise. */
  lemma SubmissionOutcome(cfg: Settings, response: Option<Response>)
    ensures var s := Submission(cfg, response);
      s.reply.Ok? <==> response.Some? && !IsHttpError(response.value.status) && response.value.json.Some?
    ensures var s := Submission(cfg, response);
      s.reply.Ok? ==> s.reply.value == response.value.json.value && s.log == []
    ensures var s := Submission(cfg, response);
      response.Some? && !IsHttpError(response.value.status) && response.value.json.None? ==>
        s.reply == Err(Rejected(response.value.text, []))
    ensures var s := Submission(cfg, response);
      s.reply.Err? && s.reply.failure.HttpError? <==>
        response.Some? && IsHttpError(response.value.status) && response.value.json.Some?
        && response.value.json.value.message.None?
    ensures var s := Submission(cfg, response);
      response.Some? && IsHttpError(response.value.status) && response.value.json.Some?
        && response.value.json.value.message.Some? ==>
        s.reply == Err(Rejected(response.value.json.value.message.value, RequiredTerms(response.value.json.value)))
  {
  }

  // ---------------------------------------------------------------------------
  // The poll loop (cdsapi/api.py:167-234)

  /** One round of polling as the outside world answers it: the seconds since
      the loop started when the timeout is checked, and the attempts of the
      wrapped GET of its task. */
  datatype Poll = Poll(elapsed: real, attempts: seq<Outcome>)

  /** Everything the outside world answers during one `_api` call: the POST
      attempts, each polling round, the download or HEAD attempts, the seconds
      the download took, and the outcome of the DELETE (which is not retried). */
  datatype Env = Env(post: seq<Outcome>, polls: seq<Poll>, fetch: seq<Outcome>, fetchElapsed: real,
                     deletion: Outcome)

  /** Every wrapped call has at least `retry_max` attempts to draw on. */
  predicate Fits(env: Env, retryMax: int)
  {
    && |env.post| >= retryMax
    && |env.fetch| >= retryMax
    && forall k :: 0 <= k < |env.polls| ==> |env.polls[k].attempts| >= retryMax
  }

  /** `sleep *= 1.5`, then capped at `sleep_max`. */
  function NextSleep(sleep: real, sleepMax: real): real
  {
    if sleep * 1.5 > sleepMax then sleepMax else sleep * 1.5
  }

  /** The sleep before the GET of round `k`: 1 second, then half as long again
      each round, capped at `sleep_max`. */
  function Backoff(sleepMax: real, k: nat): real
  {
    if k == 0 then 1.0 else NextSleep(Backoff(sleepMax, k - 1), sleepMax)
  }

  /** `self.timeout and (time.time() - start > self.timeout)`. */
  predicate TimedOut(timeout: Option<real>, elapsed: real)
  {
    HasTimeout(timeout) && elapsed > timeout.value
  }

  /** `if target:`: a target that is given and not empty. */
  predicate Truthy(target: Option<string>)
  {
    target.Some? && target.value != ""
  }

  datatype Finished = Finished(result: Result<()>, log: seq<Event>)

  /** Lines 180-186: download the result to `target`, or only check with a HEAD
      that it is there. */
  function Fetch(cfg: Settings, reply: Reply, target: Option<string>, env: Env): Finished
    requires Fits(env, cfg.retryMax)
  {
    if reply.location.None? then Finished(Err(MissingKey("location")), [])
    else if Truthy(target) then
      if reply.contentLength.None? then Finished(Err(MissingKey("content_length")), [])
      else
        var d := DownloadRun(cfg, reply.location.value, reply.contentLength.value, target, env.fetch, env.fetchElapsed);
        Finished(if d.result.Ok? then Ok(()) else Err(d.result.failure), d.log)
    else
      var asked := [Log(cfg, Debug, Head(reply.location.value))];
      var got := Robust(cfg, env.fetch);
      match got.response
      case None => Finished(Err(NoResponse), asked + got.log)
      case Some(r) =>
        if IsHttpError(r.status) then Finished(Err(HttpError(r.status)), asked + got.log)
        else Finished(Ok(()), asked + got.log + [Log(cfg, Debug, Headers(r.headers))])
  }

  /** A task's URL on the service. */
  function TaskUrl(cfg: Settings, requestId: string): string
  {
    cfg.url + "/tasks/" + requestId
  }

  /** Lines 188-200: delete the finished task when asked to. */
  function Cleanup(cfg: Settings, reply: Reply, env: Env): Finished
  {
    if reply.requestId.Some? && cfg.delete then
      var taskUrl := TaskUrl(cfg, reply.requestId.value);
      var sent := [Log(cfg, Debug, DeleteTask(taskUrl))];
      match env.deletion
      case ConnectionError(_) => Finished(Err(ConnectionFailed), sent)
      case Received(r) =>
        var answered := sent + [Log(cfg, Debug, DeleteReturns(r.status))];
        if IsHttpError(r.status) then Finished(Ok(()), answered + [Log(cfg, Warning, DeleteFailed(taskUrl, r.status))])
        else Finished(Ok(()), answered)
    else Finished(Ok(()), [])
  }

  /** Lines 178-203: what a `completed` reply leads to. */
  function Completion(cfg: Settings, reply: Reply, target: Option<string>, env: Env): Finished
    requires Fits(env, cfg.retryMax)
  {
    var f := Fetch(cfg, reply, target, env);
    if f.result.Err? then f
    else
      var c := Cleanup(cfg, reply, env);
      if c.result.Err? then Finished(c.result, f.log + c.log)
      else Finished(Ok(()), f.log + c.log + [Log(cfg, Debug, Done)])
  }

  /** `traceback.split('\n')`, with an absent traceback read as ''. */
  function TracebackLines(e: JobError): seq<string>
  {
    Split(if e.traceback.Some? then e.traceback.value else "", '\n')
  }

  /** The elements of `xs` before the first one that satisfies `stop`. */
  function TakeUntil<T>(xs: seq<T>, stop: T -> bool): seq<T>
  {
    if xs == [] || stop(xs[0]) then [] else [xs[0]] + TakeUntil(xs[1..], stop)
  }

  /** `n.strip() == ''`. */
  predicate BlankLine(line: string)
  {
    Strip(line) == ""
  }

  /** The lines before the first blank one. */
  function UntilBlank(lines: seq<string>): seq<string>
  {
    TakeUntil(lines, BlankLine)
  }

  /** The traceback lines logged: all of them with `full_stack`, otherwise
      those before the first blank one. */
  function Shown(lines: seq<string>, fullStack: bool): seq<string>
  {
    if fullStack then lines else UntilBlank(lines)
  }

  function TracebackLog(cfg: Settings, lines: seq<string>): (log: seq<Event>)
    ensures |log| == |lines|
    ensures forall i :: 0 <= i < |lines| ==> log[i] == Log(cfg, Error, TracebackLine(lines[i]))
  {
    if lines == [] then [] else TracebackLog(cfg, lines[..|lines| - 1]) + [Log(cfg, Error, TracebackLine(lines[|lines| - 1]))]
  }

  /** Lines 226-231: what a failed job logs before raising. */
  function JobFailureLog(cfg: Settings, e: JobError): seq<Event>
  {
    [Log(cfg, Error, FailureMessage(Show(e.message))), Log(cfg, Error, FailureReason(Show(e.reason)))]
    + TracebackLog(cfg, Shown(TracebackLines(e), cfg.fullStack))
  }

  /** What the reply's state leads to, after the reply has been logged and
      its state announced: another round with the next reply, or the end of
      the call. */
  datatype Action =
    | Again(next: Reply, log: seq<Event>)
    | Ended(result: Result<()>, log: seq<Event>)

  /** Lines 178-234 for a reply in state `state`, in round `k`. */
  function Handle(cfg: Settings, reply: Reply, state: string, target: Option<string>, env: Env, k: nat): (a: Action)
    requires Fits(env, cfg.retryMax)
    ensures a.Again? ==> k < |env.polls|
  {
    if state == "completed" then
      var c := Completion(cfg, reply, target, env);
      Ended(c.result, c.log)
    else if state == "queued" || state == "running" then
      if reply.requestId.None? then Ended(Err(MissingKey("request_id")), [])
      else if k >= |env.polls| then Ended(Err(OutOfReplies), [])
      else if TimedOut(cfg.timeout, env.polls[k].elapsed) then Ended(Err(Timeout), [])
      else
        var rid := reply.requestId.value;
        var waited := [Log(cfg, Debug, RequestIdSleep(rid, Backoff(cfg.sleepMax, k))),
                       Slept(Backoff(cfg.sleepMax, k)),
                       Log(cfg, Debug, GetTask(TaskUrl(cfg, rid)))];
        var got := Robust(cfg, env.polls[k].attempts);
        var log := waited + got.log;
        match got.response
        case None => Ended(Err(NoResponse), log)
        case Some(r) =>
          if IsHttpError(r.status) then Ended(Err(HttpError(r.status)), log)
          else if r.json.None? then Ended(Err(InvalidJson), log)
          else Again(r.json.value, log)
    else if state == "failed" then
      match reply.error
      case None => Ended(Err(MissingKey("error")), [])
      case Some(e) => Ended(Err(JobFailed(e.message, e.reason)), JobFailureLog(cfg, e))
    else Ended(Err(UnknownState(state)), [])
  }

  /** The "Request is ..." message, logged when the state differs from the last one. */
  function Notice(cfg: Settings, state: string, last: Option<string>): seq<Event>
  {
    if Some(state) != last then [Log(cfg, Info, RequestIs(state))] else []
  }

  /** How one pass through the loop ends: with the next reply to look at, or
      with the call's result. Either way `last` is the client's `last_state`. */
  datatype Step =
    | Continue(reply: Reply, last: Option<string>, log: seq<Event>)
    | Stop(result: Result<()>, last: Option<string>, log: seq<Event>)

  /** One pass through the `while True` loop, the `k`-th, with `reply` in hand. */
  function Round(cfg: Settings, reply: Reply, last: Option<string>, target: Option<string>, env: Env, k: nat): (s: Step)
    requires Fits(env, cfg.retryMax)
    ensures s.Continue? ==> k < |env.polls|
  {
    var dumped := [Log(cfg, Debug, ReplyDump(reply))];
    match reply.state
    case None => Stop(Err(MissingKey("state")), last, dumped)
    case Some(state) =>
      var noted := dumped + Notice(cfg, state, last);
      match Handle(cfg, reply, state, target, env, k)
      case Again(next, log) => Continue(next, Some(state), noted + log)
      case Ended(result, log) => Stop(result, Some(state), noted + log)
  }

  /** What an `_api` call gives: its result, the client's `last_state`
      afterwards, and the log. */
  datatype Run = Run(result: Result<()>, last: Option<string>, log: seq<Event>)

  /** `prefix` logged before `run`. */
  function After(prefix: seq<Event>, run: Run): Run
  {
    Run(run.result, run.last, prefix + run.log)
  }

  /** `round` applied pass after pass from pass `k` on, until a pass stops;
      no pass numbered `bound` or more continues. */
  function Iterate(round: (Reply, Option<string>, nat) -> Step, bound: nat, reply: Reply, last: Option<string>, k: nat): Run
    requires forall r, l, i: nat :: round(r, l, i).Continue? ==> i < bound
    decreases bound - k
  {
    match round(reply, last, k)
    case Stop(result, seen, log) => Run(result, seen, log)
    case Continue(next, seen, log) => After(log, Iterate(round, bound, next, seen, k + 1))
  }

  /** One pass of `Iterate` and what follows it. */
  lemma IterateUnfold(round: (Reply, Option<string>, nat) -> Step, bound: nat, reply: Reply, last: Option<string>, k: nat)
    requires forall r, l, i: nat :: round(r, l, i).Continue? ==> i < bound
    ensures var s := round(reply, last, k);
      Iterate(round, bound, reply, last, k) ==
        if s.Stop? then Run(s.result, s.last, s.log) else After(s.log, Iterate(round, bound, s.reply, s.last, k + 1))
  {
  }

  /** The passes of one `_api` call. */
  function Rounds(cfg: Settings, target: Option<string>, env: Env): (round: (Reply, Option<string>, nat) -> Step)
    requires Fits(env, cfg.retryMax)
    ensures forall r, l, i: nat :: round(r, l, i).Continue? ==> i < |env.polls|
  {
    (r: Reply, l: Option<string>, i: nat) => Round(cfg, r, l, target, env, i)
  }

  /** The loop from round `k` on. */
  function PollLoop(cfg: Settings, reply: Reply, last: Option<string>, target: Option<string>, env: Env, k: nat): Run
    requires Fits(env, cfg.retryMax)
  {
    Iterate(Rounds(cfg, target, env), |env.polls|, reply, last, k)
  }

  /** `_api(url, request, target)`; `request` is the request's JSON text. */
  function ApiRun(cfg: Settings, last: Option<string>, url: string, request: string, target: Option<string>, env: Env): Run
    requires Fits(env, cfg.retryMax)
  {
    var sent := [Log(cfg, Info, SendingRequest(url)), Log(cfg, Debug, Post(url, request))];
    var posted := Robust(cfg, env.post);
    var submitted := Submission(cfg, posted.response);
    var before := sent + posted.log + submitted.log;
    match submitted.reply
    case Err(f) => Run(Err(f), last, before)
    case Ok(reply) => After(before, PollLoop(cfg, reply, last, target, env, 0))
  }
}
