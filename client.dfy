/** `cdsapi.api.Client` (cdsapi/api.py:39-295): a client object whose settings
    are fixed when it is made and whose only changing field is `last_state`,
    the last job state it announced. Every method returns what it logs,
    sleeps and writes as `log`; the outside world's answers come in as
    parameters. */
module Api {
  import opened Outcomes
  import opened Text
  import opened Logging
  import opened Protocol
  import opened RcFile
  import opened Retry
  import opened Units
  import opened Transfer
  import opened Job
  import opened JobFacts

  /** The arguments of `Client(...)`. `url` and `key` hold what the caller
      passed, or else the defaults `CDSAPI_URL` and `CDSAPI_KEY` had when the
      module was imported; `None` is Python's `None`. */
  datatype ClientArgs = ClientArgs(
    url: Option<string>,
    key: Option<string>,
    quiet: bool,
    verify: Option<bool>,
    timeout: Option<real>,
    fullStack: bool,
    delete: bool,
    retryMax: int,
    sleepMax: real,
    callbacks: Callbacks)

  /** The arguments' defaults: no URL or key given, and the source's
      `retry_max=500`, `sleep_max=120`. */
  function DefaultArgs(url: Option<string>, key: Option<string>): (a: ClientArgs)
    ensures a.retryMax == 500 && a.sleepMax == 120.0 && a.verify.None? && a.timeout.None?
    ensures !a.quiet && !a.fullStack && !a.delete && a.callbacks == NO_CALLBACKS
  {
    ClientArgs(url, key, false, None, None, false, false, 500, 120.0, NO_CALLBACKS)
  }

  /** The URL, key and verification flag the client ends up with. */
  datatype Resolved = Resolved(url: string, key: string, verify: bool)

  /** `CDSAPI_RC`, or else the default `~/.cdsapirc`. */
  function RcPath(rcEnv: Option<string>, defaultRc: string): string
  {
    if rcEnv.Some? then rcEnv.value else defaultRc
  }

  /** `int(config.get('verify', 1))`, as both clients compute it. */
  function VerifyNumber(config: map<string, string>): Result<int>
  {
    if "verify" !in config then Ok(1)
    else match ParseInt(config["verify"])
      case None => Err(NotAnInteger(config["verify"]))
      case Some(n) => Ok(n)
  }

  /** Lines 74-75: fail when the URL or the key is still missing. */
  function Settle(url: Option<string>, key: Option<string>, verify: bool, dotrc: string): Result<Resolved>
  {
    if url.None? || key.None? then Err(MissingConfig(dotrc))
    else Ok(Resolved(url.value, key.value, verify))
  }

  /** Lines 61-72: the file's `config` fills the URL, the key and `verify`
      where the arguments leave them out. */
  function FromConfig(args: ClientArgs, dotrc: string, config: map<string, string>): Result<Resolved>
  {
    var key := if args.key.None? && "key" in config then Some(config["key"]) else args.key;
    var url := if args.url.None? && "url" in config then Some(config["url"]) else args.url;
    if args.verify.Some? then Settle(url, key, args.verify.value, dotrc)
    else match VerifyNumber(config)
      case Err(f) => Err(f)
      case Ok(n) => Settle(url, key, n != 0, dotrc)
  }

  /** Lines 59-75: the configuration file is read only when the URL or the
      key is missing and the file exists; it fills only what is missing; the
      client fails when the URL or the key is still missing. `files` maps
      every existing path to its lines. */
  function ResolveClient(args: ClientArgs, rcEnv: Option<string>, defaultRc: string,
                         files: map<string, seq<string>>): Result<Resolved>
  {
    var dotrc := RcPath(rcEnv, defaultRc);
    if (args.url.None? || args.key.None?) && dotrc in files then FromConfig(args, dotrc, ConfigOf(files[dotrc]))
    else Settle(args.url, args.key, args.verify.Some? && args.verify.value, dotrc)
  }

  /** Arguments win over the file; the file is not even read when both the
      URL and the key are given; an unreadable `verify` fails before the
      missing-configuration check; without a `verify` argument and without a
      file read, the client does not verify certificates. */
  lemma ResolveClientContract(args: ClientArgs, rcEnv: Option<string>, defaultRc: string,
                              files: map<string, seq<string>>)
    ensures args.url.Some? && args.key.Some? ==>
      ResolveClient(args, rcEnv, defaultRc, files) ==
      Ok(Resolved(args.url.value, args.key.value, args.verify.Some? && args.verify.value))
    ensures var r := ResolveClient(args, rcEnv, defaultRc, files);
      r.Ok? ==> (args.url.Some? ==> r.value.url == args.url.value) && (args.key.Some? ==> r.value.key == args.key.value)
    ensures var r := ResolveClient(args, rcEnv, defaultRc, files);
      var dotrc := RcPath(rcEnv, defaultRc);
      r == Err(MissingConfig(dotrc)) <==>
        && (args.url.None? || args.key.None?)
        && (dotrc !in files ||
             ((args.verify.Some? || VerifyNumber(ConfigOf(files[dotrc])).Ok?)
              && ((args.url.None? && "url" !in ConfigOf(files[dotrc])) ||
                  (args.key.None? && "key" !in ConfigOf(files[dotrc])))))
    ensures var r := ResolveClient(args, rcEnv, defaultRc, files);
      var dotrc := RcPath(rcEnv, defaultRc);
      r.Ok? && args.verify.None? ==>
        r.value.verify ==
          ((args.url.None? || args.key.None?) && dotrc in files && VerifyNumber(ConfigOf(files[dotrc])) != Ok(0))
  {
    var dotrc := RcPath(rcEnv, defaultRc);
    var r := ResolveClient(args, rcEnv, defaultRc, files);
    if dotrc in files {
      var v := VerifyNumber(ConfigOf(files[dotrc]));
      if r.Ok? && args.verify.None? && (args.url.None? || args.key.None?) {
        assert v.Ok?;
      }
    }
  }

  /** Lines 59-75 as the source runs them: fill in the URL and the key from
      the configuration file when one is missing, then check both are there. */
  method Resolve(args: ClientArgs, rcEnv: Option<string>, defaultRc: string,
                 files: map<string, seq<string>>) returns (r: Result<Resolved>)
    ensures r == ResolveClient(args, rcEnv, defaultRc, files)
  {
    var url := args.url;
    var key := args.key;
    var verify := if args.verify.Some? then Some(if args.verify.value then 1 else 0) else None;
    var dotrc := RcPath(rcEnv, defaultRc);
    if url.None? || key.None? {
      if dotrc in files {
        var config := ReadConfig(files[dotrc]);
        assert ResolveClient(args, rcEnv, defaultRc, files) == FromConfig(args, dotrc, config);
        if key.None? && "key" in config {
          key := Some(config["key"]);
        }
        if url.None? && "url" in config {
          url := Some(config["url"]);
        }
        if verify.None? {
          var n := VerifyNumber(config);
          if n.Err? {
            return Err(n.failure);
          }
          verify := Some(n.value);
        }
        assert ResolveClient(args, rcEnv, defaultRc, files) == Settle(url, key, verify.value != 0, dotrc);
      }
    }
    ghost var settled := Settle(url, key, verify.Some? && verify.value != 0, dotrc);
    assert ResolveClient(args, rcEnv, defaultRc, files) == settled;
    if url.None? || key.None? {
      return Err(MissingConfig(dotrc));
    }
    r := Ok(Resolved(url.value, key.value, verify.Some? && verify.value != 0));
  }

  /** The client settings `Client(...)` records. */
  function SettingsOf(args: ClientArgs, r: Resolved): Settings
  {
    Settings(r.url, r.key, args.quiet, r.verify, args.timeout, args.sleepMax, args.retryMax,
             args.fullStack, args.delete, args.callbacks)
  }

  /** The "CDSAPI %s" debug message a new client logs. */
  function CreatedMessage(cfg: Settings): Message
  {
    ClientSettings(cfg.url, cfg.key, cfg.quiet, cfg.verify, cfg.timeout, cfg.sleepMax,
                   cfg.retryMax, cfg.fullStack, cfg.delete)
  }

  class Client {
    const url: string
    const key: string
    const quiet: bool
    const verify: bool
    const timeout: Option<real>
    const sleepMax: real
    const retryMax: int
    const fullStack: bool
    const delete: bool
    const callbacks: Callbacks
    /** The last state announced with "Request is ...". */
    var lastState: Option<string>

    /** The client's settings as one value. */
    function Config(): Settings
    {
      Settings(url, key, quiet, verify, timeout, sleepMax, retryMax, fullStack, delete, callbacks)
    }

    constructor (cfg: Settings)
      ensures Config() == cfg && lastState.None?
    {
      url := cfg.url;
      key := cfg.key;
      quiet := cfg.quiet;
      verify := cfg.verify;
      timeout := cfg.timeout;
      sleepMax := cfg.sleepMax;
      retryMax := cfg.retryMax;
      fullStack := cfg.fullStack;
      delete := cfg.delete;
      callbacks := cfg.callbacks;
      lastState := None;
    }

    /** `Client(...)` (lines 43-103): settle the URL, key and verification
        flag, record the settings, and log them. */
    static method Create(args: ClientArgs, rcEnv: Option<string>, defaultRc: string,
                         files: map<string, seq<string>>) returns (r: Result<Client>, log: seq<Event>)
      ensures r.Ok? <==> ResolveClient(args, rcEnv, defaultRc, files).Ok?
      ensures r.Err? ==> r.failure == ResolveClient(args, rcEnv, defaultRc, files).failure && log == []
      ensures r.Ok? ==>
        var cfg := SettingsOf(args, ResolveClient(args, rcEnv, defaultRc, files).value);
        && fresh(r.value) && r.value.Config() == cfg && r.value.lastState.None?
        && log == [Log(cfg, Debug, CreatedMessage(cfg))]
    {
      var resolved := Resolve(args, rcEnv, defaultRc, files);
      if resolved.Err? {
        return Err(resolved.failure), [];
      }
      var cfg := SettingsOf(args, resolved.value);
      var client := new Client(cfg);
      r := Ok(client);
      log := [Log(cfg, Debug, CreatedMessage(cfg))];
    }

    /** `robust(call)(...)` (lines 260-295), with `attempts` the successive
        outcomes of `call`: the loop of the source, proved to give what
        `Retry.Robust` describes. */
    method Robust(attempts: seq<Outcome>) returns (response: Option<Response>, log: seq<Event>, calls: nat)
      requires |attempts| >= retryMax
      ensures Attempted(response, log, calls) == Retry.Robust(Config(), attempts)
    {
      var cfg := Config();
      var tries := 0;
      log := [];
      while tries < retryMax
        invariant 0 <= tries <= Max0(retryMax)
        invariant forall j :: 0 <= j < tries ==> Failed(attempts[j])
        invariant log == FailureLogs(cfg, attempts, tries)
      {
        var o := attempts[tries];
        if o.ConnectionError? {
          log := log + [Log(cfg, Warning, RecoveringFromConnectionError(o.error, tries, retryMax))];
        } else {
          if !Retriable(o.response.status) {
            FirstAcceptedAt(attempts, Max0(retryMax), tries);
            return Some(o.response), log, tries + 1;
          }
          log := log + [Log(cfg, Warning, RecoveringFromHttpError(o.response.status, tries, retryMax))];
        }
        tries := tries + 1;
        log := log + [Log(cfg, Warning, RetryingIn(sleepMax)), Slept(sleepMax)];
      }
      FirstAcceptedAt(attempts, Max0(retryMax), tries);
      return None, log, tries;
    }

    /** `_download(url, size, local_filename)` (lines 108-128), with `attempts`
        the outcomes of the GET and `elapsed` the seconds it took. */
    method Download(location: string, size: int, localFilename: Option<string>,
                    attempts: seq<Outcome>, elapsed: real) returns (result: Result<string>, log: seq<Event>)
      requires |attempts| >= retryMax
      ensures Transferred(result, log) == DownloadRun(Config(), location, size, localFilename, attempts, elapsed)
    {
      var cfg := Config();
      var filename := if localFilename.Some? then localFilename.value else LastSegment(location);
      var sizeText := BytesToString(size as real);
      if sizeText.Err? {
        return Err(sizeText.failure), [];
      }
      log := [Log(cfg, Info, Downloading(location, filename, sizeText.value))];
      var response, robustLog, _ := Robust(attempts);
      log := log + robustLog;
      if response.None? {
        // `open` has created the file before `r.iter_content` fails on None.
        log := log + [Saved(filename, [])];
        return Err(NoResponse), log;
      }
      var chunks := response.value.body;
      var data: seq<byte> := [];
      var total := 0;
      for i := 0 to |chunks|
        invariant data == Flatten(chunks[..i]) && total == |data|
      {
        var chunk := chunks[i];
        assert chunks[..i + 1][..i] == chunks[..i];
        if |chunk| > 0 {
          data := data + chunk;
          total := total + |chunk|;
        }
      }
      assert chunks[..|chunks|] == chunks;
      log := log + [Saved(filename, data)];
      if total != size {
        return Err(SizeMismatch(total, size)), log;
      }
      if elapsed != 0.0 {
        var rate := BytesToString(size as real / elapsed);
        if rate.Err? {
          return Err(rate.failure), log;
        }
        log := log + [Log(cfg, Info, DownloadRate(rate.value))];
      }
      result := Ok(filename);
    }

    /** `retrieve(name, request, target)` (lines 105-106). */
    method Retrieve(name: string, request: string, target: Option<string>, env: Env) returns (result: Result<()>, log: seq<Event>)
      requires Fits(env, retryMax)
      modifies this`lastState
      ensures Run(result, lastState, log) == ApiRun(Config(), old(lastState), url + "/resources/" + name, request, target, env)
    {
      result, log := Api(url + "/resources/" + name, request, target, env);
    }

    /** `_api(url, request, target)` (lines 130-234): submit the request, then
        poll until the job reaches a final state, announcing each change of
        state once. */
    method Api(resourceUrl: string, request: string, target: Option<string>, env: Env) returns (result: Result<()>, log: seq<Event>)
      requires Fits(env, retryMax)
      modifies this`lastState
      ensures Run(result, lastState, log) == ApiRun(Config(), old(lastState), resourceUrl, request, target, env)
    {
      var cfg := Config();
      log := [Log(cfg, Info, SendingRequest(resourceUrl)), Log(cfg, Debug, Post(resourceUrl, request))];
      var posted, postLog, _ := Robust(env.post);
      log := log + postLog;
      var submitted, submitLog := Submit(posted);
      log := log + submitLog;
      if submitted.Err? {
        return Err(submitted.failure), log;
      }
      var polled, pollLog := Poll(submitted.value, target, env);
      return polled, log + pollLog;
    }

    /** Lines 167-234: the `while True` loop, from the first reply on. */
    method Poll(first: Reply, target: Option<string>, env: Env) returns (result: Result<()>, log: seq<Event>)
      requires Fits(env, retryMax)
      modifies this`lastState
      ensures Run(result, lastState, log) == PollLoop(Config(), first, old(lastState), target, env, 0)
    {
      ghost var round := Rounds(Config(), target, env);
      ghost var bound := |env.polls|;
      var reply := first;
      var sleep := 1.0;
      var k: nat := 0;
      log := [];
      while true
        invariant k <= bound
        invariant sleep == Backoff(sleepMax, k)
        invariant Iterate(round, bound, first, old(lastState), 0) == After(log, Iterate(round, bound, reply, lastState, k))
        decreases bound - k
      {
        ghost var last := lastState;
        var step;
        step, sleep := Pass(reply, target, env, k, sleep);
        IterateUnfold(round, bound, reply, last, k);
        if step.Stop? {
          return step.result, log + step.log;
        }
        AfterAfter(log, step.log, Iterate(round, bound, step.reply, step.last, k + 1));
        log := log + step.log;
        reply := step.reply;
        k := k + 1;
      }
    }

    /** One pass through the loop (lines 172-234): log the reply, announce
        its state if it is new, and do what the state calls for. */
    method Pass(reply: Reply, target: Option<string>, env: Env, k: nat, sleep: real) returns (step: Step, nextSleep: real)
      requires Fits(env, retryMax)
      requires sleep == Backoff(sleepMax, k)
      modifies this`lastState
      ensures step == Round(Config(), reply, old(lastState), target, env, k)
      ensures lastState == step.last
      ensures step.Continue? ==> nextSleep == Backoff(sleepMax, k + 1)
    {
      var cfg := Config();
      nextSleep := sleep;
      var log := [Log(cfg, Debug, ReplyDump(reply))];
      if reply.state.None? {
        return Stop(Err(MissingKey("state")), lastState, log), nextSleep;
      }
      var state := reply.state.value;
      if Some(state) != lastState {
        log := log + [Log(cfg, Info, RequestIs(state))];
        lastState := Some(state);
      }
      var action;
      action, nextSleep := Proceed(reply, state, target, env, k, sleep);
      log := log + action.log;
      if action.Ended? {
        return Stop(action.result, lastState, log), nextSleep;
      }
      return Continue(action.next, lastState, log), nextSleep;
    }

    /** Lines 178-234 for a reply in state `state`, in round `k`: what the
        state leads to, and the sleep of the next round. */
    method Proceed(reply: Reply, state: string, target: Option<string>, env: Env, k: nat, sleep: real)
      returns (action: Action, nextSleep: real)
      requires Fits(env, retryMax)
      requires sleep == Backoff(sleepMax, k)
      ensures action == Job.Handle(Config(), reply, state, target, env, k)
      ensures action.Again? ==> nextSleep == Backoff(sleepMax, k + 1)
    {
      var cfg := Config();
      nextSleep := sleep;
      if state == "completed" {
        var done, doneLog := Complete(reply, target, env);
        return Ended(done, doneLog), nextSleep;
      }
      if state == "queued" || state == "running" {
        if reply.requestId.None? {
          return Ended(Err(MissingKey("request_id")), []), nextSleep;
        }
        var rid := reply.requestId.value;
        if k >= |env.polls| {
          return Ended(Err(OutOfReplies), []), nextSleep;
        }
        if HasTimeout(timeout) && env.polls[k].elapsed > timeout.value {
          return Ended(Err(Timeout), []), nextSleep;
        }
        var log := [Log(cfg, Debug, RequestIdSleep(rid, sleep)), Slept(sleep)];
        nextSleep := sleep * 1.5;
        if nextSleep > sleepMax {
          nextSleep := sleepMax;
        }
        var taskUrl := url + "/tasks/" + rid;
        log := log + [Log(cfg, Debug, GetTask(taskUrl))];
        var got, getLog, _ := Robust(env.polls[k].attempts);
        log := log + getLog;
        if got.None? {
          return Ended(Err(NoResponse), log), nextSleep;
        }
        if IsHttpError(got.value.status) {
          return Ended(Err(HttpError(got.value.status)), log), nextSleep;
        }
        if got.value.json.None? {
          return Ended(Err(InvalidJson), log), nextSleep;
        }
        return Again(got.value.json.value, log), nextSleep;
      }
      if state == "failed" {
        if reply.error.None? {
          return Ended(Err(MissingKey("error")), []), nextSleep;
        }
        var failure, failureLog := ReportFailure(reply.error.value);
        return Ended(Err(failure), failureLog), nextSleep;
      }
      return Ended(Err(UnknownState(state)), []), nextSleep;
    }

    /** Lines 141-165: the first reply of the service, or why the submission
        was rejected, from what the wrapped POST returned. */
    method Submit(response: Option<Response>) returns (reply: Result<Reply>, log: seq<Event>)
      ensures Submitted(reply, log) == Submission(Config(), response)
    {
      var cfg := Config();
      log := [];
      if response.None? {
        return Err(NoResponse), log;
      }
      var r := response.value;
      if !IsHttpError(r.status) && r.json.Some? {
        return Ok(r.json.value), log;
      }
      var body := if IsHttpError(r.status) && r.json.Some? then r.json.value else TextReply(r.text);
      log := [Log(cfg, Debug, ErrorReply(body))];
      if body.message.None? {
        return Err(HttpError(r.status)), log;
      }
      var terms := if AsksForTerms(body) then body.context.value.requiredTerms.value else [];
      return Err(Rejected(body.message.value, terms)), log;
    }

    /** Lines 154-162: the text of the exception raised for a rejected
        submission, one sentence appended per licence. */
    static method RejectionMessage(message: string, terms: seq<Term>) returns (text: string)
      ensures text == ExceptionText(Rejected(message, terms))
    {
      var e := [message];
      for i := 0 to |terms|
        invariant e == [message] + TermSentences(terms[..i])
      {
        assert terms[..i + 1][..i] == terms[..i];
        e := e + [TermSentence(terms[i])];
      }
      assert terms[..|terms|] == terms;
      text := Join(e, ". ");
    }

    /** Lines 178-203: fetch the result of a completed job, delete its task
        when asked to, and finish. */
    method Complete(reply: Reply, target: Option<string>, env: Env) returns (result: Result<()>, log: seq<Event>)
      requires Fits(env, retryMax)
      ensures Finished(result, log) == Completion(Config(), reply, target, env)
    {
      var cfg := Config();
      if reply.location.None? {
        return Err(MissingKey("location")), [];
      }
      var location := reply.location.value;
      if target.Some? && target.value != "" {
        if reply.contentLength.None? {
          return Err(MissingKey("content_length")), [];
        }
        var saved;
        saved, log := Download(location, reply.contentLength.value, target, env.fetch, env.fetchElapsed);
        if saved.Err? {
          return Err(saved.failure), log;
        }
      } else {
        var metadata, headLog, _ := Robust(env.fetch);
        log := [Log(cfg, Debug, Head(location))] + headLog;
        if metadata.None? {
          return Err(NoResponse), log;
        }
        if IsHttpError(metadata.value.status) {
          return Err(HttpError(metadata.value.status)), log;
        }
        log := log + [Log(cfg, Debug, Headers(metadata.value.headers))];
      }
      ghost var fetched := log;
      if reply.requestId.Some? {
        var rid := reply.requestId.value;
        if delete {
          var taskUrl := url + "/tasks/" + rid;
          log := log + [Log(cfg, Debug, DeleteTask(taskUrl))];
          if env.deletion.ConnectionError? {
            return Err(ConnectionFailed), log;
          }
          var status := env.deletion.response.status;
          log := log + [Log(cfg, Debug, DeleteReturns(status))];
          if IsHttpError(status) {
            log := log + [Log(cfg, Warning, DeleteFailed(taskUrl, status))];
          }
        }
      }
      assert log == fetched + Cleanup(cfg, reply, env).log;
      log := log + [Log(cfg, Debug, Done)];
      result := Ok(());
    }

    /** Lines 225-232: log a failed job's message, reason and traceback, and
        give the exception it raises. */
    method ReportFailure(e: JobError) returns (failure: Failure, log: seq<Event>)
      ensures failure == JobFailed(e.message, e.reason)
      ensures log == JobFailureLog(Config(), e)
    {
      var cfg := Config();
      var traceback := ShowTraceback(TracebackLines(e));
      log := [Log(cfg, Error, FailureMessage(Show(e.message))), Log(cfg, Error, FailureReason(Show(e.reason)))]
        + traceback;
      failure := JobFailed(e.message, e.reason);
    }

    /** Lines 228-231: log the traceback lines, stopping at the first blank
        one unless `full_stack` is set. */
    method ShowTraceback(lines: seq<string>) returns (log: seq<Event>)
      ensures log == TracebackLog(Config(), Shown(lines, fullStack))
    {
      var cfg := Config();
      ghost var shown := Shown(lines, fullStack);
      ShownPrefix(lines, fullStack);
      log := [];
      var i := 0;
      while i < |lines|
        invariant i <= |shown|
        invariant log == TracebackLog(cfg, lines[..i])
      {
        assert i < |shown| ==> shown[i] == lines[i];
        if Strip(lines[i]) == "" && !fullStack {
          break;
        }
        TracebackLogSnoc(cfg, lines, i);
        log := log + [Log(cfg, Error, TracebackLine(lines[i]))];
        i := i + 1;
      }
      assert shown == lines[..i];
    }
  }

  /** A pass's log, then the rest of the run, after `before`. */
  lemma AfterAfter(before: seq<Event>, passLog: seq<Event>, run: Run)
    ensures After(before, After(passLog, run)) == After(before + passLog, run)
  {
  }

  lemma TracebackLogSnoc(cfg: Settings, lines: seq<string>, i: nat)
    requires i < |lines|
    ensures TracebackLog(cfg, lines[..i + 1]) == TracebackLog(cfg, lines[..i]) + [Log(cfg, Error, TracebackLine(lines[i]))]
  {
    assert lines[..i + 1][..i] == lines[..i];
  }

  /** The first accepted attempt is the one the wrapper's loop stops at. */
  lemma FirstAcceptedAt(attempts: seq<Outcome>, n: nat, i: nat)
    requires i <= n <= |attempts|
    requires forall j :: 0 <= j < i ==> Failed(attempts[j])
    requires i < n ==> !Failed(attempts[i])
    ensures FirstAccepted(attempts, n) == i
  {
  }
}
