/** What the submit-and-poll loop of cdsapi/api.py:130-234 promises, stated
    over the functions of `Job`. */
module JobFacts {
  import opened Outcomes
  import opened Text
  import opened Logging
  import opened Protocol
  import opened Retry
  import opened Transfer
  import opened Units
  import opened Job

  // ---------------------------------------------------------------------------
  // Back-off between polls

  /** 1.5 raised to `k`. */
  function Pow15(k: nat): real
  {
    if k == 0 then 1.0 else 1.5 * Pow15(k - 1)
  }

  /** After the first poll the sleep is 1.5^k seconds, capped at `sleep_max`. */
  lemma {:induction false} BackoffClosedForm(sleepMax: real, k: nat)
    requires sleepMax >= 0.0 && k >= 1
    ensures Backoff(sleepMax, k) == if Pow15(k) > sleepMax then sleepMax else Pow15(k)
  {
    if k > 1 {
      BackoffClosedForm(sleepMax, k - 1);
      PowGrows(k - 1);
    }
  }

  lemma {:induction false} PowGrows(k: nat)
    ensures Pow15(k) >= 1.0
  {
    if k > 0 {
      PowGrows(k - 1);
    }
  }

  /** With `sleep_max` at least 1 second, the sleep never shrinks and stays
      between 1 second and `sleep_max`. */
  lemma {:induction false} BackoffMonotone(sleepMax: real, k: nat)
    requires sleepMax >= 1.0
    ensures 1.0 <= Backoff(sleepMax, k) <= Backoff(sleepMax, k + 1) <= sleepMax
  {
    if k > 0 {
      BackoffMonotone(sleepMax, k - 1);
    }
  }

  // ---------------------------------------------------------------------------
  // "Request is ..." notifications

  predicate IsNotice(e: Event)
  {
    e.Logged? && e.delivered.payload.RequestIs?
  }

  /** The states announced by the "Request is ..." messages of `log`, in order. */
  function Notices(log: seq<Event>): seq<string>
  {
    if log == [] then []
    else Notices(log[..|log| - 1]) + (if IsNotice(log[|log| - 1]) then [log[|log| - 1].delivered.payload.state] else [])
  }

  /** A log without notifications. */
  predicate Quiet(log: seq<Event>)
  {
    forall i :: 0 <= i < |log| ==> !IsNotice(log[i])
  }

  lemma {:induction false} NoticesAppend(a: seq<Event>, b: seq<Event>)
    ensures Notices(a + b) == Notices(a) + Notices(b)
    decreases |b|
  {
    if b == [] {
      assert a + b == a;
    } else {
      assert (a + b)[..|a + b| - 1] == a + b[..|b| - 1];
      NoticesAppend(a, b[..|b| - 1]);
    }
  }

  lemma {:induction false} QuietNotices(log: seq<Event>)
    requires Quiet(log)
    ensures Notices(log) == []
    decreases |log|
  {
    if log != [] {
      QuietNotices(log[..|log| - 1]);
    }
  }

  lemma {:induction false} FailureLogsQuiet(cfg: Settings, attempts: seq<Outcome>, n: nat)
    requires n <= |attempts|
    ensures Quiet(FailureLogs(cfg, attempts, n))
  {
    if n > 0 {
      FailureLogsQuiet(cfg, attempts, n - 1);
    }
  }

  lemma RobustQuiet(cfg: Settings, attempts: seq<Outcome>)
    requires |attempts| >= cfg.retryMax
    ensures Quiet(Robust(cfg, attempts).log)
  {
    var n := Max0(cfg.retryMax);
    FailureLogsQuiet(cfg, attempts, FirstAccepted(attempts, n));
    FailureLogsQuiet(cfg, attempts, n);
  }

  lemma QuietAppend(a: seq<Event>, b: seq<Event>)
    requires Quiet(a) && Quiet(b)
    ensures Quiet(a + b)
  {
    forall i | 0 <= i < |a + b|
      ensures !IsNotice((a + b)[i])
    {
      if i >= |a| {
        assert (a + b)[i] == b[i - |a|];
      }
    }
  }

  lemma DownloadQuiet(cfg: Settings, url: string, size: int, localFilename: Option<string>,
                      attempts: seq<Outcome>, elapsed: real)
    requires |attempts| >= cfg.retryMax
    ensures Quiet(DownloadRun(cfg, url, size, localFilename, attempts, elapsed).log)
  {
    RobustQuiet(cfg, attempts);
  }

  lemma FetchQuiet(cfg: Settings, reply: Reply, target: Option<string>, env: Env)
    requires Fits(env, cfg.retryMax)
    ensures Quiet(Fetch(cfg, reply, target, env).log)
  {
    if reply.location.Some? && Truthy(target) && reply.contentLength.Some? {
      DownloadQuiet(cfg, reply.location.value, reply.contentLength.value, target, env.fetch, env.fetchElapsed);
    } else {
      RobustQuiet(cfg, env.fetch);
    }
  }

  lemma CompletionQuiet(cfg: Settings, reply: Reply, target: Option<string>, env: Env)
    requires Fits(env, cfg.retryMax)
    ensures Quiet(Completion(cfg, reply, target, env).log)
  {
    var f := Fetch(cfg, reply, target, env);
    var c := Cleanup(cfg, reply, env);
    FetchQuiet(cfg, reply, target, env);
    assert Quiet(c.log);
    QuietAppend(f.log, c.log);
    QuietAppend(f.log + c.log, [Log(cfg, Debug, Done)]);
  }

  lemma FailureQuiet(cfg: Settings, e: JobError)
    ensures Quiet(JobFailureLog(cfg, e))
  {
  }

  /** Handling a state never announces one. */
  lemma HandleQuiet(cfg: Settings, reply: Reply, state: string, target: Option<string>, env: Env, k: nat)
    requires Fits(env, cfg.retryMax)
    ensures Quiet(Handle(cfg, reply, state, target, env, k).log)
  {
    if state == "completed" {
      CompletionQuiet(cfg, reply, target, env);
    } else if (state == "queued" || state == "running") && reply.requestId.Some? && k < |env.polls| {
      RobustQuiet(cfg, env.polls[k].attempts);
    } else if state == "failed" && reply.error.Some? {
      FailureQuiet(cfg, reply.error.value);
    }
  }

  /** One round announces the reply's state exactly when it differs from the
      last one announced, and remembers it. */
  lemma RoundNotices(cfg: Settings, reply: Reply, last: Option<string>, target: Option<string>, env: Env, k: nat)
    requires Fits(env, cfg.retryMax)
    ensures var s := Round(cfg, reply, last, target, env, k);
      reply.state.None? ==> s.last == last && Notices(s.log) == []
    ensures var s := Round(cfg, reply, last, target, env, k);
      reply.state.Some? ==>
        s.last == reply.state && Notices(s.log) == (if reply.state != last then [reply.state.value] else [])
    ensures var s := Round(cfg, reply, last, target, env, k);
      Announces(Notices(s.log), last, s.last) && |Notices(s.log)| <= 1
  {
    var dumped := [Log(cfg, Debug, ReplyDump(reply))];
    assert Notices(dumped) == [] by { QuietNotices(dumped); }
    if reply.state.Some? {
      var state := reply.state.value;
      var notice := Notice(cfg, state, last);
      assert Notices(notice) == (if reply.state != last then [state] else []) by {
        if notice != [] {
          assert notice[..0] == [];
        }
      }
      var handled := Handle(cfg, reply, state, target, env, k);
      HandleQuiet(cfg, reply, state, target, env, k);
      QuietNotices(handled.log);
      NoticesAppend(dumped, notice);
      NoticesAppend(dumped + notice, handled.log);
    }
  }

  /** The announcements `n`, made starting from `last_state` `from`, never
      repeat a state twice in a row, begin with a state other than `from`, and
      leave `last_state` at `to`. */
  predicate Announces(n: seq<string>, from: Option<string>, to: Option<string>)
  {
    && (forall i :: 0 <= i < |n| - 1 ==> n[i] != n[i + 1])
    && (|n| > 0 ==> Some(n[0]) != from)
    && to == (if |n| > 0 then Some(n[|n| - 1]) else from)
  }

  lemma AnnouncesChain(first: seq<string>, m: seq<string>, from: Option<string>, mid: Option<string>, to: Option<string>)
    requires Announces(first, from, mid) && |first| <= 1
    requires Announces(m, mid, to)
    ensures Announces(first + m, from, to)
  {
    var n := first + m;
    forall i | 0 <= i < |n| - 1
      ensures n[i] != n[i + 1]
    {
      if |first| == 1 && i == 0 {
        assert n[1] == m[0];
      } else {
        assert n[i] == m[i - |first|] && n[i + 1] == m[i + 1 - |first|];
      }
    }
  }

  /** Passes that each announce at most one state, never the one last
      announced, announce no state twice in a row over any number of passes. */
  lemma {:induction false} IterateNotices(round: (Reply, Option<string>, nat) -> Step, bound: nat,
                                          reply: Reply, last: Option<string>, k: nat)
    requires forall r, l, i: nat :: round(r, l, i).Continue? ==> i < bound
    requires forall r, l, i: nat ::
      Announces(Notices(round(r, l, i).log), l, round(r, l, i).last) && |Notices(round(r, l, i).log)| <= 1
    ensures var run := Iterate(round, bound, reply, last, k);
      Announces(Notices(run.log), last, run.last)
    decreases bound - k
  {
    var s := round(reply, last, k);
    if s.Continue? {
      var rest := Iterate(round, bound, s.reply, s.last, k + 1);
      IterateNotices(round, bound, s.reply, s.last, k + 1);
      NoticesAppend(s.log, rest.log);
      AnnouncesChain(Notices(s.log), Notices(rest.log), last, s.last, rest.last);
    }
  }

  /** Over the whole loop, no state is announced twice in a row, the first
      announcement differs from the `last_state` the loop started with, and the
      client's `last_state` ends as the last state announced. */
  lemma LoopNotices(cfg: Settings, reply: Reply, last: Option<string>, target: Option<string>, env: Env, k: nat)
    requires Fits(env, cfg.retryMax)
    ensures var run := PollLoop(cfg, reply, last, target, env, k);
      Announces(Notices(run.log), last, run.last)
  {
    var round := Rounds(cfg, target, env);
    forall r, l, i: nat
      ensures Announces(Notices(round(r, l, i).log), l, round(r, l, i).last) && |Notices(round(r, l, i).log)| <= 1
    {
      RoundNotices(cfg, r, l, target, env, i);
    }
    IterateNotices(round, |env.polls|, reply, last, k);
  }

  /** The same over a whole `_api` call: nothing is announced before the
      first reply, so the first announcement differs from the client's
      `last_state` before the call, even across calls. */
  lemma ApiNotices(cfg: Settings, last: Option<string>, url: string, request: string, target: Option<string>, env: Env)
    requires Fits(env, cfg.retryMax)
    ensures var run := ApiRun(cfg, last, url, request, target, env);
      Announces(Notices(run.log), last, run.last)
  {
    var sent := [Log(cfg, Info, SendingRequest(url)), Log(cfg, Debug, Post(url, request))];
    var posted := Robust(cfg, env.post);
    var submitted := Submission(cfg, posted.response);
    var before := sent + posted.log + submitted.log;
    RobustQuiet(cfg, env.post);
    assert Quiet(before);
    QuietNotices(before);
    if submitted.reply.Ok? {
      var run := PollLoop(cfg, submitted.reply.value, last, target, env, 0);
      LoopNotices(cfg, submitted.reply.value, last, target, env, 0);
      NoticesAppend(before, run.log);
    }
  }

  // ---------------------------------------------------------------------------
  // Final states, timeout and the traceback

  /** A download, a HEAD or a DELETE never fails with an exception of the
      client's own text. */
  lemma CompletionNeverRaises(cfg: Settings, reply: Reply, target: Option<string>, env: Env)
    requires Fits(env, cfg.retryMax)
    ensures var c := Completion(cfg, reply, target, env);
      c.result.Err? ==> !RaisedByClient(c.result.failure)
  {
    var s := reply.contentLength;
    if reply.location.Some? && Truthy(target) && s.Some? {
      HumanSizeFails(s.value as real);
    }
  }

  /** "completed" ends the loop with what the download or HEAD and the DELETE
      give; "failed" ends it with the job's message and reason after logging
      them; any state but the four known ones ends it with "Unknown API
      state"; only a "queued" or "running" job whose next reply arrives in
      good order leads to another round. */
  lemma HandleFinalStates(cfg: Settings, reply: Reply, state: string, target: Option<string>, env: Env, k: nat)
    requires Fits(env, cfg.retryMax)
    ensures state == "completed" ==>
      var c := Completion(cfg, reply, target, env);
      Handle(cfg, reply, state, target, env, k) == Ended(c.result, c.log)
    ensures state == "failed" && reply.error.Some? ==>
      Handle(cfg, reply, state, target, env, k) ==
        Ended(Err(JobFailed(reply.error.value.message, reply.error.value.reason)), JobFailureLog(cfg, reply.error.value))
    ensures state !in ["completed", "queued", "running", "failed"] ==>
      Handle(cfg, reply, state, target, env, k) == Ended(Err(UnknownState(state)), [])
    ensures Handle(cfg, reply, state, target, env, k).Again? <==>
      && (state == "queued" || state == "running")
      && reply.requestId.Some? && k < |env.polls| && !TimedOut(cfg.timeout, env.polls[k].elapsed)
      && var got := Robust(cfg, env.polls[k].attempts);
         got.response.Some? && !IsHttpError(got.response.value.status) && got.response.value.json.Some?
  {
  }

  /** The timeout is raised exactly when a queued or running job is still
      unfinished past `timeout` seconds (and `timeout` is set), before that
      round sleeps or asks again; otherwise a waiting round first sleeps
      `Backoff` seconds. */
  lemma TimeoutHandle(cfg: Settings, reply: Reply, state: string, target: Option<string>, env: Env, k: nat)
    requires Fits(env, cfg.retryMax)
    ensures var a := Handle(cfg, reply, state, target, env, k);
      a.Ended? && a.result == Err(Timeout) <==>
        && (state == "queued" || state == "running")
        && reply.requestId.Some? && k < |env.polls| && TimedOut(cfg.timeout, env.polls[k].elapsed)
    ensures var a := Handle(cfg, reply, state, target, env, k);
      a.Ended? && a.result == Err(Timeout) ==> a.log == []
    ensures var a := Handle(cfg, reply, state, target, env, k);
      (state == "queued" || state == "running")
      && reply.requestId.Some? && k < |env.polls| && !TimedOut(cfg.timeout, env.polls[k].elapsed) ==>
        |a.log| >= 3 && a.log[1] == Slept(Backoff(cfg.sleepMax, k))
  {
    HandleFinalStates(cfg, reply, state, target, env, k);
    if state == "completed" {
      CompletionNeverRaises(cfg, reply, target, env);
    }
  }

  /** Cutting `xs` before the first element that satisfies `stop` keeps a
      prefix none of whose elements satisfies it, and the element after it,
      if any, does. */
  lemma {:induction false} TakeUntilPrefix<T>(xs: seq<T>, stop: T -> bool)
    ensures var u := TakeUntil(xs, stop);
      && |u| <= |xs| && u == xs[..|u|]
      && (forall i :: 0 <= i < |u| ==> !stop(u[i]))
      && (|u| < |xs| ==> stop(xs[|u|]))
  {
    if xs != [] && !stop(xs[0]) {
      var tail := xs[1..];
      TakeUntilPrefix(tail, stop);
      var v := TakeUntil(tail, stop);
      var u := TakeUntil(xs, stop);
      assert u == [xs[0]] + v;
      assert u == xs[..|u|] by {
        assert xs[..|u|] == [xs[0]] + tail[..|v|];
      }
      assert forall i :: 0 <= i < |u| ==> !stop(u[i]) by {
        forall i | 0 <= i < |u|
          ensures !stop(u[i])
        {
          if i > 0 {
            assert u[i] == v[i - 1];
          }
        }
      }
      assert |u| < |xs| ==> stop(xs[|u|]) by {
        if |u| < |xs| {
          assert xs[|u|] == tail[|v|];
        }
      }
    }
  }

  /** The traceback lines shown are the first ones, up to (not including) the
      first line whose `strip()` is empty, or all of them with `full_stack`. */
  lemma ShownPrefix(lines: seq<string>, fullStack: bool)
    ensures var u := Shown(lines, fullStack);
      && |u| <= |lines| && u == lines[..|u|]
      && (forall j :: 0 <= j < |u| ==> fullStack || !BlankLine(u[j]))
      && (|u| < |lines| ==> !fullStack && BlankLine(lines[|u|]))
  {
    if !fullStack {
      TakeUntilPrefix(lines, BlankLine);
    }
  }

  /** A line counts as blank exactly when it is all white space. */
  lemma BlankLineIsSpace(line: string)
    ensures BlankLine(line) <==> IsBlank(line)
  {
    StripEmpty(line);
  }

  // ---------------------------------------------------------------------------
  // Deleting a finished task

  /** The DELETE is sent exactly when the reply has a request id and `delete`
      is set; only a connection error makes it fail the call, and an HTTP
      error status only adds a warning. */
  lemma CleanupContract(cfg: Settings, reply: Reply, env: Env)
    ensures var c := Cleanup(cfg, reply, env);
      (c.log != [] <==> reply.requestId.Some? && cfg.delete)
      && (c.log != [] ==> c.log[0] == Log(cfg, Debug, DeleteTask(TaskUrl(cfg, reply.requestId.value))))
    ensures var c := Cleanup(cfg, reply, env);
      c.result.Err? <==> reply.requestId.Some? && cfg.delete && env.deletion.ConnectionError?
    ensures var c := Cleanup(cfg, reply, env);
      reply.requestId.Some? && cfg.delete && env.deletion.Received? && IsHttpError(env.deletion.response.status) ==>
        c.log[|c.log| - 1] == Log(cfg, Warning, DeleteFailed(TaskUrl(cfg, reply.requestId.value), env.deletion.response.status))
        && c.log[|c.log| - 1].delivered.level == Warning
  {
  }

  /** A completed job succeeds only after its data was fetched (downloaded to
      `target`, or found by a HEAD) and the DELETE, if any, was sent; the
      call's log then ends with "Done". */
  lemma CompletionContract(cfg: Settings, reply: Reply, target: Option<string>, env: Env)
    requires Fits(env, cfg.retryMax)
    ensures var c := Completion(cfg, reply, target, env);
      c.result.Ok? ==> reply.location.Some? && c.log[|c.log| - 1] == Log(cfg, Debug, Done)
    ensures var c := Completion(cfg, reply, target, env);
      c.result.Ok? && Truthy(target) ==>
        var body := Robust(cfg, env.fetch).response.value.body;
        Robust(cfg, env.fetch).response.Some?
        && Saved(target.value, Flatten(body)) in c.log
        && reply.contentLength == Some(|Flatten(body)|)
    ensures var c := Completion(cfg, reply, target, env);
      c.result.Ok? && !Truthy(target) ==>
        Robust(cfg, env.fetch).response.Some? && !IsHttpError(Robust(cfg, env.fetch).response.value.status)
  {
    var c := Completion(cfg, reply, target, env);
    if c.result.Ok? && Truthy(target) {
      var size := reply.contentLength.value;
      HumanSizeFails(size as real);
      var d := DownloadRun(cfg, reply.location.value, size, target, env.fetch, env.fetchElapsed);
      assert d.result.Ok?;
      assert Robust(cfg, env.fetch).response.Some?;
      NonEmptyFlatten(Robust(cfg, env.fetch).response.value.body);
    }
  }
}
