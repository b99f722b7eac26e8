/** `cdsapi.legacy_client.LegacyClient` (cdsapi/legacy_client.py:19-191): the
    base class of the legacy client. Its constructor keeps the arguments as
    given, settles the URL, the key and the verification flag from the
    arguments, the environment and the configuration file, and records the
    settings; `info`, `warning`, `error` and `debug` forward to a callback or
    to the logger. Its remaining methods are abstract. */
module Legacy {
  import opened Outcomes
  import opened Logging
  import opened RcFile
  import Api

  /** An object the client only stores and hands on: a session, metadata. */
  type ObjectId = nat

  /** The constructor's nineteen arguments, in the order they are declared;
      `None` is Python's `None`. */
  datatype LegacyArgs = LegacyArgs(
    url: Option<string>,
    key: Option<string>,
    quiet: bool,
    debug: bool,
    verify: Option<bool>,
    timeout: Option<real>,
    progress: bool,
    fullStack: bool,
    delete: bool,
    retryMax: int,
    sleepMax: real,
    waitUntilComplete: bool,
    infoCallback: Option<CallbackId>,
    warningCallback: Option<CallbackId>,
    errorCallback: Option<CallbackId>,
    debugCallback: Option<CallbackId>,
    metadata: Option<ObjectId>,
    forget: bool,
    session: ObjectId)

  /** The arguments' defaults (lines 22-43) for a given session. */
  function DefaultArgs(session: ObjectId): LegacyArgs
  {
    LegacyArgs(None, None, false, false, None, Some(60.0), true, false, true, 500, 120.0, true,
               None, None, None, None, None, false, session)
  }

  /** One element of the Python list `self.args`. */
  datatype Value = NoneValue | Str(s: string) | Bool(b: bool) | Int(i: int) | Number(r: real) | Object(id: nat)

  function OfText(v: Option<string>): Value { if v.Some? then Str(v.value) else NoneValue }
  function OfFlag(v: Option<bool>): Value { if v.Some? then Bool(v.value) else NoneValue }
  function OfNumber(v: Option<real>): Value { if v.Some? then Number(v.value) else NoneValue }
  function OfObject(v: Option<nat>): Value { if v.Some? then Object(v.value) else NoneValue }

  function TextOf(v: Value): Option<Option<string>>
  {
    match v
    case NoneValue => Some(None)
    case Str(s) => Some(Some(s))
    case _ => None
  }

  function FlagOf(v: Value): Option<Option<bool>>
  {
    match v
    case NoneValue => Some(None)
    case Bool(b) => Some(Some(b))
    case _ => None
  }

  function NumberOf(v: Value): Option<Option<real>>
  {
    match v
    case NoneValue => Some(None)
    case Number(r) => Some(Some(r))
    case _ => None
  }

  function ObjectOf(v: Value): Option<Option<nat>>
  {
    match v
    case NoneValue => Some(None)
    case Object(id) => Some(Some(id))
    case _ => None
  }

  /** Reads a list of the shape `self.args` has back into the arguments. */
  function ArgsOf(vs: seq<Value>): Option<LegacyArgs>
  {
    if |vs| != 19 then None
    else
      var url, key, verify, timeout := TextOf(vs[0]), TextOf(vs[1]), FlagOf(vs[4]), NumberOf(vs[5]);
      var info, warning, error, debug := ObjectOf(vs[12]), ObjectOf(vs[13]), ObjectOf(vs[14]), ObjectOf(vs[15]);
      var metadata := ObjectOf(vs[16]);
      if && url.Some? && key.Some? && vs[2].Bool? && vs[3].Bool? && verify.Some? && timeout.Some?
         && vs[6].Bool? && vs[7].Bool? && vs[8].Bool? && vs[9].Int? && vs[10].Number? && vs[11].Bool?
         && info.Some? && warning.Some? && error.Some? && debug.Some? && metadata.Some?
         && vs[17].Bool? && vs[18].Object?
      then
        Some(LegacyArgs(url.value, key.value, vs[2].b, vs[3].b, verify.value, timeout.value,
                        vs[6].b, vs[7].b, vs[8].b, vs[9].i, vs[10].r, vs[11].b,
                        info.value, warning.value, error.value, debug.value, metadata.value,
                        vs[17].b, vs[18].id))
      else None
  }

  /** `self.args` (lines 44-64): the arguments as passed, before the
      environment or the file fill anything in. */
  function ArgList(a: LegacyArgs): (vs: seq<Value>)
    ensures |vs| == 19
  {
    [OfText(a.url), OfText(a.key), Bool(a.quiet), Bool(a.debug), OfFlag(a.verify), OfNumber(a.timeout),
     Bool(a.progress), Bool(a.fullStack), Bool(a.delete), Int(a.retryMax), Number(a.sleepMax),
     Bool(a.waitUntilComplete), OfObject(a.infoCallback), OfObject(a.warningCallback),
     OfObject(a.errorCallback), OfObject(a.debugCallback), OfObject(a.metadata), Bool(a.forget),
     Object(a.session)]
  }

  lemma ArgListFront(a: LegacyArgs)
    ensures var vs := ArgList(a);
      && TextOf(vs[0]) == Some(a.url) && TextOf(vs[1]) == Some(a.key)
      && vs[2] == Bool(a.quiet) && vs[3] == Bool(a.debug)
      && FlagOf(vs[4]) == Some(a.verify)
  {
  }

  lemma ArgListMiddle(a: LegacyArgs)
    ensures var vs := ArgList(a);
      && NumberOf(vs[5]) == Some(a.timeout)
      && vs[6] == Bool(a.progress) && vs[7] == Bool(a.fullStack) && vs[8] == Bool(a.delete)
  {
  }

  lemma ArgListBack(a: LegacyArgs)
    ensures var vs := ArgList(a);
      && vs[9] == Int(a.retryMax) && vs[10] == Number(a.sleepMax) && vs[11] == Bool(a.waitUntilComplete)
      && ObjectOf(vs[12]) == Some(a.infoCallback) && ObjectOf(vs[13]) == Some(a.warningCallback)
      && ObjectOf(vs[14]) == Some(a.errorCallback) && ObjectOf(vs[15]) == Some(a.debugCallback)
      && ObjectOf(vs[16]) == Some(a.metadata) && vs[17] == Bool(a.forget) && vs[18] == Object(a.session)
  {
  }

  /** `self.args` has one element per argument, in order: reading it back
      by position gives the arguments again. */
  lemma ArgListRoundTrip(a: LegacyArgs)
    ensures ArgsOf(ArgList(a)) == Some(a)
  {
    ArgListFront(a);
    ArgListMiddle(a);
    ArgListBack(a);
  }

  /** What `os.environ.get` gives for the three variables the constructor
      reads: `CDSAPI_URL`, `CDSAPI_KEY` and `CDSAPI_RC`. */
  datatype Environment = Environment(url: Option<string>, key: Option<string>, rc: Option<string>)

  /** `config.get(name)`. */
  function ConfigGet(config: map<string, string>, name: string): Option<string>
  {
    if name in config then Some(config[name]) else None
  }

  /** Lines 81-84: the argument, or else the environment variable. */
  function Given(arg: Option<string>, fromEnv: Option<string>): Option<string>
  {
    if arg.Some? then arg else fromEnv
  }

  /** Lines 81-105: the URL and the key come from the argument, else from
      the environment, else from the configuration file, which is read only
      when one of them is still missing and the file exists; `verify` comes
      from the argument, else from that file, else it is true. `files` maps
      every existing path to its lines. */
  function ResolveLegacy(args: LegacyArgs, env: Environment, defaultRc: string,
                         files: map<string, seq<string>>): Result<Api.Resolved>
  {
    var url := Given(args.url, env.url);
    var key := Given(args.key, env.key);
    var dotrc := Api.RcPath(env.rc, defaultRc);
    if (url.None? || key.None?) && dotrc in files then
      var config := ConfigOf(files[dotrc]);
      var key' := if key.None? then ConfigGet(config, "key") else key;
      var url' := if url.None? then ConfigGet(config, "url") else url;
      if args.verify.Some? then Api.Settle(url', key', args.verify.value, dotrc)
      else match Api.VerifyNumber(config)
        case Err(f) => Err(f)
        case Ok(n) => Api.Settle(url', key', n != 0, dotrc)
    else Api.Settle(url, key, if args.verify.Some? then args.verify.value else true, dotrc)
  }

  /** For the URL and for the key, the argument wins over the environment,
      which wins over the file. */
  lemma Precedence(args: LegacyArgs, env: Environment, defaultRc: string, files: map<string, seq<string>>)
    ensures var r := ResolveLegacy(args, env, defaultRc, files);
      && (r.Ok? && args.url.Some? ==> r.value.url == args.url.value)
      && (r.Ok? && args.key.Some? ==> r.value.key == args.key.value)
      && (r.Ok? && args.url.None? && env.url.Some? ==> r.value.url == env.url.value)
      && (r.Ok? && args.key.None? && env.key.Some? ==> r.value.key == env.key.value)
  {
  }

  /** The file gives the URL only when neither the argument nor the
      environment does. */
  lemma UrlFromFile(args: LegacyArgs, env: Environment, defaultRc: string, files: map<string, seq<string>>)
    ensures var r := ResolveLegacy(args, env, defaultRc, files);
      var dotrc := Api.RcPath(env.rc, defaultRc);
      r.Ok? && args.url.None? && env.url.None? ==>
        dotrc in files && "url" in ConfigOf(files[dotrc]) && r.value.url == ConfigOf(files[dotrc])["url"]
  {
  }

  /** The file gives the key only when neither the argument nor the
      environment does. */
  lemma KeyFromFile(args: LegacyArgs, env: Environment, defaultRc: string, files: map<string, seq<string>>)
    ensures var r := ResolveLegacy(args, env, defaultRc, files);
      var dotrc := Api.RcPath(env.rc, defaultRc);
      r.Ok? && args.key.None? && env.key.None? ==>
        dotrc in files && "key" in ConfigOf(files[dotrc]) && r.value.key == ConfigOf(files[dotrc])["key"]
  {
  }

  /** When the arguments and the environment give both the URL and the key,
      the file is not consulted: any set of files gives the same client. */
  lemma FileUnread(args: LegacyArgs, env: Environment, defaultRc: string, files: map<string, seq<string>>)
    requires Given(args.url, env.url).Some? && Given(args.key, env.key).Some?
    ensures ResolveLegacy(args, env, defaultRc, files) == ResolveLegacy(args, env, defaultRc, map[])
    ensures ResolveLegacy(args, env, defaultRc, files) ==
      Ok(Api.Resolved(Given(args.url, env.url).value, Given(args.key, env.key).value,
                      args.verify.None? || args.verify.value))
  {
  }

  /** Lines 87-101: the constructor fails with "Missing/incomplete
      configuration file" exactly when the URL or the key is missing from
      every source, and no unreadable `verify` in the file failed first; an
      unreadable `verify` is the only other failure. */
  lemma MissingConfiguration(args: LegacyArgs, env: Environment, defaultRc: string, files: map<string, seq<string>>)
    ensures var r := ResolveLegacy(args, env, defaultRc, files);
      var url := Given(args.url, env.url);
      var key := Given(args.key, env.key);
      var dotrc := Api.RcPath(env.rc, defaultRc);
      r == Err(MissingConfig(dotrc)) <==>
        && (url.None? || key.None?)
        && (dotrc !in files ||
             ((args.verify.Some? || Api.VerifyNumber(ConfigOf(files[dotrc])).Ok?)
              && ((url.None? && "url" !in ConfigOf(files[dotrc])) ||
                  (key.None? && "key" !in ConfigOf(files[dotrc])))))
    ensures var r := ResolveLegacy(args, env, defaultRc, files);
      r.Err? ==> r.failure.MissingConfig? || r.failure.NotAnInteger?
  {
    var dotrc := Api.RcPath(env.rc, defaultRc);
    if dotrc in files {
      var v := Api.VerifyNumber(ConfigOf(files[dotrc]));
    }
  }

  /** Lines 97-98, 103-105 and 113: an explicit `verify` wins; otherwise the
      file's `verify` decides when the file was read (non-zero means
      verify, absent means 1); otherwise the client verifies. */
  lemma VerifyResolution(args: LegacyArgs, env: Environment, defaultRc: string, files: map<string, seq<string>>)
    ensures var r := ResolveLegacy(args, env, defaultRc, files);
      r.Ok? && args.verify.Some? ==> r.value.verify == args.verify.value
    ensures var r := ResolveLegacy(args, env, defaultRc, files);
      var read := (Given(args.url, env.url).None? || Given(args.key, env.key).None?)
        && Api.RcPath(env.rc, defaultRc) in files;
      var config := if read then ConfigOf(files[Api.RcPath(env.rc, defaultRc)]) else map[];
      r.Ok? && args.verify.None? ==>
        if read then Api.VerifyNumber(config).Ok? && r.value.verify == (Api.VerifyNumber(config).value != 0)
        else r.value.verify
  {
  }

  /** The two clients settle an unspecified `verify` differently: given a URL
      and a key and nothing else, the legacy client verifies certificates
      and `cdsapi.api.Client` does not. */
  lemma VerifyDefaultsDiffer(url: string, key: string, session: ObjectId, env: Environment,
                             defaultRc: string, files: map<string, seq<string>>)
    ensures var legacy := DefaultArgs(session).(url := Some(url), key := Some(key));
      ResolveLegacy(legacy, env, defaultRc, files) == Ok(Api.Resolved(url, key, true))
    ensures Api.ResolveClient(Api.DefaultArgs(Some(url), Some(key)), env.rc, defaultRc, files)
      == Ok(Api.Resolved(url, key, false))
  {
  }

  /** The `"CDSAPI %s"` dictionary the constructor logs (lines 132-148). */
  datatype SettingsDump = SettingsDump(
    url: string,
    key: string,
    quiet: bool,
    verify: bool,
    timeout: Option<real>,
    progress: bool,
    sleepMax: real,
    retryMax: int,
    fullStack: bool,
    delete: bool,
    metadata: Option<ObjectId>,
    forget: bool)

  class LegacyClient {
    /** `self.args`. */
    const args: seq<Value>
    const url: string
    const key: string
    const quiet: bool
    const progress: bool
    const verify: bool
    const timeout: Option<real>
    const sleepMax: real
    const retryMax: int
    const fullStack: bool
    const delete: bool
    var lastState: Option<string>
    const waitUntilComplete: bool
    const debugCallback: Option<CallbackId>
    const warningCallback: Option<CallbackId>
    const infoCallback: Option<CallbackId>
    const errorCallback: Option<CallbackId>
    const session: ObjectId
    const metadata: Option<ObjectId>
    const forget: bool

    /** Lines 44-64 and 107-130 once the URL, the key and `verify` are settled. */
    constructor (a: LegacyArgs, r: Api.Resolved)
      ensures args == ArgList(a)
      ensures url == r.url && key == r.key && verify == r.verify
      ensures quiet == a.quiet && progress == (a.progress && !a.quiet)
      ensures timeout == a.timeout && sleepMax == a.sleepMax && retryMax == a.retryMax
      ensures fullStack == a.fullStack && delete == a.delete && lastState.None?
      ensures waitUntilComplete == a.waitUntilComplete
      ensures infoCallback == a.infoCallback && warningCallback == a.warningCallback
      ensures errorCallback == a.errorCallback && debugCallback == a.debugCallback
      ensures session == a.session && metadata == a.metadata && forget == a.forget
    {
      args := ArgList(a);
      url := r.url;
      key := r.key;
      quiet := a.quiet;
      progress := a.progress && !a.quiet;
      verify := r.verify;
      timeout := a.timeout;
      sleepMax := a.sleepMax;
      retryMax := a.retryMax;
      fullStack := a.fullStack;
      delete := a.delete;
      lastState := None;
      waitUntilComplete := a.waitUntilComplete;
      debugCallback := a.debugCallback;
      warningCallback := a.warningCallback;
      infoCallback := a.infoCallback;
      errorCallback := a.errorCallback;
      session := a.session;
      metadata := a.metadata;
      forget := a.forget;
    }

    /** Lines 81-105 as the source runs them, with the environment and the
        existing files given as maps. */
    static method Resolve(a: LegacyArgs, env: Environment, defaultRc: string,
                          files: map<string, seq<string>>) returns (r: Result<Api.Resolved>)
      ensures r == ResolveLegacy(a, env, defaultRc, files)
    {
      var url := a.url;
      var key := a.key;
      var verify := a.verify;
      if url.None? {
        url := env.url;
      }
      if key.None? {
        key := env.key;
      }
      var dotrc := Api.RcPath(env.rc, defaultRc);
      if url.None? || key.None? {
        if dotrc in files {
          var config := ReadConfig(files[dotrc]);
          if key.None? {
            key := ConfigGet(config, "key");
          }
          if url.None? {
            url := ConfigGet(config, "url");
          }
          if verify.None? {
            var n := Api.VerifyNumber(config);
            if n.Err? {
              return Err(n.failure);
            }
            verify := Some(n.value != 0);
          }
        }
      }
      if url.None? || key.None? {
        return Err(MissingConfig(dotrc));
      }
      if verify.None? {
        verify := Some(true);
      }
      r := Ok(Api.Resolved(url.value, key.value, verify.value));
    }

    /** `LegacyClient(...)` (lines 22-148): keep the arguments, settle the
        URL, the key and `verify`, record the settings and log them at debug
        level. A failure raises before anything is logged. */
    static method Create(a: LegacyArgs, env: Environment, defaultRc: string,
                         files: map<string, seq<string>>)
      returns (r: Result<LegacyClient>, log: seq<Delivered<SettingsDump>>)
      ensures r.Ok? <==> ResolveLegacy(a, env, defaultRc, files).Ok?
      ensures r.Err? ==> r.failure == ResolveLegacy(a, env, defaultRc, files).failure && log == []
      ensures r.Ok? ==>
        var s := ResolveLegacy(a, env, defaultRc, files).value;
        var c := r.value;
        && fresh(c) && c.args == ArgList(a) && c.lastState.None?
        && c.url == s.url && c.key == s.key && c.verify == s.verify
        && c.quiet == a.quiet && c.progress == (a.progress && !a.quiet)
        && c.timeout == a.timeout && c.sleepMax == a.sleepMax && c.retryMax == a.retryMax
        && c.fullStack == a.fullStack && c.delete == a.delete && c.waitUntilComplete == a.waitUntilComplete
        && c.infoCallback == a.infoCallback && c.warningCallback == a.warningCallback
        && c.errorCallback == a.errorCallback && c.debugCallback == a.debugCallback
        && c.session == a.session && c.metadata == a.metadata && c.forget == a.forget
        && log == [Dispatch(Callbacks(a.infoCallback, a.warningCallback, a.errorCallback, a.debugCallback),
                            Debug,
                            SettingsDump(s.url, s.key, a.quiet, s.verify, a.timeout, a.progress && !a.quiet,
                                         a.sleepMax, a.retryMax, a.fullStack, a.delete, a.metadata, a.forget))]
    {
      var resolved := Resolve(a, env, defaultRc, files);
      if resolved.Err? {
        return Err(resolved.failure), [];
      }
      var c := new LegacyClient(a, resolved.value);
      r := Ok(c);
      log := [c.Emit(Debug, c.Dump())];
    }

    /** The settings the constructor logs. */
    function Dump(): SettingsDump
    {
      SettingsDump(url, key, quiet, verify, timeout, progress, sleepMax, retryMax, fullStack,
                   delete, metadata, forget)
    }

    /** The callback `info`, `warning`, `error` or `debug` looks for. */
    function CallbackFor(level: Level): Option<CallbackId>
    {
      match level
      case Info => infoCallback
      case Warning => warningCallback
      case Error => errorCallback
      case Debug => debugCallback
    }

    /** `self.info(...)`, `self.warning(...)`, `self.error(...)` and
        `self.debug(...)` (lines 169-191): the call goes, unchanged, to the
        callback given for its level, and to the logger only when there is
        none. */
    function Emit<M>(level: Level, payload: M): (d: Delivered<M>)
      ensures d.level == level && d.payload == payload
      ensures d.sink == Logger <==> CallbackFor(level).None?
      ensures d.sink.Callback? ==> CallbackFor(level) == Some(d.sink.id)
    {
      Dispatch(Callbacks(infoCallback, warningCallback, errorCallback, debugCallback), level, payload)
    }
  }
}
