/** The `info`/`warning`/`error`/`debug` methods shared by both clients
    (cdsapi/api.py:236-258, cdsapi/legacy_client.py:169-191): each forwards its
    arguments to the callback given for that level, or to the `cdsapi` logger
    when there is none. */
module Logging {
  import opened Outcomes

  datatype Level = Debug | Info | Warning | Error

  /** A caller-supplied callback, known here only by its identity. */
  type CallbackId = nat

  datatype Callbacks = Callbacks(
    info: Option<CallbackId>,
    warning: Option<CallbackId>,
    error: Option<CallbackId>,
    debug: Option<CallbackId>)
  {
    function For(level: Level): Option<CallbackId>
    {
      match level
      case Debug => debug
      case Info => info
      case Warning => warning
      case Error => error
    }
  }

  const NO_CALLBACKS := Callbacks(None, None, None, None)

  /** Where one call's arguments went. */
  datatype Sink = Callback(id: CallbackId) | Logger

  datatype Delivered<M> = Delivered(level: Level, sink: Sink, payload: M)

  /** One call at `level` reaches exactly one sink, with its arguments unchanged:
      the level's callback when one is set, the logger otherwise. */
  function Dispatch<M>(callbacks: Callbacks, level: Level, payload: M): (d: Delivered<M>)
    ensures d.level == level && d.payload == payload
    ensures d.sink == Logger <==> callbacks.For(level).None?
    ensures d.sink.Callback? ==> callbacks.For(level) == Some(d.sink.id)
  {
    match callbacks.For(level)
    case Some(id) => Delivered(level, Callback(id), payload)
    case None => Delivered(level, Logger, payload)
  }
}
