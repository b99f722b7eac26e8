/** Values and failures shared by every part of the model. A Python exception
    becomes a `Failure`; a function or method that can raise returns `Result`. */
module Outcomes {

  datatype Option<T> = None | Some(value: T)

  /** One licence the caller must accept: `{title, url}` of a reply's
      `context.required_terms`. */
  datatype Term = Term(title: string, url: string)

  /** The exceptions the clients raise or let escape. The first five are the
      `Exception`s the clients raise themselves, kept here by what their text
      is made of; `Protocol.ExceptionText` gives the text. */
  datatype Failure =
    | Rejected(message: string, terms: seq<Term>)  // a refused submission: the reply's message, the licences it asks for
    | Timeout                                      // 'TIMEOUT'
    | JobFailed(jobMessage: Option<string>, reason: Option<string>) // a job in state `failed`: its message and reason
    | UnknownState(state: string)                  // a state the poll loop does not know
    | MissingConfig(path: string)                  // no URL or no key, with the configuration file's path
    | HttpError(status: int)                       // `raise_for_status()` on a 4xx or 5xx response
    | NoResponse                                   // attribute access on the None that `robust` gave up with
    | InvalidJson                                  // `.json()` on a body that is not JSON
    | MissingKey(key: string)                      // `reply[key]` on a reply without that key
    | IndexOutOfRange                              // `u[i]` past the unit list in `bytes_to_string`
    | SizeMismatch(received: int, expected: int)   // the `assert total == size` after a download
    | ConnectionFailed                             // a connection error on the DELETE, which is not retried
    | NotAnInteger(text: string)                   // `int(text)` on a configured `verify` value
    | OutOfReplies                                 // the supplied poll rounds ran out while still waiting

  /** A failure that is an `Exception` raised by the client's own code. */
  predicate RaisedByClient(f: Failure)
  {
    f.Rejected? || f.Timeout? || f.JobFailed? || f.UnknownState? || f.MissingConfig?
  }

  datatype Result<T> = Ok(value: T) | Err(failure: Failure)
}
