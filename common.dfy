/**
 * Values shared by every part of the model: optional values, the Python
 * exceptions the adapters can raise, the shape of a streamed transport
 * response, and how a Python call ends.
 */
module Common {

  datatype Option<+T> = None | Some(value: T)

  /** Failures signalled by a provider client while a request is issued or streamed. */
  datatype Failure =
    | ClientError(message: string)   // botocore's ClientError (access denied, throttling, ...)
    | OtherError(message: string)    // any other exception out of the client library

  /** The exceptions the adapters raise or let through. */
  datatype Error =
    | InvalidModel(name: string)     // ValueError from the `Llm(...)` lookup
    | IndexError                     // `list[i]` out of range
    | KeyError                       // `dict[key]` with the key absent
    | Transport(failure: Failure)    // a client failure propagated to the caller

  datatype Result<+T> = Ok(value: T) | Err(error: Error)

  /** How a provider stream ends once its events are exhausted. */
  datatype End = Completed | Failed(failure: Failure)

  /** A provider's streamed response: the events in arrival order, then how the stream ended. */
  datatype Stream<+E> = Stream(events: seq<E>, end: End)

  /**
   * How a Python call ends: it returns a value, it falls off the end of a
   * `try` and so returns `None`, or it raises.
   */
  datatype Outcome<+T> = Returned(value: T) | ReturnedNone | Raised(error: Error)

  /** `"".join(parts)`: the in-order concatenation of text increments. */
  function Concat(parts: seq<string>): (s: string)
    ensures parts == [] ==> s == ""
  {
    if parts == [] then "" else parts[0] + Concat(parts[1..])
  }

  /** Appending one increment to an accumulator `acc += text` keeps it equal to the concatenation. */
  lemma {:induction false} ConcatAppend(parts: seq<string>, last: string)
    ensures Concat(parts + [last]) == Concat(parts) + last
  {
    if parts == [] {
      assert [] + [last] == [last];
      assert Concat([last]) == last + Concat([]);
    } else {
      assert (parts + [last])[0] == parts[0];
      assert (parts + [last])[1..] == parts[1..] + [last];
      ConcatAppend(parts[1..], last);
    }
  }

  /** Concatenation distributes over joining two runs of increments. */
  lemma {:induction false} ConcatJoin(a: seq<string>, b: seq<string>)
    ensures Concat(a + b) == Concat(a) + Concat(b)
  {
    if a == [] {
      assert a + b == b;
    } else {
      assert (a + b)[0] == a[0];
      assert (a + b)[1..] == a[1..] + b;
      ConcatJoin(a[1..], b);
    }
  }
}
