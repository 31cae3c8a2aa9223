/**
 * The decode-and-accumulate loop shared by every streaming adapter: each
 * event is decoded into "no text", a text increment, or an exception; each
 * increment is handed to the callback and appended to the accumulator, in
 * arrival order, and the first exception ends the loop.
 */
module Streaming {
  import opened Common

  /** What one decoded event contributes. */
  type Decoder<!E> = E -> Result<Option<string>>

  /**
   * What a stream loop leaves behind: the callback's arguments in order, and
   * the exception that ended the loop early, if any.
   */
  datatype Drained = Drained(sent: seq<string>, error: Option<Error>)

  /** The reference meaning of a stream loop over `events`. */
  function Drain<E>(decode: Decoder<E>, events: seq<E>): (d: Drained)
    ensures |d.sent| <= |events|
  {
    if events == [] then Drained([], None)
    else
      match decode(events[0])
      case Err(e) => Drained([], Some(e))
      case Ok(None) => Drain(decode, events[1..])
      case Ok(Some(t)) =>
        var rest := Drain(decode, events[1..]);
        Drained([t] + rest.sent, rest.error)
  }

  /** One more event after a run that raised nothing. */
  lemma {:induction false} DrainSnoc<E>(decode: Decoder<E>, events: seq<E>, e: E)
    requires Drain(decode, events).error.None?
    ensures Drain(decode, events + [e]) ==
              match decode(e)
              case Err(x) => Drained(Drain(decode, events).sent, Some(x))
              case Ok(None) => Drain(decode, events)
              case Ok(Some(t)) => Drained(Drain(decode, events).sent + [t], None)
  {
    if events == [] {
      assert [] + [e] == [e];
      assert [e][1..] == [];
    } else {
      assert (events + [e])[0] == events[0];
      assert (events + [e])[1..] == events[1..] + [e];
      DrainSnoc(decode, events[1..], e);
    }
  }

  /** Once an event raised, nothing after it is decoded or delivered. */
  lemma {:induction false} DrainStopsAtError<E>(decode: Decoder<E>, events: seq<E>, later: seq<E>)
    requires Drain(decode, events).error.Some?
    ensures Drain(decode, events + later) == Drain(decode, events)
  {
    assert events != [];
    assert (events + later)[0] == events[0];
    assert (events + later)[1..] == events[1..] + later;
    if decode(events[0]).Ok? {
      DrainStopsAtError(decode, events[1..], later);
    }
  }

  /**
   * An event that contributes no text can be dropped without changing what
   * the callback sees or whether the loop raised.
   */
  lemma {:induction false} DrainSkipsSilentEvent<E>(decode: Decoder<E>, before: seq<E>, e: E, after: seq<E>)
    requires decode(e) == Ok(None)
    ensures Drain(decode, before + [e] + after) == Drain(decode, before + after)
  {
    if before == [] {
      assert before + [e] + after == [e] + after;
      assert ([e] + after)[1..] == after;
      assert before + after == after;
    } else {
      assert (before + [e] + after)[0] == before[0];
      assert (before + [e] + after)[1..] == before[1..] + [e] + after;
      assert (before + after)[0] == before[0];
      assert (before + after)[1..] == before[1..] + after;
      DrainSkipsSilentEvent(decode, before[1..], e, after);
    }
  }

  /**
   * When every event decodes to text, the callback is called once per event,
   * with exactly those texts in arrival order.
   */
  lemma {:induction false} DrainAllText<E>(decode: Decoder<E>, events: seq<E>)
    requires forall k :: 0 <= k < |events| ==> decode(events[k]).Ok? && decode(events[k]).value.Some?
    ensures Drain(decode, events).error.None?
    ensures |Drain(decode, events).sent| == |events|
    ensures forall k :: 0 <= k < |events| ==> Drain(decode, events).sent[k] == decode(events[k]).value.value
  {
    if events != [] {
      assert forall k :: 0 <= k < |events| - 1 ==> events[1..][k] == events[k + 1];
      DrainAllText(decode, events[1..]);
    }
  }

  /**
   * The stream loop: `async for` over the events, each increment passed to
   * the callback (`sent`) and added to the accumulator (`acc += text`).
   */
  method DrainStream<E>(decode: Decoder<E>, events: seq<E>) returns (sent: seq<string>, acc: string, error: Option<Error>)
    ensures Drained(sent, error) == Drain(decode, events)
    ensures acc == Concat(sent)
  {
    sent, acc, error := [], "", None;
    var i := 0;
    while i < |events| && error.None?
      invariant 0 <= i <= |events|
      invariant error.None? ==> Drained(sent, error) == Drain(decode, events[..i])
      invariant error.Some? ==> Drained(sent, error) == Drain(decode, events)
      invariant acc == Concat(sent)
    {
      assert events[..i + 1] == events[..i] + [events[i]];
      DrainSnoc(decode, events[..i], events[i]);
      match decode(events[i]) {
        case Err(e) =>
          error := Some(e);
          DrainStopsAtError(decode, events[..i + 1], events[i + 1..]);
          assert events[..i + 1] + events[i + 1..] == events;
        case Ok(None) =>
        case Ok(Some(text)) =>
          ConcatAppend(sent, text);
          sent := sent + [text];
          acc := acc + text;
      }
      i := i + 1;
    }
    if error.None? {
      assert events[..i] == events;
    }
  }
}
