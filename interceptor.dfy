/** What the wrapped streams put on the terminal. Every write through a
    wrapped stream clears the prompt line, forwards the payload to the real
    stream, and has the line editor redraw the prompt. */
module Interceptor {
  import opened Objects

  const Esc: char := 27 as char

  /** ERASE IN LINE with parameter 2 (ECMA-48, section 8.3.41): erase the
      whole line the cursor is on. */
  const EraseLine: string := [Esc, '[', '2', 'K']

  /** The chunk written before every payload: erase the line, then carriage return. */
  const ClearLine: string := EraseLine + "\r"

  /** One argument after the chunk: an encoding name or a callback. */
  datatype Arg = Encoding(name: string) | Function(callback: Callback)

  /** The arguments of one `write(chunk, second, third)` call on a writable
      stream, by position: `None` is an argument left out or `undefined`.
      Node reads `write(chunk, cb)` and `write(chunk, encoding, cb)` alike. */
  datatype WriteCall = WriteCall(chunk: string, second: Option<Arg>, third: Option<Arg>)

  /** A write with only a chunk, as the line clear is written. */
  function Plain(chunk: string): WriteCall {
    WriteCall(chunk, None, None)
  }

  /** What the terminal receives: a write that reached a real stream, a
      redraw of the prompt line by the line editor (`_refreshLine`), or the
      prompt itself (`prompt`). */
  datatype Event =
    | Written(stream: Obj, call: WriteCall)
    | Refreshed
    | Prompted

  /** The events of one write through the stream wrapping `writable`: the
      caller's arguments reach the real stream as they were given. */
  function WrappedWriteEvents(writable: Obj, call: WriteCall): seq<Event> {
    [Written(writable, Plain(ClearLine)), Written(writable, call), Refreshed]
  }

  /** The arguments the source's replacement `write` passes on. It is an
      arrow function of two parameters, `(buffer, cb)`, that calls
      `writable.write(buffer, cb)`: the first two arguments are passed on
      in their places and the third, the callback of
      `write(chunk, encoding, cb)`, is dropped. */
  function ForwardAsWritten(call: WriteCall): WriteCall {
    WriteCall(call.chunk, call.second, None)
  }

  /** The events of one write through the wrapper exactly as the source writes it. */
  function AsWrittenEvents(writable: Obj, call: WriteCall): seq<Event> {
    [Written(writable, Plain(ClearLine)), Written(writable, ForwardAsWritten(call)), Refreshed]
  }

  /** The wrapper as written agrees with the forwarding one exactly when the
      caller passes no third argument; a callback passed third is never
      handed to the real stream, so it is never called back. */
  lemma ForwardAsWrittenLosesCallback(writable: Obj, call: WriteCall)
    ensures (AsWrittenEvents(writable, call) == WrappedWriteEvents(writable, call)) <==> call.third.None?
    ensures ForwardAsWritten(call).chunk == call.chunk && ForwardAsWritten(call).second == call.second
    ensures ForwardAsWritten(call).third == None
  {
    if call.third.Some? {
      assert AsWrittenEvents(writable, call)[1] != WrappedWriteEvents(writable, call)[1];
    }
  }

  /** The concrete cases: `write("x", "utf8", cb)` keeps its encoding and
      loses `cb`, and so does `write("x", undefined, cb)`. */
  lemma CallbackLostAsThirdArgument()
    ensures AsWrittenEvents(Host(1), WriteCall("x", Some(Encoding("utf8")), Some(Function(7))))[1]
         == Written(Host(1), WriteCall("x", Some(Encoding("utf8")), None))
    ensures AsWrittenEvents(Host(1), WriteCall("x", None, Some(Function(7))))[1]
         == Written(Host(1), Plain("x"))
  {
  }

  /** The events of a sequence of writes through the stream wrapping `writable`. */
  function WriteAll(writable: Obj, calls: seq<WriteCall>): (r: seq<Event>)
    ensures |r| == 3 * |calls|
    decreases |calls|
  {
    if calls == [] then []
    else WriteAll(writable, calls[..|calls| - 1]) + WrappedWriteEvents(writable, calls[|calls| - 1])
  }

  /** The k-th group of three events of a trace. */
  function Frame(trace: seq<Event>, k: nat): seq<Event>
    requires 3 * k + 3 <= |trace|
  {
    trace[3 * k .. 3 * k + 3]
  }

  /** For every sequence of writes, write k produces the k-th group of three
      events: one line clear, then its chunk, encoding and callback unchanged
      on the real stream, then one redraw; payloads keep their order. */
  lemma {:induction false} WriteAllFrames(writable: Obj, calls: seq<WriteCall>)
    ensures forall k :: 0 <= k < |calls| ==>
              Frame(WriteAll(writable, calls), k) == WrappedWriteEvents(writable, calls[k])
    decreases |calls|
  {
    if calls != [] {
      var n := |calls| - 1;
      var prefix := calls[..n];
      WriteAllFrames(writable, prefix);
      var before := WriteAll(writable, prefix);
      var all := WriteAll(writable, calls);
      assert all == before + WrappedWriteEvents(writable, calls[n]);
      forall k | 0 <= k < |calls|
        ensures Frame(all, k) == WrappedWriteEvents(writable, calls[k])
      {
        if k < n {
          assert Frame(all, k) == Frame(before, k);
          assert prefix[k] == calls[k];
        } else {
          assert Frame(all, k) == all[|before|..];
        }
      }
    }
  }
}
