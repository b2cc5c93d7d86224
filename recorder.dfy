/**
 * The status interceptor: a response writer that remembers the last status
 * code set on it and forwards every code, unchanged, to the writer it wraps.
 */
module Recorder {

  /** Status assumed when the handler never sets one. */
  const DefaultStatus: int := 200

  /**
   * The wrapped response writer, reduced to the status codes it has been
   * given, in the order they arrived.
   */
  class ResponseSink {
    var headers: seq<int>

    constructor ()
      ensures headers == []
    {
      headers := [];
    }

    method WriteHeader(code: int)
      modifies this
      ensures headers == old(headers) + [code]
    {
      headers := headers + [code];
    }
  }

  /** The recorded status after overwriting `init` with each of `codes` in turn. */
  function Recorded(init: int, codes: seq<int>): int
    decreases |codes|
  {
    if codes == [] then init else Recorded(codes[0], codes[1..])
  }

  /** Default, then last write wins. */
  lemma {:induction false} LastWriteWins(init: int, codes: seq<int>)
    ensures codes == [] ==> Recorded(init, codes) == init
    ensures codes != [] ==> Recorded(init, codes) == codes[|codes| - 1]
    decreases |codes|
  {
    if codes != [] {
      LastWriteWins(codes[0], codes[1..]);
    }
  }

  /** The recorded status only ever takes the default or a value that was written. */
  lemma RecordedIsWritten(init: int, codes: seq<int>)
    ensures Recorded(init, codes) == init || Recorded(init, codes) in codes
  {
    LastWriteWins(init, codes);
  }

  class RespRecorder {
    const inner: ResponseSink
    var status: int

    constructor (w: ResponseSink)
      ensures inner == w && status == DefaultStatus
    {
      inner := w;
      status := DefaultStatus;
    }

    /** Records `code` and forwards exactly `code` to the wrapped writer. */
    method WriteHeader(code: int)
      modifies this`status, inner
      ensures status == code
      ensures inner.headers == old(inner.headers) + [code]
    {
      status := code;
      inner.WriteHeader(code);
    }
  }
}
