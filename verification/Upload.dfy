/** The chunked upload of internal/core/service/media.go: one pooled buffer is overwritten by
    every read and handed to the stream after each. */
module Upload {
  import opened Options

  type byte = bv8

  const SEND_BUFFER_SIZE := 32 * 1024

  // ---- The reader ----

  datatype ReadError = NoError | Eof | ReadFailed

  /** One answer of the reader: some bytes, perhaps none, and an error, perhaps together. */
  datatype Answer = Answer(data: seq<byte>, error: ReadError)

  /** The bytes a reader delivers before it ends. A reader out of answers is at its end. */
  function Content(script: seq<Answer>): seq<byte> {
    if script == [] then []
    else if script[0].error != NoError then script[0].data
    else script[0].data + Content(script[1..])
  }

  /** How the reader ends. */
  function Ending(script: seq<Answer>): ReadError {
    if script == [] then Eof
    else if script[0].error != NoError then script[0].error
    else Ending(script[1..])
  }

  class Reader {
    var script: seq<Answer>

    constructor (script: seq<Answer>)
      ensures this.script == script
    {
      this.script := script;
    }

    /** Reads at most `buf.Length` bytes into the front of `buf`. An answer longer than the
        buffer is delivered in parts, its error with the last. */
    method Read(buf: array<byte>) returns (n: nat, error: ReadError)
      requires buf.Length > 0
      modifies this, buf
      ensures n <= buf.Length
      ensures error == NoError ==>
                Content(old(script)) == buf[..n] + Content(script) && Ending(old(script)) == Ending(script)
      ensures error != NoError ==> Content(old(script)) == buf[..n] && Ending(old(script)) == error
      ensures old(script) != [] && error == NoError ==> Remaining(script) < Remaining(old(script))
      ensures old(script) == [] ==> error == Eof
    {
      if script == [] {
        return 0, Eof;
      }
      var data := script[0].data;
      n := if |data| <= buf.Length then |data| else buf.Length;
      forall i | 0 <= i < n {
        buf[i] := data[i];
      }
      assert buf[..n] == data[..n];
      if n < |data| {
        error := NoError;
        assert data == data[..n] + data[n..];
        script := script[0 := Answer(data[n..], script[0].error)];
        assert script[1..] == old(script)[1..];
      } else {
        error := script[0].error;
        script := script[1..];
      }
    }
  }

  /** Answers and bytes left: every read uses up some. */
  function Remaining(script: seq<Answer>): nat {
    if script == [] then 0 else 1 + |script[0].data| + Remaining(script[1..])
  }

  // ---- The stream ----

  datatype Metadata = Metadata(domain: int, name: string, mimeType: string, uuid: string)

  datatype Message = Meta(metadata: Metadata) | Chunk(bytes: seq<byte>)

  /** The storage stream. It copies what it is sent; the send numbered `breaksAt` fails. */
  class Stream {
    var sent: seq<Message>
    const breaksAt: Option<nat>

    constructor (breaksAt: Option<nat>)
      ensures sent == [] && this.breaksAt == breaksAt
    {
      sent := [];
      this.breaksAt := breaksAt;
    }

    method Send(m: Message) returns (ok: bool)
      modifies this
      ensures ok == (breaksAt != Some(|old(sent)|))
      ensures sent == if ok then old(sent) + [m] else old(sent)
    {
      ok := breaksAt != Some(|sent|);
      if ok {
        sent := sent + [m];
      }
    }
  }

  /** Chunks only, none empty and none longer than the buffer. */
  predicate AllChunks(messages: seq<Message>) {
    forall i :: 0 <= i < |messages| ==> messages[i].Chunk? && 0 < |messages[i].bytes| <= SEND_BUFFER_SIZE
  }

  /** The bytes of the chunks, in order. */
  function Bytes(messages: seq<Message>): seq<byte>
    requires AllChunks(messages)
  {
    if messages == [] then []
    else Bytes(messages[..|messages| - 1]) + messages[|messages| - 1].bytes
  }

  lemma {:induction false} BytesAppend(messages: seq<Message>, bytes: seq<byte>)
    requires AllChunks(messages) && 0 < |bytes| <= SEND_BUFFER_SIZE
    ensures AllChunks(messages + [Chunk(bytes)]) && Bytes(messages + [Chunk(bytes)]) == Bytes(messages) + bytes
  {
    assert (messages + [Chunk(bytes)])[..|messages|] == messages;
  }

  /** The chunks, and one more for `bytes` unless there are none. */
  function Appended(messages: seq<Message>, bytes: seq<byte>): seq<Message> {
    if bytes == [] then messages else messages + [Chunk(bytes)]
  }

  lemma {:induction false} BytesAppended(messages: seq<Message>, bytes: seq<byte>)
    requires AllChunks(messages) && |bytes| <= SEND_BUFFER_SIZE
    ensures AllChunks(Appended(messages, bytes)) && Bytes(Appended(messages, bytes)) == Bytes(messages) + bytes
  {
    if bytes != [] {
      BytesAppend(messages, bytes);
    }
  }

  lemma {:induction false} BytesMore(messages: seq<Message>, data: seq<byte>, rest: seq<byte>, content: seq<byte>)
    requires AllChunks(messages) && |data| <= SEND_BUFFER_SIZE && Bytes(messages) + (data + rest) == content
    ensures var more := Appended(messages, data);
      && AllChunks(more) && Bytes(more) + rest == content
      && |more| == |messages| + if data == [] then 0 else 1
  {
    BytesAppended(messages, data);
    Regroup(Bytes(messages), data, rest);
  }

  lemma {:induction false} Regroup(a: seq<byte>, b: seq<byte>, c: seq<byte>)
    ensures a + b + c == a + (b + c)
  {
  }

  // ---- The service ----

  datatype Failure = NilBody | OpenFailed | SendFailed | Canceled | ReaderFailed | CloseFailed

  /** The part of a stream's life that an upload sees: how many messages were sent before it,
      which send is to break, and which turn finds the context done. */
  datatype Setting = Setting(before: nat, breaksAt: Option<nat>, cancelAt: Option<nat>)

  /** After `turns` turns that went well: what was sent and what is still to come are the content,
      neither cancellation nor a breaking send was met. */
  ghost predicate Streaming(w: Setting, chunks: seq<Message>, turns: nat, rest: seq<byte>, content: seq<byte>) {
    && AllChunks(chunks) && Bytes(chunks) + rest == content
    && |chunks| <= turns && (w.cancelAt.Some? ==> turns <= w.cancelAt.value)
    && (w.breaksAt.Some? && w.before <= w.breaksAt.value ==> w.before + |chunks| <= w.breaksAt.value)
  }

  /** How the streaming of `content` ends, after `turns` turns that read. */
  ghost predicate Streamed(w: Setting, chunks: seq<Message>, turns: nat, content: seq<byte>, ending: ReadError,
                           failure: Option<Failure>)
  {
    && AllChunks(chunks) && Bytes(chunks) <= content
    && (failure.None? || failure == Some(ReaderFailed) ==> Bytes(chunks) == content)
    && (failure.None? ==> ending == Eof)
    && (failure == Some(ReaderFailed) ==> ending == ReadFailed)
    && failure in {None, Some(ReaderFailed), Some(SendFailed), Some(Canceled)}
    // cancellation is noticed before the next read, and at once when it was there before
    && |chunks| <= turns && (w.cancelAt.Some? ==> turns <= w.cancelAt.value)
    && (failure == Some(Canceled) ==> w.cancelAt == Some(turns))
    && (failure != Some(Canceled) ==> turns > 0)
    && (w.cancelAt == Some(0) ==> failure == Some(Canceled) && chunks == [])
    // a send that breaks ends it, and nothing that was sent was to break
    && (failure == Some(SendFailed) ==> w.breaksAt == Some(w.before + |chunks|))
    && (w.breaksAt.Some? && w.before <= w.breaksAt.value ==> w.before + |chunks| <= w.breaksAt.value)
  }

  /** One more turn, with one more chunk unless nothing was read. */
  lemma {:induction false} NextTurn(w: Setting, chunks: seq<Message>, turns: nat, data: seq<byte>, rest: seq<byte>,
                                    content: seq<byte>)
    requires Streaming(w, chunks, turns, data + rest, content) && w.cancelAt != Some(turns)
    requires |data| <= SEND_BUFFER_SIZE && (data != [] ==> w.breaksAt != Some(w.before + |chunks|))
    ensures Streaming(w, Appended(chunks, data), turns + 1, rest, content)
  {
    BytesMore(chunks, data, rest, content);
  }

  lemma {:induction false} StopsCanceled(w: Setting, chunks: seq<Message>, turns: nat, rest: seq<byte>,
                                         content: seq<byte>, ending: ReadError)
    requires Streaming(w, chunks, turns, rest, content) && w.cancelAt == Some(turns)
    ensures Streamed(w, chunks, turns, content, ending, Some(Canceled))
  {
  }

  lemma {:induction false} StopsBroken(w: Setting, chunks: seq<Message>, turns: nat, rest: seq<byte>,
                                       content: seq<byte>, ending: ReadError)
    requires Streaming(w, chunks, turns, rest, content) && w.cancelAt != Some(turns)
    requires w.breaksAt == Some(w.before + |chunks|)
    ensures Streamed(w, chunks, turns + 1, content, ending, Some(SendFailed))
  {
  }

  lemma {:induction false} StopsAtEnd(w: Setting, chunks: seq<Message>, turns: nat, data: seq<byte>,
                                      content: seq<byte>, ending: ReadError)
    requires Streaming(w, chunks, turns, data, content) && w.cancelAt != Some(turns) && ending != NoError
    requires |data| <= SEND_BUFFER_SIZE && (data != [] ==> w.breaksAt != Some(w.before + |chunks|))
    ensures Streamed(w, Appended(chunks, data), turns + 1, content, ending,
                     if ending == Eof then None else Some(ReaderFailed))
  {
    assert data + [] == data;
    NextTurn(w, chunks, turns, data, [], content);
    assert Bytes(Appended(chunks, data)) + [] == Bytes(Appended(chunks, data));
  }

  lemma {:induction false} AppendedAfter(sent: seq<Message>, chunks: seq<Message>, data: seq<byte>)
    ensures Appended(sent + chunks, data) == sent + Appended(chunks, data)
  {
  }

  /** Sends the reader's bytes. `cancelAt` is the turn of the loop that finds the context done;
      `turns` counts the turns before, each of which reads. */
  method StreamData(cancelAt: Option<nat>, upstream: Stream, reader: Reader, buf: array<byte>)
      returns (failure: Option<Failure>, ghost chunks: seq<Message>, ghost turns: nat)
    requires buf.Length == SEND_BUFFER_SIZE
    modifies upstream, reader, buf
    ensures upstream.sent == old(upstream.sent) + chunks
    ensures Streamed(Setting(|old(upstream.sent)|, upstream.breaksAt, cancelAt), chunks, turns,
                     Content(old(reader.script)), Ending(old(reader.script)), failure)
  {
    ghost var w := Setting(|upstream.sent|, upstream.breaksAt, cancelAt);
    ghost var sent0, content, ending := upstream.sent, Content(reader.script), Ending(reader.script);
    chunks, turns := [], 0;
    var turn := 0;
    while true
      invariant upstream.sent == sent0 + chunks && turns == turn
      invariant Streaming(w, chunks, turns, Content(reader.script), content) && ending == Ending(reader.script)
      decreases Remaining(reader.script)
    {
      if cancelAt == Some(turn) {
        StopsCanceled(w, chunks, turns, Content(reader.script), content, ending);
        return Some(Canceled), chunks, turns;
      }
      ghost var before := Content(reader.script);
      turn := turn + 1;
      var error, ok;
      ghost var data;
      error, ok, data := ReadAndSend(upstream, reader, buf);
      if !ok {
        StopsBroken(w, chunks, turns, before, content, ending);
        return Some(SendFailed), chunks, turns + 1;
      }
      AppendedAfter(sent0, chunks, data);
      if error != NoError {
        StopsAtEnd(w, chunks, turns, data, content, ending);
        return (if error == Eof then None else Some(ReaderFailed)), Appended(chunks, data), turns + 1;
      }
      NextTurn(w, chunks, turns, data, Content(reader.script), content);
      chunks, turns := Appended(chunks, data), turns + 1;
    }
  }

  /** The rest of one turn: reads `data`, and sends it unless it is empty. */
  method ReadAndSend(upstream: Stream, reader: Reader, buf: array<byte>)
      returns (error: ReadError, ok: bool, ghost data: seq<byte>)
    requires buf.Length == SEND_BUFFER_SIZE
    modifies upstream, reader, buf
    ensures |data| <= SEND_BUFFER_SIZE
    ensures Content(old(reader.script)) == if error == NoError then data + Content(reader.script) else data
    ensures Ending(old(reader.script)) == if error == NoError then Ending(reader.script) else error
    ensures old(reader.script) != [] && error == NoError ==> Remaining(reader.script) < Remaining(old(reader.script))
    ensures old(reader.script) == [] ==> error == Eof
    ensures ok <==> data == [] || upstream.breaksAt != Some(|old(upstream.sent)|)
    ensures upstream.sent == if ok then Appended(old(upstream.sent), data) else old(upstream.sent)
  {
    var n;
    n, error := reader.Read(buf);
    data, ok := buf[..n], true;
    if n > 0 {
      ok := upstream.Send(Chunk(buf[..n]));
    }
  }

  class MediaService {
    var pool: seq<array<byte>>     // the idle buffers

    predicate Valid()
      reads this
    {
      forall i :: 0 <= i < |pool| ==> pool[i].Length == SEND_BUFFER_SIZE
    }

    constructor ()
      ensures Valid() && pool == []
    {
      pool := [];
    }

    method Get() returns (buf: array<byte>)
      requires Valid()
      modifies this
      ensures Valid() && buf.Length == 32768
      ensures old(pool) != [] ==> pool + [buf] == old(pool)
      ensures old(pool) == [] ==> pool == [] && fresh(buf)
    {
      if pool == [] {
        buf := new byte[SEND_BUFFER_SIZE](_ => 0);
      } else {
        buf := pool[|pool| - 1];
        pool := pool[..|pool| - 1];
      }
    }

    method Put(buf: array<byte>)
      requires Valid() && buf.Length == SEND_BUFFER_SIZE
      modifies this
      ensures Valid() && pool == old(pool) + [buf]
    {
      pool := pool + [buf];
    }

    /** Uploads `body`. `upstream` is None when the stream does not open, `closes` whether the
        storage confirms the upload. */
    method UploadFile(metadata: Metadata, body: Reader?, upstream: Stream?, cancelAt: Option<nat>, closes: bool)
        returns (failure: Option<Failure>, ghost turns: nat)
      requires Valid()
      requires upstream != null ==> upstream.sent == []
      modifies this, body, upstream, pool
      ensures Valid()
      // the buffer is back in the pool, whatever happened
      ensures body == null ==> pool == old(pool) && failure == Some(NilBody)
      ensures body != null && old(pool) != [] ==> pool == old(pool)
      ensures body != null && old(pool) == [] ==> |pool| == 1 && fresh(pool[0])
      // the protocol
      ensures body != null && upstream != null && upstream.sent != [] ==>
                && upstream.sent[0] == Meta(metadata) && AllChunks(upstream.sent[1..])
                && Bytes(upstream.sent[1..]) <= Content(old(body.script))
      // conservation
      ensures failure.None? ==>
                && body != null && upstream != null && closes
                && upstream.sent != [] && Bytes(upstream.sent[1..]) == Content(old(body.script))
                && Ending(old(body.script)) == Eof
      // cancellation
      ensures body != null ==> Cut(failure, cancelAt, upstream, turns)
      // success, unless there is a reason to fail
      ensures (body != null && upstream != null && closes && cancelAt.None? && upstream.breaksAt.None?
               && Ending(old(body.script)) == Eof) ==> failure.None?
    {
      if body == null {
        return Some(NilBody), 0;
      }
      var buf := Get();
      assert old(pool) != [] ==> buf == old(pool)[|old(pool)| - 1];
      failure, turns := Transfer(metadata, body, upstream, cancelAt, closes, buf);
      Put(buf);
    }

    /** The upload proper, with a buffer from the pool. */
    method Transfer(metadata: Metadata, body: Reader, upstream: Stream?, cancelAt: Option<nat>, closes: bool,
                    buf: array<byte>)
        returns (failure: Option<Failure>, ghost turns: nat)
      requires buf.Length == SEND_BUFFER_SIZE
      requires upstream != null ==> upstream.sent == []
      modifies body, upstream, buf
      ensures upstream != null && upstream.sent != [] ==>
                && upstream.sent[0] == Meta(metadata) && AllChunks(upstream.sent[1..])
                && Bytes(upstream.sent[1..]) <= Content(old(body.script))
      ensures failure.None? ==>
                && upstream != null && closes
                && upstream.sent != [] && Bytes(upstream.sent[1..]) == Content(old(body.script))
                && Ending(old(body.script)) == Eof
      ensures Cut(failure, cancelAt, upstream, turns)
      ensures failure == Some(CloseFailed) ==> !closes && Ending(old(body.script)) == Eof
      ensures failure == Some(ReaderFailed) ==> Ending(old(body.script)) == ReadFailed
      ensures failure != Some(NilBody)
      ensures (upstream != null && closes && cancelAt.None? && upstream.breaksAt.None?
               && Ending(old(body.script)) == Eof) ==> failure.None?
    {
      if upstream == null {
        return Some(OpenFailed), 0;
      }
      var ok := upstream.Send(Meta(metadata));
      if !ok {
        return Some(SendFailed), 0;
      }
      ghost var chunks;
      failure, chunks, turns := StreamData(cancelAt, upstream, body, buf);
      assert upstream.sent[1..] == chunks;
      if failure.Some? {
        return;
      }
      if !closes {
        return Some(CloseFailed), turns;
      }
    }
  }

  /** How an upload ends early, and that it does: it never reads on once it is cancelled, and a
      stream that does not open or breaks fails it. */
  ghost predicate Cut(failure: Option<Failure>, cancelAt: Option<nat>, upstream: Stream?, turns: nat)
    reads upstream
  {
    && (failure == Some(OpenFailed) <==> upstream == null)
    && (cancelAt.Some? ==> turns <= cancelAt.value)
    && (failure == Some(Canceled) ==> cancelAt == Some(turns))
    && (upstream != null && upstream.breaksAt != Some(0) ==>
          && upstream.sent != [] && |upstream.sent| - 1 <= turns
          && (cancelAt == Some(0) ==> failure == Some(Canceled) && |upstream.sent| == 1))
    && (upstream != null && failure == Some(SendFailed) ==> upstream.breaksAt == Some(|upstream.sent|))
    && (upstream != null && upstream.breaksAt.Some? ==> |upstream.sent| <= upstream.breaksAt.value)
    && (upstream != null && upstream.breaksAt == Some(0) ==> failure == Some(SendFailed))
  }
}
