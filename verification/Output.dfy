/** Exec output: the per-stream cap of `_append_capped`, the collecting loops of `api/docker_client.py`, and
    the streaming loop of `api/exec.py`. */
module Output {
  newtype Byte = b: int | 0 <= b < 256

  type Bytes = seq<Byte>

  const OUTPUT_CAP_BYTES: nat := 8 * 1024 * 1024
  const TIMEOUT_EXIT_CODE := 124

  datatype Stream = Stdout | Stderr

  /** One piece of output as it is demultiplexed. */
  datatype Chunk = Chunk(stream: Stream, data: Bytes)

  // ----- the specification: the first CAP bytes of each stream -----

  /** Everything written to one stream, in order. */
  function Concat(cs: seq<Chunk>, k: Stream): Bytes
    decreases |cs|
  {
    if cs == [] then []
    else Concat(cs[..|cs| - 1], k) + if cs[|cs| - 1].stream == k then cs[|cs| - 1].data else []
  }

  function FirstBytes(data: Bytes): Bytes {
    if |data| <= OUTPUT_CAP_BYTES then data else data[..OUTPUT_CAP_BYTES]
  }

  predicate Overflows(cs: seq<Chunk>, k: Stream) {
    |Concat(cs, k)| > OUTPUT_CAP_BYTES
  }

  predicate NoneEmpty(cs: seq<Chunk>) {
    forall i :: 0 <= i < |cs| ==> cs[i].data != []
  }

  // ----- the capped buffers -----

  class Capture {
    var stdout: Bytes
    var stderr: Bytes
    var truncated: set<Stream>

    constructor ()
      ensures stdout == [] && stderr == [] && truncated == {}
    {
      stdout, stderr, truncated := [], [], {};
    }

    function Buffer(k: Stream): Bytes
      reads this
    {
      if k == Stdout then stdout else stderr
    }

    /** The buffers hold what the specification says of the chunks `cs`. */
    ghost predicate Holds(cs: seq<Chunk>)
      reads this
    {
      forall k: Stream :: Buffer(k) == FirstBytes(Concat(cs, k)) && (k in truncated <==> Overflows(cs, k))
    }

    /** Append up to the cap; from the byte that does not fit on, the stream is truncated. */
    method AppendCapped(c: Chunk)
      modifies this
      ensures forall k: Stream :: k != c.stream ==>
                                    Buffer(k) == old(Buffer(k)) && (k in truncated <==> k in old(truncated))
      ensures var room := OUTPUT_CAP_BYTES - |old(Buffer(c.stream))|;
              if c.stream in old(truncated) then Buffer(c.stream) == old(Buffer(c.stream)) && c.stream in truncated
              else if room <= 0 then Buffer(c.stream) == old(Buffer(c.stream)) && c.stream in truncated
              else if |c.data| <= room then
                Buffer(c.stream) == old(Buffer(c.stream)) + c.data && c.stream !in truncated
              else Buffer(c.stream) == old(Buffer(c.stream)) + c.data[..room] && c.stream in truncated
    {
      if c.stream in truncated {
        return;
      }
      var remaining := OUTPUT_CAP_BYTES - |Buffer(c.stream)|;
      if remaining <= 0 {
        truncated := truncated + {c.stream};
        return;
      }
      var kept := if |c.data| <= remaining then c.data else c.data[..remaining];
      if c.stream == Stdout {
        stdout := stdout + kept;
      } else {
        stderr := stderr + kept;
      }
      if |c.data| > remaining {
        truncated := truncated + {c.stream};
      }
    }

    /** One non-empty chunk more. */
    method Take(ghost cs: seq<Chunk>, c: Chunk)
      requires Holds(cs) && c.data != []
      modifies this
      ensures Holds(cs + [c])
    {
      ConcatAppend(cs, c);
      AppendCapped(c);
    }
  }

  lemma {:induction false} ConcatAppend(cs: seq<Chunk>, c: Chunk)
    ensures forall k :: Concat(cs + [c], k) == Concat(cs, k) + if c.stream == k then c.data else []
  {
    assert (cs + [c])[..|cs|] == cs;
  }

  // ----- collecting: the synchronous exec -----

  /** Docker's demultiplexed stream: each frame may carry a piece of either stream, of both, or of neither. */
  datatype Frame = Frame(stdout: Bytes, stderr: Bytes)

  /** An empty piece is passed over. */
  function AndPiece(cs: seq<Chunk>, k: Stream, data: Bytes): seq<Chunk> {
    if data == [] then cs else cs + [Chunk(k, data)]
  }

  /** The non-empty pieces of the frames, in order. */
  function ChunksOf(fs: seq<Frame>): (cs: seq<Chunk>)
    ensures NoneEmpty(cs)
    decreases |fs|
  {
    if fs == [] then []
    else
      var last := fs[|fs| - 1];
      AndPiece(AndPiece(ChunksOf(fs[..|fs| - 1]), Stdout, last.stdout), Stderr, last.stderr)
  }

  datatype ExecOutput = ExecOutput(stdout: Bytes, stderr: Bytes, exitCode: int, truncatedStreams: seq<Stream>)

  /** The names in alphabetical order. */
  function Sorted(streams: set<Stream>): seq<Stream> {
    (if Stderr in streams then [Stderr] else []) + (if Stdout in streams then [Stdout] else [])
  }

  /** The specified output of a run that wrote `cs`. */
  function Expected(cs: seq<Chunk>, exitCode: int): ExecOutput {
    ExecOutput(FirstBytes(Concat(cs, Stdout)), FirstBytes(Concat(cs, Stderr)), exitCode,
               Sorted(set k: Stream | Overflows(cs, k)))
  }

  method ExecInContainer(frames: seq<Frame>, exitCode: int) returns (out: ExecOutput)
    ensures out == Expected(ChunksOf(frames), exitCode)
  {
    var capture := new Capture();
    for i := 0 to |frames|
      invariant fresh(capture)
      invariant capture.Holds(ChunksOf(frames[..i]))
    {
      ghost var before := ChunksOf(frames[..i]);
      assert frames[..i + 1][..i] == frames[..i];
      if frames[i].stdout != [] {
        capture.Take(before, Chunk(Stdout, frames[i].stdout));
        before := before + [Chunk(Stdout, frames[i].stdout)];
      }
      if frames[i].stderr != [] {
        capture.Take(before, Chunk(Stderr, frames[i].stderr));
        before := before + [Chunk(Stderr, frames[i].stderr)];
      }
      assert before == ChunksOf(frames[..i + 1]);
    }
    assert frames[..|frames|] == frames;
    ghost var cs := ChunksOf(frames);
    assert capture.truncated == set k: Stream | Overflows(cs, k);
    out := ExecOutput(capture.stdout, capture.stderr, exitCode, Sorted(capture.truncated));
  }

  // ----- streaming -----

  datatype SourceEvent = Piece(chunk: Chunk) | Exit(code: int) | Failed(message: Bytes)

  datatype SseEvent =
    | ChunkSent(stream: Stream, data: Bytes)
    | TruncatedSent(stream: Stream)
    | ErrorSent(message: Bytes)
    | ResultSent(output: ExecOutput, timedOut: bool)

  function AsPieces(cs: seq<Chunk>): seq<SourceEvent>
    decreases |cs|
  {
    if cs == [] then [] else AsPieces(cs[..|cs| - 1]) + [Piece(cs[|cs| - 1])]
  }

  /** The events of a live exec: its non-empty pieces, then the exit code. */
  method ExecStreamInContainer(frames: seq<Frame>, exitCode: int) returns (events: seq<SourceEvent>)
    ensures events == AsPieces(ChunksOf(frames)) + [Exit(exitCode)]
  {
    events := [];
    for i := 0 to |frames|
      invariant events == AsPieces(ChunksOf(frames[..i]))
    {
      ghost var before := ChunksOf(frames[..i]);
      assert frames[..i + 1][..i] == frames[..i];
      assert ChunksOf(frames[..i + 1])
          == AndPiece(AndPiece(before, Stdout, frames[i].stdout), Stderr, frames[i].stderr);
      hide AsPieces, ChunksOf;
      if frames[i].stdout != [] {
        events := events + [Piece(Chunk(Stdout, frames[i].stdout))];
        before := before + [Chunk(Stdout, frames[i].stdout)];
      }
      if frames[i].stderr != [] {
        events := events + [Piece(Chunk(Stderr, frames[i].stderr))];
        before := before + [Chunk(Stderr, frames[i].stderr)];
      }
      assert before == ChunksOf(frames[..i + 1]);
    }
    assert frames[..|frames|] == frames;
    events := events + [Exit(exitCode)];
  }

  /** The pieces among the events. */
  function PiecesIn(es: seq<SourceEvent>): seq<Chunk>
    decreases |es|
  {
    if es == [] then []
    else PiecesIn(es[..|es| - 1]) + if es[|es| - 1].Piece? then [es[|es| - 1].chunk] else []
  }

  /** The last exit code reported, 0 if none. */
  function ExitIn(es: seq<SourceEvent>): int
    decreases |es|
  {
    if es == [] then 0 else if es[|es| - 1].Exit? then es[|es| - 1].code else ExitIn(es[..|es| - 1])
  }

  /** What the client is sent for one event after the pieces `before`: a piece of a stream that had already
      overflowed is dropped, the one that makes it overflow is sent whole and followed by the marker. */
  function SentFor(before: seq<Chunk>, e: SourceEvent): seq<SseEvent> {
    match e
    case Piece(c) =>
      if Overflows(before, c.stream) then []
      else [ChunkSent(c.stream, c.data)] + if Overflows(before + [c], c.stream) then [TruncatedSent(c.stream)] else []
    case Exit(_) => []
    case Failed(message) => [ErrorSent(message)]
  }

  function Script(es: seq<SourceEvent>): seq<SseEvent>
    decreases |es|
  {
    if es == [] then [] else Script(es[..|es| - 1]) + SentFor(PiecesIn(es[..|es| - 1]), es[|es| - 1])
  }

  ghost predicate PiecesNonEmpty(es: seq<SourceEvent>) {
    forall i :: 0 <= i < |es| && es[i].Piece? ==> es[i].chunk.data != []
  }

  /** A piece can make only its own stream overflow, and a stream that has overflowed stays so. */
  lemma {:induction false} StreamsApart(cs: seq<Chunk>, c: Chunk)
    ensures forall k :: k != c.stream ==> (Overflows(cs + [c], k) <==> Overflows(cs, k))
    ensures forall k :: Overflows(cs, k) ==> Overflows(cs + [c], k)
  {
    ConcatAppend(cs, c);
    hide Concat;
  }

  /** The loop's work on one piece: `pre` is taken before the buffer is extended, `announced` after it. */
  method ForwardPiece(capture: Capture, announced: set<Stream>, ghost before: seq<Chunk>, c: Chunk)
    returns (sent: seq<SseEvent>, announcedNow: set<Stream>)
    requires capture.Holds(before) && announced == capture.truncated && c.data != []
    modifies capture
    ensures capture.Holds(before + [c]) && announcedNow == capture.truncated
    ensures sent == SentFor(before, Piece(c))
  {
    var pre := c.stream in capture.truncated;
    assert pre <==> Overflows(before, c.stream);
    StreamsApart(before, c);
    hide Concat, FirstBytes;
    capture.Take(before, c);
    assert c.stream in capture.truncated <==> Overflows(before + [c], c.stream);
    sent, announcedNow := [], announced;
    if !pre {
      sent := sent + [ChunkSent(c.stream, c.data)];
    }
    if c.stream in capture.truncated && c.stream !in announced {
      sent := sent + [TruncatedSent(c.stream)];
      announcedNow := announced + {c.stream};
    }
    forall k: Stream
      ensures k in capture.truncated <==> k in announcedNow
    {
      assert k in capture.truncated <==> Overflows(before + [c], k);
      assert k in announced <==> Overflows(before, k);
    }
  }

  /** The streaming loop over what the producer queued. */
  method RunStream(es: seq<SourceEvent>) returns (sent: seq<SseEvent>)
    requires PiecesNonEmpty(es)
    ensures var exitCode := ExitIn(es);
            var timedOut := exitCode == 124;
            sent == Script(es) + [ResultSent(Expected(PiecesIn(es), if timedOut then -1 else exitCode), timedOut)]
  {
    var capture := new Capture();
    var announced: set<Stream> := {};
    var exitCode := 0;
    sent := [];
    assert capture.Holds([]);
    for i := 0 to |es|
      invariant fresh(capture)
      invariant capture.Holds(PiecesIn(es[..i])) && announced == capture.truncated
      invariant exitCode == ExitIn(es[..i]) && sent == Script(es[..i])
    {
      ScriptStep(es, i);
      ghost var before := PiecesIn(es[..i]);
      assert before + [] == before && sent + [] == sent;
      hide Script, PiecesIn, ExitIn, Capture.Holds;
      match es[i]
      case Piece(c) =>
        var events;
        events, announced := ForwardPiece(capture, announced, before, c);
        sent := sent + events;
      case Exit(code) =>
        exitCode := code;
      case Failed(message) =>
        sent := sent + [ErrorSent(message)];
    }
    assert es[..|es|] == es;
    ghost var cs := PiecesIn(es);
    assert capture.truncated == set k: Stream | Overflows(cs, k);
    var timedOut := exitCode == TIMEOUT_EXIT_CODE;
    sent := sent + [ResultSent(ExecOutput(capture.stdout, capture.stderr, if timedOut then -1 else exitCode,
                                          Sorted(capture.truncated)), timedOut)];
  }

  lemma {:induction false} ScriptStep(es: seq<SourceEvent>, i: nat)
    requires i < |es|
    ensures Script(es[..i + 1]) == Script(es[..i]) + SentFor(PiecesIn(es[..i]), es[i])
    ensures PiecesIn(es[..i + 1]) == PiecesIn(es[..i]) + if es[i].Piece? then [es[i].chunk] else []
    ensures ExitIn(es[..i + 1]) == if es[i].Exit? then es[i].code else ExitIn(es[..i])
    ensures es[i].Exit? ==> SentFor(PiecesIn(es[..i]), es[i]) == []
    ensures es[i].Failed? ==> SentFor(PiecesIn(es[..i]), es[i]) == [ErrorSent(es[i].message)]
  {
    assert es[..i + 1][..i] == es[..i];
  }

  // ----- what a client sees -----

  /** The data of one stream's chunks among what was sent. */
  function Received(sent: seq<SseEvent>, k: Stream): Bytes
    decreases |sent|
  {
    if sent == [] then []
    else
      var last := sent[|sent| - 1];
      Received(sent[..|sent| - 1], k) + if last.ChunkSent? && last.stream == k then last.data else []
  }

  /** A chunk of the stream comes only while no more than the cap has been sent of it. */
  ghost predicate ChunksStopAtCap(sent: seq<SseEvent>, k: Stream) {
    forall i :: 0 <= i < |sent| && sent[i].ChunkSent? && sent[i].stream == k ==>
        |Received(sent[..i], k)| <= OUTPUT_CAP_BYTES
  }

  /** A marker comes right after the chunk that crosses the cap. */
  ghost predicate MarkerFollowsCrossing(sent: seq<SseEvent>, k: Stream) {
    forall i :: 0 <= i < |sent| && sent[i] == TruncatedSent(k) ==>
                  && i > 0 && sent[i - 1].ChunkSent? && sent[i - 1].stream == k
                  && |Received(sent[..i - 1], k)| <= OUTPUT_CAP_BYTES < |Received(sent[..i], k)|
  }

  function Markers(sent: seq<SseEvent>, k: Stream): nat
    decreases |sent|
  {
    if sent == [] then 0
    else Markers(sent[..|sent| - 1], k) + if sent[|sent| - 1] == TruncatedSent(k) then 1 else 0
  }

  ghost predicate StreamContract(sent: seq<SseEvent>, cs: seq<Chunk>, k: Stream) {
    && ChunksStopAtCap(sent, k)
    && MarkerFollowsCrossing(sent, k)
    && Markers(sent, k) == (if Overflows(cs, k) then 1 else 0)
    && FirstBytes(Concat(cs, k)) <= Received(sent, k) <= Concat(cs, k)
    && (Overflows(cs, k) <==> |Received(sent, k)| > OUTPUT_CAP_BYTES)
  }

  lemma {:induction false} ReceiveOne(sent: seq<SseEvent>, e: SseEvent, k: Stream)
    ensures Received(sent + [e], k) == Received(sent, k) + if e.ChunkSent? && e.stream == k then e.data else []
    ensures Markers(sent + [e], k) == Markers(sent, k) + if e == TruncatedSent(k) then 1 else 0
  {
    assert (sent + [e])[..|sent|] == sent;
  }

  lemma {:induction false} ChunkMayFollow(sent: seq<SseEvent>, e: SseEvent, k: Stream)
    requires ChunksStopAtCap(sent, k) && (e.ChunkSent? && e.stream == k ==> |Received(sent, k)| <= OUTPUT_CAP_BYTES)
    ensures ChunksStopAtCap(sent + [e], k)
  {
    hide Received;
    var s := sent + [e];
    forall i | 0 <= i < |s| && s[i].ChunkSent? && s[i].stream == k
      ensures |Received(s[..i], k)| <= OUTPUT_CAP_BYTES
    {
      assert s[..i] == sent[..i];
      assert i == |sent| ==> sent[..i] == sent;
    }
  }

  lemma {:induction false} NoMarkerFollows(sent: seq<SseEvent>, e: SseEvent, k: Stream)
    requires MarkerFollowsCrossing(sent, k) && e != TruncatedSent(k)
    ensures MarkerFollowsCrossing(sent + [e], k)
  {
    hide Received;
    var s := sent + [e];
    forall i | 0 <= i < |s| && s[i] == TruncatedSent(k)
      ensures i > 0 && s[i - 1].ChunkSent? && s[i - 1].stream == k
              && |Received(s[..i - 1], k)| <= OUTPUT_CAP_BYTES < |Received(s[..i], k)|
    {
      assert s[..i] == sent[..i] && s[i] == sent[i];
      assert i > 0 ==> s[..i - 1] == sent[..i - 1];
    }
  }

  /** The marker may follow the chunk `e` that crosses the cap. */
  lemma {:induction false} MarkOne(sent: seq<SseEvent>, e: SseEvent, k: Stream)
    requires e.ChunkSent? && e.stream == k && MarkerFollowsCrossing(sent + [e], k)
    requires |Received(sent, k)| <= OUTPUT_CAP_BYTES < |Received(sent + [e], k)|
    ensures MarkerFollowsCrossing(sent + [e] + [TruncatedSent(k)], k)
  {
    hide Received;
    var s := sent + [e];
    var t := s + [TruncatedSent(k)];
    forall i | 0 <= i < |t| && t[i] == TruncatedSent(k)
      ensures i > 0 && t[i - 1].ChunkSent? && t[i - 1].stream == k
              && |Received(t[..i - 1], k)| <= OUTPUT_CAP_BYTES < |Received(t[..i], k)|
    {
      if i < |s| {
        assert s[i] == TruncatedSent(k) && t[..i] == s[..i];
        assert t[..i - 1] == s[..i - 1];
      } else {
        assert t[..i] == s && t[..i - 1] == sent && t[i - 1] == e;
      }
    }
  }

  lemma {:induction false} BytesGrow(received: Bytes, written: Bytes, data: Bytes)
    requires FirstBytes(written) <= received <= written
    ensures |written| <= OUTPUT_CAP_BYTES ==>
              received + data == written + data && FirstBytes(written + data) <= received + data
    ensures |written| > OUTPUT_CAP_BYTES ==>
              FirstBytes(written + data) == FirstBytes(written) && received <= written + data
  {
  }

  /** A piece that fits is sent. */
  lemma {:induction false} FittingPiece(sent: seq<SseEvent>, cs: seq<Chunk>, c: Chunk)
    requires StreamContract(sent, cs, c.stream) && !Overflows(cs + [c], c.stream)
    ensures StreamContract(sent + [ChunkSent(c.stream, c.data)], cs + [c], c.stream)
  {
    var k, e := c.stream, ChunkSent(c.stream, c.data);
    ConcatAppend(cs, c);
    BytesGrow(Received(sent, k), Concat(cs, k), c.data);
    ReceiveOne(sent, e, k);
    ChunkMayFollow(sent, e, k);
    NoMarkerFollows(sent, e, k);
    hide FirstBytes, Received, Markers, Concat, ChunksStopAtCap, MarkerFollowsCrossing;
  }

  /** Up to and with the piece that crosses the cap, everything written has been sent. */
  lemma {:induction false} CrossedBytes(sent: seq<SseEvent>, cs: seq<Chunk>, c: Chunk)
    requires StreamContract(sent, cs, c.stream) && !Overflows(cs, c.stream)
    ensures var k, crossed := c.stream, sent + [ChunkSent(c.stream, c.data)];
            && |Received(sent, k)| <= OUTPUT_CAP_BYTES
            && Received(crossed, k) == Concat(cs + [c], k)
            && FirstBytes(Concat(cs + [c], k)) <= Received(crossed, k)
            && Markers(crossed, k) == 0
  {
    var k := c.stream;
    ConcatAppend(cs, c);
    ReceiveOne(sent, ChunkSent(k, c.data), k);
    hide Received, Markers, Concat, ChunksStopAtCap, MarkerFollowsCrossing;
    BytesGrow(Received(sent, k), Concat(cs, k), c.data);
  }

  lemma {:induction false} MarkerChangesNoBytes(sent: seq<SseEvent>, k: Stream)
    ensures Received(sent + [TruncatedSent(k)], k) == Received(sent, k)
    ensures Markers(sent + [TruncatedSent(k)], k) == Markers(sent, k) + 1
  {
    ReceiveOne(sent, TruncatedSent(k), k);
    hide Received, Markers;
    assert Received(sent, k) + [] == Received(sent, k);
  }

  lemma {:induction false} CrossedOrder(sent: seq<SseEvent>, e: SseEvent, k: Stream)
    requires e.ChunkSent? && e.stream == k && ChunksStopAtCap(sent, k) && MarkerFollowsCrossing(sent, k)
    requires |Received(sent, k)| <= OUTPUT_CAP_BYTES < |Received(sent + [e], k)|
    ensures ChunksStopAtCap(sent + [e] + [TruncatedSent(k)], k)
    ensures MarkerFollowsCrossing(sent + [e] + [TruncatedSent(k)], k)
  {
    hide Received, ChunksStopAtCap, MarkerFollowsCrossing;
    ChunkMayFollow(sent, e, k);
    NoMarkerFollows(sent, e, k);
    ChunkMayFollow(sent + [e], TruncatedSent(k), k);
    MarkOne(sent, e, k);
  }

  /** The piece that crosses the cap is sent, and then the marker. */
  lemma {:induction false} CrossingPiece(sent: seq<SseEvent>, cs: seq<Chunk>, c: Chunk)
    requires StreamContract(sent, cs, c.stream) && !Overflows(cs, c.stream) && Overflows(cs + [c], c.stream)
    ensures StreamContract(sent + [ChunkSent(c.stream, c.data)] + [TruncatedSent(c.stream)], cs + [c], c.stream)
  {
    var k, e := c.stream, ChunkSent(c.stream, c.data);
    hide FirstBytes, Received, Markers, Concat, ChunksStopAtCap, MarkerFollowsCrossing;
    CrossedBytes(sent, cs, c);
    CrossedOrder(sent, e, k);
    MarkerChangesNoBytes(sent + [e], k);
  }

  lemma {:induction false} AfterPiece(sent: seq<SseEvent>, cs: seq<Chunk>, c: Chunk)
    ensures var e, m := ChunkSent(c.stream, c.data), TruncatedSent(c.stream);
            sent + SentFor(cs, Piece(c)) == if Overflows(cs, c.stream) then sent
                                            else if Overflows(cs + [c], c.stream) then sent + [e] + [m] else sent + [e]
  {
    hide Overflows;
    var e, m := ChunkSent(c.stream, c.data), TruncatedSent(c.stream);
    assert sent + [] == sent && sent + ([e] + []) == sent + [e] && sent + ([e] + [m]) == sent + [e] + [m];
  }

  lemma {:induction false} ContractReadsOnlyBytes(sent: seq<SseEvent>, cs: seq<Chunk>, ds: seq<Chunk>, k: Stream)
    requires StreamContract(sent, cs, k) && Concat(cs, k) == Concat(ds, k)
    ensures StreamContract(sent, ds, k)
  {
    hide FirstBytes, Received, Markers, Concat, ChunksStopAtCap, MarkerFollowsCrossing;
  }

  /** One piece more keeps the contract: of its own stream, */
  lemma {:induction false} OwnPieceKeepsContract(sent: seq<SseEvent>, cs: seq<Chunk>, c: Chunk)
    requires StreamContract(sent, cs, c.stream)
    ensures StreamContract(sent + SentFor(cs, Piece(c)), cs + [c], c.stream)
  {
    AfterPiece(sent, cs, c);
    hide SentFor;
    if Overflows(cs, c.stream) {
      DroppedPiece(sent, cs, c);
    } else {
      StreamsApart(cs, c);
      hide StreamContract, Overflows;
      if Overflows(cs + [c], c.stream) {
        CrossingPiece(sent, cs, c);
      } else {
        FittingPiece(sent, cs, c);
      }
    }
  }

  lemma {:induction false} DroppedPiece(sent: seq<SseEvent>, cs: seq<Chunk>, c: Chunk)
    requires StreamContract(sent, cs, c.stream) && Overflows(cs, c.stream)
    ensures StreamContract(sent, cs + [c], c.stream)
  {
    ConcatAppend(cs, c);
    BytesGrow(Received(sent, c.stream), Concat(cs, c.stream), c.data);
    hide FirstBytes, Received, Markers, Concat, ChunksStopAtCap, MarkerFollowsCrossing;
  }

  /** and of the other stream. */
  lemma {:induction false} OtherPieceKeepsContract(sent: seq<SseEvent>, cs: seq<Chunk>, c: Chunk, k: Stream)
    requires StreamContract(sent, cs, k) && k != c.stream
    ensures StreamContract(sent + SentFor(cs, Piece(c)), cs + [c], k)
  {
    var e, m := ChunkSent(c.stream, c.data), TruncatedSent(c.stream);
    ConcatAppend(cs, c);
    hide StreamContract, Overflows, SentFor, Concat;
    assert Concat(cs, k) + [] == Concat(cs, k);
    ContractReadsOnlyBytes(sent, cs, cs + [c], k);
    QuietEventKeepsContract(sent, e, cs + [c], k);
    QuietEventKeepsContract(sent + [e], m, cs + [c], k);
    AfterPiece(sent, cs, c);
  }

  /** An event that is neither a chunk of the stream nor its marker changes nothing for the stream. */
  lemma {:induction false} QuietEventKeepsContract(sent: seq<SseEvent>, e: SseEvent, cs: seq<Chunk>, k: Stream)
    requires StreamContract(sent, cs, k) && !(e.ChunkSent? && e.stream == k) && e != TruncatedSent(k)
    ensures StreamContract(sent + [e], cs, k)
  {
    ReceiveOne(sent, e, k);
    ChunkMayFollow(sent, e, k);
    NoMarkerFollows(sent, e, k);
    hide Received, Markers, Concat, ChunksStopAtCap, MarkerFollowsCrossing;
    assert Received(sent, k) + [] == Received(sent, k);
  }

  /** For every interleaving of pieces: each stream's chunks stop at the one that crosses the cap, the marker
      comes exactly once, right after it, if and only if the stream overflows; and the chunks received extend
      the stream's capped buffer and are a prefix of what was written, all of it when nothing overflowed. */
  lemma {:induction false} ScriptKeepsContract(es: seq<SourceEvent>, k: Stream)
    ensures StreamContract(Script(es), PiecesIn(es), k)
    decreases |es|
  {
    if es != [] {
      var n := |es| - 1;
      var front, e := es[..n], es[n];
      ScriptStep(es, n);
      assert es[..n + 1] == es;
      hide Script, PiecesIn, ExitIn, StreamContract;
      ScriptKeepsContract(front, k);
      var sent, cs := Script(front), PiecesIn(front);
      if e.Piece? {
        hide SentFor;
        if e.chunk.stream == k {
          OwnPieceKeepsContract(sent, cs, e.chunk);
        } else {
          OtherPieceKeepsContract(sent, cs, e.chunk, k);
        }
      } else {
        assert cs + [] == cs && sent + [] == sent;
        if e.Failed? {
          QuietEventKeepsContract(sent, ErrorSent(e.message), cs, k);
        }
      }
    }
  }

  // ----- the two implementations agree -----

  lemma {:induction false} PiecesInAsPieces(cs: seq<Chunk>)
    ensures PiecesIn(AsPieces(cs)) == cs && ExitIn(AsPieces(cs)) == 0
    ensures NoneEmpty(cs) ==> PiecesNonEmpty(AsPieces(cs))
    decreases |cs|
  {
    if cs != [] {
      var front, last := cs[..|cs| - 1], cs[|cs| - 1];
      assert AsPieces(cs) == AsPieces(front) + [Piece(last)];
      hide AsPieces, PiecesIn, ExitIn;
      PiecesInAsPieces(front);
      assert cs == front + [last];
    }
  }

  /** For one demultiplexed stream and exit code, the streaming endpoint ends with the synchronous one's
      output; only the exit code of a timeout, which the synchronous endpoint turns into an error, is -1. */
  lemma {:induction false} StreamingAgreesWithSync(frames: seq<Frame>, exitCode: int)
    ensures var es := AsPieces(ChunksOf(frames)) + [Exit(exitCode)];
            var sync := Expected(ChunksOf(frames), exitCode);
            && PiecesNonEmpty(es)
            && ExitIn(es) == exitCode
            && Expected(PiecesIn(es), if exitCode == TIMEOUT_EXIT_CODE then -1 else exitCode)
            == sync.(exitCode := if exitCode == TIMEOUT_EXIT_CODE then -1 else exitCode)
  {
    var cs := ChunksOf(frames);
    PiecesInAsPieces(cs);
    var es := AsPieces(cs) + [Exit(exitCode)];
    assert es[..|es| - 1] == AsPieces(cs);
    assert PiecesIn(es) == cs;
  }

  /** What the frames say of one stream is just their pieces of it, end to end. */
  function Written(frames: seq<Frame>, k: Stream): Bytes
    decreases |frames|
  {
    if frames == [] then []
    else
      var last := frames[|frames| - 1];
      Written(frames[..|frames| - 1], k) + if k == Stdout then last.stdout else last.stderr
  }

  /** What the buffers hold the first bytes of: each stream's concatenation is what the frames wrote to it. */
  lemma {:induction false} FramesAreWritten(frames: seq<Frame>, k: Stream)
    ensures Concat(ChunksOf(frames), k) == Written(frames, k)
    decreases |frames|
  {
    if frames != [] {
      var front, f := frames[..|frames| - 1], frames[|frames| - 1];
      var one := AndPiece(ChunksOf(front), Stdout, f.stdout);
      assert ChunksOf(frames) == AndPiece(one, Stderr, f.stderr);
      assert Written(frames, k) == Written(front, k) + if k == Stdout then f.stdout else f.stderr;
      hide Concat, ChunksOf, Written, AndPiece;
      FramesAreWritten(front, k);
      assert Concat(one, k) + [] == Concat(one, k) && Written(front, k) + [] == Written(front, k);
    }
  }

  function Least(a: nat, b: nat): nat {
    if a <= b then a else b
  }

  /** What a caller gets: each field is the longest prefix of that stream within the cap, and the truncated streams are
      exactly those that were longer, each once, stderr first. */
  lemma {:induction false} CollectsEachStream(frames: seq<Frame>, exitCode: int)
    ensures var out := Expected(ChunksOf(frames), exitCode);
            var names := out.truncatedStreams;
            && out.stdout <= Written(frames, Stdout) && out.stderr <= Written(frames, Stderr)
            && |out.stdout| == Least(|Written(frames, Stdout)|, 8_388_608)
            && |out.stderr| == Least(|Written(frames, Stderr)|, 8_388_608)
            && out.exitCode == exitCode
            && (forall k :: k in names <==> |Written(frames, k)| > 8_388_608)
            && (forall i, j :: 0 <= i < j < |names| ==> names[i] == Stderr && names[j] == Stdout)
  {
    FramesAreWritten(frames, Stdout);
    FramesAreWritten(frames, Stderr);
    hide Concat, ChunksOf, Written;
    var streams := set k: Stream | Overflows(ChunksOf(frames), k);
    forall k: Stream
      ensures k in Sorted(streams) <==> k in streams
      ensures Concat(ChunksOf(frames), k) == Written(frames, k)
    {
      match k
      case Stdout =>
      case Stderr =>
    }
  }

  /** How Docker cut the output into frames, and how it interleaved the streams, makes no difference. */
  lemma {:induction false} CuttingDoesNotMatter(a: seq<Frame>, b: seq<Frame>, exitCode: int)
    requires forall k :: Written(a, k) == Written(b, k)
    ensures Expected(ChunksOf(a), exitCode) == Expected(ChunksOf(b), exitCode)
  {
    forall k: Stream
      ensures Concat(ChunksOf(a), k) == Concat(ChunksOf(b), k)
    {
      FramesAreWritten(a, k);
      FramesAreWritten(b, k);
    }
    hide Concat, ChunksOf, Written;
    var ta := set k: Stream | Overflows(ChunksOf(a), k);
    var tb := set k: Stream | Overflows(ChunksOf(b), k);
    assert ta == tb;
  }
}
