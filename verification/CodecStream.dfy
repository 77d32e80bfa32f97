/** A connection's bytes arrive in arbitrary chunks and are decoded as far as they go. */
module CodecStream {
  import opened Base
  import opened Bytes
  import opened FrameHeaders
  import opened FrameCodec

  /** Everything decoded so far, the bytes still buffered, and the error that ended the stream, if any. */
  datatype Progress = Progress(frames: seq<Frame>, buffer: seq<u8>, failure: Option<CodecError>)

  /** Decodes until the buffer holds no whole frame. */
  function Drain(codec: Codec, buffer: seq<u8>): Progress
    decreases |buffer|
  {
    match DecodeFrame(codec, buffer)
    case Incomplete => Progress([], buffer, None)
    case Failed(error, left) => Progress([], left, Some(error))
    case Item(frame, left) =>
      var rest := Drain(codec, left);
      rest.(frames := [frame] + rest.frames)
  }

  /** Each chunk is appended to what is buffered, and the buffer drained. */
  function Feed(codec: Codec, buffer: seq<u8>, chunks: seq<seq<u8>>): Progress
    decreases |chunks|
  {
    var drained := Drain(codec, buffer);
    if chunks == [] || drained.failure.Some? then drained
    else
      var rest := Feed(codec, drained.buffer + chunks[0], chunks[1..]);
      rest.(frames := drained.frames + rest.frames)
  }

  function Concat(chunks: seq<seq<u8>>): seq<u8> {
    if chunks == [] then [] else chunks[0] + Concat(chunks[1..])
  }

  predicate AllEncode(codec: Codec, frames: seq<Frame>) {
    forall f <- frames :: EncodeFrame(codec, f).Ok?
  }

  function Encodings(codec: Codec, frames: seq<Frame>): seq<u8>
    requires AllEncode(codec, frames)
  {
    if frames == [] then [] else EncodeFrame(codec, frames[0]).value + Encodings(codec, frames[1..])
  }

  function NormalForms(codec: Codec, frames: seq<Frame>): (r: seq<Frame>)
    requires AllEncode(codec, frames)
    ensures |r| == |frames|
    ensures forall i :: 0 <= i < |frames| ==>
              r[i] == Normalised(codec, frames[i], |EncodeFrame(codec, frames[i]).value|)
  {
    if frames == [] then []
    else [Normalised(codec, frames[0], |EncodeFrame(codec, frames[0]).value|)] + NormalForms(codec, frames[1..])
  }

  /** The start of a frame whose end has not arrived. */
  ghost predicate Partial(codec: Codec, tail: seq<u8>) {
    tail == [] || exists next :: EncodeFrame(codec, next).Ok? && tail < EncodeFrame(codec, next).value
  }

  lemma {:induction false} PartialIsHeldBack(codec: Codec, tail: seq<u8>, start: seq<u8>)
    requires Partial(codec, tail) && start <= tail
    ensures DecodeFrame(codec, start) == Incomplete
  {
    if start != [] {
      var next :| EncodeFrame(codec, next).Ok? && tail < EncodeFrame(codec, next).value;
      PrefixIsHeldBack(codec, next, start);
    }
  }

  /** Draining `buffer` gave the first `done` frames, and the buffer now starts at the next one. */
  ghost predicate Drained(codec: Codec, frames: seq<Frame>, tail: seq<u8>, buffer: seq<u8>, more: seq<u8>, done: nat)
    requires AllEncode(codec, frames)
  {
    && done <= |frames| && (more == [] ==> done == |frames|)
    && var d := Drain(codec, buffer);
    && d.failure == None
    && d.frames == NormalForms(codec, frames)[..done]
    && d.buffer + more == Encodings(codec, frames[done..]) + tail
  }

  lemma {:induction false} CutBuffer(buffer: seq<u8>, more: seq<u8>, first: seq<u8>, rest: seq<u8>)
    requires buffer + more == first + rest
    ensures |buffer| < |first| ==> buffer < first && more != []
    ensures |buffer| >= |first| ==> buffer == first + buffer[|first|..] && buffer[|first|..] + more == rest
  {
    if |buffer| < |first| {
      assert buffer == (buffer + more)[..|buffer|] == first[..|buffer|];
    } else {
      assert (buffer + more)[..|first|] == first;
      assert (buffer + more)[|first|..] == rest;
    }
  }

  lemma {:induction false} DrainsOne(codec: Codec, frames: seq<Frame>, tail: seq<u8>, later: seq<u8>,
                                     more: seq<u8>, done: nat)
    requires frames != [] && AllEncode(codec, frames)
    requires Drained(codec, frames[1..], tail, later, more, done)
    ensures Drained(codec, frames, tail, EncodeFrame(codec, frames[0]).value + later, more, done + 1)
  {
    FrameRoundTrip(codec, frames[0], later);
    assert frames[done + 1..] == frames[1..][done..];
    NormalFormsHead(codec, frames, done);
  }

  lemma {:induction false} NormalFormsHead(codec: Codec, frames: seq<Frame>, done: nat)
    requires frames != [] && AllEncode(codec, frames) && done < |frames|
    ensures AllEncode(codec, frames[1..])
    ensures NormalForms(codec, frames)[..done + 1] ==
            [Normalised(codec, frames[0], |EncodeFrame(codec, frames[0]).value|)] +
            NormalForms(codec, frames[1..])[..done]
  {
  }

  lemma {:induction false} DrainsNothing(codec: Codec, frames: seq<Frame>, tail: seq<u8>, buffer: seq<u8>,
                                         more: seq<u8>)
    requires AllEncode(codec, frames) && buffer + more == Encodings(codec, frames) + tail
    requires DecodeFrame(codec, buffer) == Incomplete && (more == [] ==> frames == [])
    ensures Drained(codec, frames, tail, buffer, more, 0)
  {
    assert frames[0..] == frames;
  }

  /** Less than the next whole frame is held back. */
  lemma {:induction false} ShortIsHeldBack(codec: Codec, frames: seq<Frame>, tail: seq<u8>, buffer: seq<u8>,
                                           more: seq<u8>)
    requires AllEncode(codec, frames) && Partial(codec, tail)
    requires buffer + more == Encodings(codec, frames) + tail
    requires frames != [] ==> |buffer| < |EncodeFrame(codec, frames[0]).value|
    ensures DecodeFrame(codec, buffer) == Incomplete && (more == [] ==> frames == [])
  {
    if frames == [] {
      CutBuffer(buffer, more, [], tail);
      PartialIsHeldBack(codec, tail, buffer);
    } else {
      var first := EncodeFrame(codec, frames[0]).value;
      EncodingsSplit(codec, frames, tail);
      CutBuffer(buffer, more, first, Encodings(codec, frames[1..]) + tail);
      PrefixIsHeldBack(codec, frames[0], buffer);
    }
  }

  lemma {:induction false} EncodingsSplit(codec: Codec, frames: seq<Frame>, tail: seq<u8>)
    requires AllEncode(codec, frames) && frames != []
    ensures Encodings(codec, frames) + tail ==
            EncodeFrame(codec, frames[0]).value + (Encodings(codec, frames[1..]) + tail)
  {
  }

  /** Draining a part of the stream yields its whole frames, every one when nothing more is to come. */
  lemma {:induction false} DrainStops(codec: Codec, frames: seq<Frame>, tail: seq<u8>, buffer: seq<u8>, more: seq<u8>)
    returns (done: nat)
    requires AllEncode(codec, frames) && Partial(codec, tail)
    requires buffer + more == Encodings(codec, frames) + tail
    ensures Drained(codec, frames, tail, buffer, more, done)
    decreases |frames|
  {
    if frames == [] || |buffer| < |EncodeFrame(codec, frames[0]).value| {
      ShortIsHeldBack(codec, frames, tail, buffer, more);
      DrainsNothing(codec, frames, tail, buffer, more);
      done := 0;
    } else {
      var first := EncodeFrame(codec, frames[0]).value;
      EncodingsSplit(codec, frames, tail);
      CutBuffer(buffer, more, first, Encodings(codec, frames[1..]) + tail);
      var later := buffer[|first|..];
      var d := DrainStops(codec, frames[1..], tail, later, more);
      DrainsOne(codec, frames, tail, later, more, d);
      done := d + 1;
    }
  }

  lemma {:induction false} NormalFormsJoin(codec: Codec, frames: seq<Frame>, k: nat)
    requires AllEncode(codec, frames) && k <= |frames|
    ensures AllEncode(codec, frames[k..])
    ensures NormalForms(codec, frames)[..k] + NormalForms(codec, frames[k..]) == NormalForms(codec, frames)
  {
  }

  lemma {:induction false} FeedFrom(codec: Codec, frames: seq<Frame>, tail: seq<u8>, buffer: seq<u8>,
                                    chunks: seq<seq<u8>>)
    requires AllEncode(codec, frames) && Partial(codec, tail)
    requires buffer + Concat(chunks) == Encodings(codec, frames) + tail
    ensures Feed(codec, buffer, chunks) == Progress(NormalForms(codec, frames), tail, None)
    decreases |chunks|
  {
    var done := DrainStops(codec, frames, tail, buffer, Concat(chunks));
    var d := Drain(codec, buffer);
    if chunks == [] {
      assert d.buffer + [] == d.buffer;
      assert frames[done..] == [];
      assert [] + tail == tail;
      assert NormalForms(codec, frames)[..done] == NormalForms(codec, frames);
    } else {
      assert (d.buffer + chunks[0]) + Concat(chunks[1..]) == d.buffer + Concat(chunks);
      FeedFrom(codec, frames[done..], tail, d.buffer + chunks[0], chunks[1..]);
      NormalFormsJoin(codec, frames, done);
    }
  }

  /**
   * Any encodable frames, concatenated, cut into any chunks and possibly cut short inside one more
   * frame, decode to exactly those frames in their normal forms, with only the cut frame's bytes
   * left in the buffer and no error.
   */
  lemma {:induction false} StreamRoundTrip(codec: Codec, frames: seq<Frame>, tail: seq<u8>, chunks: seq<seq<u8>>)
    requires AllEncode(codec, frames) && Partial(codec, tail)
    requires Concat(chunks) == Encodings(codec, frames) + tail
    ensures Feed(codec, [], chunks) == Progress(NormalForms(codec, frames), tail, None)
  {
    assert [] + Concat(chunks) == Concat(chunks);
    FeedFrom(codec, frames, tail, [], chunks);
  }

  // ---------------------------------------------------------------- any bytes at all

  function Left(a: Attempt, more: seq<u8>): Attempt
    requires !a.Incomplete?
  {
    match a
    case Failed(error, left) => Failed(error, left + more)
    case Item(frame, left) => Item(frame, left + more)
  }

  /** Bytes that arrive later change no verdict already reached, and are left in the buffer. */
  lemma {:induction false} VerdictsStand(codec: Codec, buffer: seq<u8>, more: seq<u8>)
    requires !DecodeFrame(codec, buffer).Incomplete?
    ensures DecodeFrame(codec, buffer + more) == Left(DecodeFrame(codec, buffer), more)
  {
    var longer := buffer + more;
    assert longer[0] == buffer[0];
    if MagicFrom(buffer[0]).Some? {
      var magic := MagicFrom(buffer[0]).value;
      assert longer[..|buffer|] == buffer;
      HeaderIsLocal(magic, longer, |buffer|);
      assert ReadHeader(magic, longer) == ReadHeader(magic, buffer);
      assert BodyLength(longer) == BodyLength(buffer);
      var total := HEADER_LEN + BodyLength(buffer);
      if total <= codec.maxFrameSize {
        assert longer[HEADER_LEN..total] == buffer[HEADER_LEN..total];
        assert longer[total..] == buffer[total..] + more;
      }
    }
  }

  /** What draining goes on to when more bytes arrive. */
  function Resumed(codec: Codec, d: Progress, more: seq<u8>): Progress {
    if d.failure.Some? then d.(buffer := d.buffer + more)
    else
      var rest := Drain(codec, d.buffer + more);
      rest.(frames := d.frames + rest.frames)
  }

  /** Draining early and draining late come to the same. */
  lemma {:induction false} DrainResumes(codec: Codec, buffer: seq<u8>, more: seq<u8>)
    ensures Drain(codec, buffer + more) == Resumed(codec, Drain(codec, buffer), more)
    decreases |buffer|
  {
    var a := DecodeFrame(codec, buffer);
    if a.Incomplete? {
      assert [] + Drain(codec, buffer + more).frames == Drain(codec, buffer + more).frames;
    } else {
      VerdictsStand(codec, buffer, more);
      if a.Item? {
        DrainResumes(codec, a.left, more);
        var d := Drain(codec, a.left);
        if d.failure.None? {
          var rest := Drain(codec, d.buffer + more);
          assert [a.frame] + (d.frames + rest.frames) == ([a.frame] + d.frames) + rest.frames;
        }
      }
    }
  }

  /** The same frames and the same failure, and without one the same bytes left over. */
  predicate Agree(a: Progress, b: Progress) {
    a.frames == b.frames && a.failure == b.failure && (a.failure.None? ==> a.buffer == b.buffer)
  }

  lemma {:induction false} ConcatStep(buffer: seq<u8>, chunks: seq<seq<u8>>)
    requires chunks != []
    ensures (buffer + chunks[0]) + Concat(chunks[1..]) == buffer + Concat(chunks)
  {
  }

  lemma {:induction false} AgreeAfter(done: seq<Frame>, a: Progress, b: Progress)
    requires Agree(a, b)
    ensures Agree(a.(frames := done + a.frames), b.(frames := done + b.frames))
  {
  }

  lemma {:induction false} FeedIsDrain(codec: Codec, buffer: seq<u8>, chunks: seq<seq<u8>>)
    ensures Agree(Feed(codec, buffer, chunks), Drain(codec, buffer + Concat(chunks)))
    decreases |chunks|, 1
  {
    if chunks == [] {
      assert buffer + [] == buffer;
    } else {
      DrainResumes(codec, buffer, Concat(chunks));
      FeedResumes(codec, buffer, chunks);
    }
  }

  lemma {:induction false} FeedResumes(codec: Codec, buffer: seq<u8>, chunks: seq<seq<u8>>)
    requires chunks != []
    ensures Agree(Feed(codec, buffer, chunks), Resumed(codec, Drain(codec, buffer), Concat(chunks)))
    decreases |chunks|, 0
  {
    var d := Drain(codec, buffer);
    if d.failure.None? {
      var next, later := d.buffer + chunks[0], chunks[1..];
      FeedIsDrain(codec, next, later);
      ConcatStep(d.buffer, chunks);
      AgreeAfter(d.frames, Feed(codec, next, later), Drain(codec, next + Concat(later)));
    }
  }

  /** For any bytes, malformed ones included, how they are cut into chunks changes neither the frames
      decoded nor the failure that ends the stream. */
  lemma {:induction false} ChunkingIsIrrelevant(codec: Codec, a: seq<seq<u8>>, b: seq<seq<u8>>)
    requires Concat(a) == Concat(b)
    ensures Agree(Feed(codec, [], a), Feed(codec, [], b))
  {
    FeedIsDrain(codec, [], a);
    FeedIsDrain(codec, [], b);
  }
}
