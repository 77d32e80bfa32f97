/** Flexible framing extras: nibble headers with one-byte extensions. */
module Framing {
  import opened Base
  import opened Bytes

  datatype FramingExtra = FramingExtra(id: u16, data: seq<u8>) {
    predicate Representable() {
      id <= 270 && |data| <= 270
    }
  }

  datatype FramingError = ExtraTooLarge | TruncatedId | TruncatedLength | TruncatedData

  /** The byte that follows a saturated nibble. */
  function Extension(n: nat): seq<u8>
    requires n <= 270
  {
    if n >= 15 then [n - 15] else []
  }

  function EncodeExtra(x: FramingExtra): (r: seq<u8>)
    requires x.Representable()
    ensures r != []
  {
    [Min(x.id, 15) * 16 + Min(|x.data|, 15)] + (Extension(x.id) + (Extension(|x.data|) + x.data))
  }

  function EncodeExtras(extras: seq<FramingExtra>): (r: Result<seq<u8>, FramingError>)
    ensures r.Ok? ==> (r.value == [] <==> extras == [])
  {
    if extras == [] then Ok([])
    else if !extras[0].Representable() then Err(ExtraTooLarge)
    else Prefixed(EncodeExtra(extras[0]), EncodeExtras(extras[1..]))
  }

  /** What is already done, in front of what the rest comes to. */
  function Prefixed<T>(done: seq<T>, rest: Result<seq<T>, FramingError>): Result<seq<T>, FramingError> {
    match rest
    case Err(error) => Err(error)
    case Ok(more) => Ok(done + more)
  }

  lemma {:induction false} PrefixedNothing<T>(rest: Result<seq<T>, FramingError>)
    ensures Prefixed([], rest) == rest
  {
    if rest.Ok? {
      assert [] + rest.value == rest.value;
    }
  }

  lemma {:induction false} PrefixedTwice<T>(done: seq<T>, next: seq<T>, rest: Result<seq<T>, FramingError>)
    ensures Prefixed(done, Prefixed(next, rest)) == Prefixed(done + next, rest)
  {
    if rest.Ok? {
      assert done + (next + rest.value) == (done + next) + rest.value;
    }
  }

  datatype ParsedExtra = ParsedExtra(extra: FramingExtra, rest: seq<u8>)

  datatype Number = Number(n: nat, rest: seq<u8>)

  /** A nibble and, when it is saturated, its extension byte. */
  function ReadNumber(nibble: nat, source: seq<u8>): (r: Option<Number>)
    requires nibble <= 15
    ensures r.Some? ==> r.value.n <= 270 && |r.value.rest| <= |source|
  {
    if nibble != 15 then Some(Number(nibble, source))
    else if source == [] then None
    else Some(Number(15 + source[0] as nat, source[1..]))
  }

  /** One entry from the front of the source. */
  function DecodeExtra(source: seq<u8>): (r: Result<ParsedExtra, FramingError>)
    requires source != []
    ensures r.Ok? ==> |r.value.rest| < |source|
  {
    var id := ReadNumber(source[0] / 16, source[1..]);
    if id.None? then Err(TruncatedId)
    else
      var length := ReadNumber(source[0] % 16, id.value.rest);
      if length.None? then Err(TruncatedLength)
      else
        var n, rest := length.value.n, length.value.rest;
        if |rest| < n then Err(TruncatedData)
        else Ok(ParsedExtra(FramingExtra(id.value.n, rest[..n]), rest[n..]))
  }

  function DecodeExtras(source: seq<u8>): Result<seq<FramingExtra>, FramingError>
    decreases |source|
  {
    if source == [] then Ok([])
    else
      var parsed :- DecodeExtra(source);
      Prefixed([parsed.extra], DecodeExtras(parsed.rest))
  }

  method EncodeFramingExtras(extras: seq<FramingExtra>) returns (r: Result<seq<u8>, FramingError>)
    ensures r == EncodeExtras(extras)
  {
    var destination: seq<u8> := [];
    var i := 0;
    PrefixedNothing(EncodeExtras(extras));
    assert extras[0..] == extras;
    while i < |extras|
      invariant 0 <= i <= |extras|
      invariant EncodeExtras(extras) == Prefixed(destination, EncodeExtras(extras[i..]))
    {
      var x := extras[i];
      assert extras[i..][1..] == extras[i + 1..];
      if x.id > 270 || |x.data| > 270 {
        return Err(ExtraTooLarge);
      }
      PrefixedTwice(destination, EncodeExtra(x), EncodeExtras(extras[i + 1..]));
      var entry := WriteExtra(x);
      destination := destination + entry;
      i := i + 1;
    }
    assert destination + [] == destination;
    r := Ok(destination);
  }

  method WriteExtra(x: FramingExtra) returns (entry: seq<u8>)
    requires x.Representable()
    ensures entry == EncodeExtra(x)
  {
    entry := [Min(x.id, 15) * 16 + Min(|x.data|, 15)];
    if x.id >= 15 {
      entry := entry + [x.id - 15];
    }
    if |x.data| >= 15 {
      entry := entry + [|x.data| - 15];
    }
    entry := entry + x.data;
  }

  method ReadExtra(bytes: seq<u8>) returns (r: Result<ParsedExtra, FramingError>)
    requires bytes != []
    ensures r == DecodeExtra(bytes)
  {
    var header := bytes[0];
    var source := bytes[1..];
    var id: nat := header / 16;
    var length: nat := header % 16;
    if id == 15 {
      if source == [] {
        return Err(TruncatedId);
      }
      id := id + source[0];
      source := source[1..];
    }
    if length == 15 {
      if source == [] {
        return Err(TruncatedLength);
      }
      length := length + source[0];
      source := source[1..];
    }
    if |source| < length {
      return Err(TruncatedData);
    }
    r := Ok(ParsedExtra(FramingExtra(id, source[..length]), source[length..]));
  }

  method DecodeFramingExtras(bytes: seq<u8>) returns (r: Result<seq<FramingExtra>, FramingError>)
    ensures r == DecodeExtras(bytes)
  {
    var source := bytes;
    var extras: seq<FramingExtra> := [];
    PrefixedNothing(DecodeExtras(source));
    while source != []
      invariant DecodeExtras(bytes) == Prefixed(extras, DecodeExtras(source))
      decreases |source|
    {
      var parsed :- ReadExtra(source);
      DecodesHead(source, parsed.extra, parsed.rest);
      PrefixedTwice(extras, [parsed.extra], DecodeExtras(parsed.rest));
      extras := extras + [parsed.extra];
      source := parsed.rest;
    }
    assert extras + [] == extras;
    r := Ok(extras);
  }

  // ---------------------------------------------------------------- round trip

  lemma {:induction false} NumberRoundTrip(n: nat, rest: seq<u8>)
    requires n <= 270
    ensures ReadNumber(Min(n, 15), Extension(n) + rest) == Some(Number(n, rest))
  {
    assert n < 15 ==> Extension(n) + rest == rest;
    assert n >= 15 ==> (Extension(n) + rest)[1..] == rest;
  }

  lemma {:induction false} ExtraRoundTrip(x: FramingExtra, rest: seq<u8>)
    requires x.Representable()
    ensures DecodeExtra(EncodeExtra(x) + rest) == Ok(ParsedExtra(x, rest))
  {
    var source := EncodeExtra(x) + rest;
    var tail := x.data + rest;
    var afterId := Extension(|x.data|) + tail;
    assert source[1..] == Extension(x.id) + afterId;
    NumberRoundTrip(x.id, afterId);
    NumberRoundTrip(|x.data|, tail);
    assert source[0] / 16 == Min(x.id, 15) && source[0] % 16 == Min(|x.data|, 15);
    assert tail[..|x.data|] == x.data && tail[|x.data|..] == rest;
  }

  /** Whatever framing extras encode, decodes to the same list. */
  lemma {:induction false} FramingRoundTrip(extras: seq<FramingExtra>)
    requires EncodeExtras(extras).Ok?
    ensures DecodeExtras(EncodeExtras(extras).value) == Ok(extras)
    decreases |extras|
  {
    if extras != [] {
      var rest := EncodeExtras(extras[1..]).value;
      FramingRoundTrip(extras[1..]);
      ExtraRoundTrip(extras[0], rest);
      DecodesHead(EncodeExtra(extras[0]) + rest, extras[0], rest);
      assert [extras[0]] + extras[1..] == extras;
    }
  }

  lemma {:induction false} DecodesHead(source: seq<u8>, x: FramingExtra, rest: seq<u8>)
    requires source != [] && DecodeExtra(source) == Ok(ParsedExtra(x, rest))
    ensures DecodeExtras(source) == Prefixed([x], DecodeExtras(rest))
  {
  }
}
