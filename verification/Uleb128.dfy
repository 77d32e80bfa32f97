/** Unsigned LEB128 collection identifiers (section 7.6 of the DWARF 5 standard), 32 bits wide. */
module Uleb128 {
  import opened Base
  import opened Bytes

  datatype UlebError = NoBytes | TooLong | TooLarge | Truncated

  datatype Decoded = Decoded(value: u32, consumed: nat)

  function Encoded(value: nat): (r: seq<u8>)
    ensures r != []
  {
    if value < 128 then [value] else [value % 128 + 128] + Encoded(value / 128)
  }

  /** The weight of the byte at each of the five positions. */
  function Weight(index: nat): nat
    requires index <= 5
  {
    match index
    case 0 => 1
    case 1 => 128
    case 2 => 16384
    case 3 => 2097152
    case 4 => 268435456
    case _ => 34359738368
  }

  /** The decoder from byte `index` on, with `value` collected from the bytes before it. */
  function DecodeFrom(source: seq<u8>, index: nat, value: nat): Result<Decoded, UlebError>
    requires index <= |source|
    decreases |source| - index
  {
    if index == |source| then Err(Truncated)
    else if index >= 5 then Err(TooLong)
    else
      var next := value + source[index] % 128 * Weight(index);
      if source[index] >= 128 then DecodeFrom(source, index + 1, next)
      else if next > U32_MAX then Err(TooLarge)
      else Ok(Decoded(next, index + 1))
  }

  function Decode(source: seq<u8>): Result<Decoded, UlebError> {
    if source == [] then Err(NoBytes) else DecodeFrom(source, 0, 0)
  }

  method EncodeUleb(value: u32, destination: BytesMut)
    modifies destination
    ensures destination.data == old(destination.data) + Encoded(value)
  {
    var rest: nat := value;
    ghost var written: seq<u8> := [];
    while rest >= 128
      invariant destination.data == old(destination.data) + written
      invariant written + Encoded(rest) == Encoded(value)
      decreases rest
    {
      ghost var tail := Encoded(rest / 128);
      assert written + ([rest % 128 + 128] + tail) == (written + [rest % 128 + 128]) + tail;
      destination.Put([rest % 128 + 128]);
      written := written + [rest % 128 + 128];
      rest := rest / 128;
    }
    destination.Put([rest]);
  }

  method DecodeUleb(source: seq<u8>) returns (r: Result<Decoded, UlebError>)
    ensures r == Decode(source)
  {
    if source == [] {
      return Err(NoBytes);
    }
    var value: nat := 0;
    var index := 0;
    while index < |source|
      invariant 0 <= index <= |source|
      invariant Decode(source) == DecodeFrom(source, index, value)
    {
      if index >= 5 {
        return Err(TooLong);
      }
      value := value + source[index] % 128 * Weight(index);
      if source[index] < 128 {
        if value > U32_MAX {
          return Err(TooLarge);
        }
        return Ok(Decoded(value, index + 1));
      }
      index := index + 1;
    }
    return Err(Truncated);
  }

  lemma {:induction false} EncodedIsShort(value: nat, index: nat)
    requires index <= 4 && value * Weight(index) <= U32_MAX
    ensures index + |Encoded(value)| <= 5
    decreases 5 - index
  {
    if value >= 128 {
      assert index != 4;
      EncodedIsShort(value / 128, index + 1);
    }
  }

  lemma {:induction false} DecodeRest(source: seq<u8>, index: nat, collected: nat, value: nat, rest: seq<u8>)
    requires index <= |source| && source[index..] == Encoded(value) + rest
    requires index + |Encoded(value)| <= 5
    requires collected + value * Weight(index) <= U32_MAX
    ensures DecodeFrom(source, index, collected) ==
            Ok(Decoded(collected + value * Weight(index), index + |Encoded(value)|))
    decreases value
  {
    assert source[index] == source[index..][0];
    if value >= 128 {
      var low, high := value % 128, value / 128;
      assert value == high * 128 + low;
      assert high * Weight(index + 1) + low * Weight(index) == value * Weight(index);
      assert source[index + 1..] == source[index..][1..];
      assert (Encoded(value) + rest)[1..] == Encoded(high) + rest;
      DecodeRest(source, index + 1, collected + low * Weight(index), high, rest);
    }
  }

  /** Every 32-bit value decodes to itself, with its exact length, whatever follows it. */
  lemma {:induction false} UlebRoundTrip(value: u32, rest: seq<u8>)
    ensures Decode(Encoded(value) + rest) == Ok(Decoded(value, |Encoded(value)|))
    ensures |Encoded(value)| <= 5
  {
    var source := Encoded(value) + rest;
    assert source[0..] == source;
    EncodedIsShort(value, 0);
    DecodeRest(source, 0, 0, value, rest);
  }

  /** The value a run of bytes stands for, whether or not it is the shortest. */
  function ValueOf(bytes: seq<u8>, count: nat): nat
    requires count <= |bytes| && count <= 5
  {
    if count == 0 then 0 else ValueOf(bytes, count - 1) + bytes[count - 1] % 128 * Weight(count - 1)
  }

  /** The first `count` bytes are a complete encoding: all but the last continue. */
  predicate Complete(bytes: seq<u8>, count: nat) {
    && 1 <= count <= 5 && count <= |bytes|
    && (forall i :: 0 <= i < count - 1 ==> bytes[i] >= 128)
    && bytes[count - 1] < 128
  }

  /** What the decoder accepts, exactly: padded encodings of up to five bytes included. */
  lemma {:induction false} DecodeAccepts(source: seq<u8>, count: nat)
    ensures Complete(source, count) && ValueOf(source, count) <= U32_MAX ==>
              Decode(source) == Ok(Decoded(ValueOf(source, count), count))
    ensures Decode(source).Ok? ==>
              var d := Decode(source).value;
              && Complete(source, d.consumed) && ValueOf(source, d.consumed) == d.value
  {
    if source != [] {
      AcceptsFrom(source, 0);
      if Complete(source, count) {
        ReachesEnd(source, 0, count);
      }
    }
  }

  lemma {:induction false} AcceptsFrom(source: seq<u8>, index: nat)
    requires index <= |source| && index <= 5
    requires forall i :: 0 <= i < index ==> source[i] >= 128
    ensures var r := DecodeFrom(source, index, ValueOf(source, index));
            r.Ok? ==> Complete(source, r.value.consumed) && ValueOf(source, r.value.consumed) == r.value.value
    decreases |source| - index
  {
    if index < |source| && index < 5 && source[index] >= 128 {
      AcceptsFrom(source, index + 1);
    }
  }

  lemma {:induction false} ReachesEnd(source: seq<u8>, index: nat, count: nat)
    requires Complete(source, count) && index < count
    ensures ValueOf(source, count) <= U32_MAX ==>
              DecodeFrom(source, index, ValueOf(source, index)) == Ok(Decoded(ValueOf(source, count), count))
    decreases count - index
  {
    if index < count - 1 {
      ReachesEnd(source, index + 1, count);
    }
  }
}
