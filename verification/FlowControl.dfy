/** Flow-control byte credit: what is received is acknowledged exactly once, in 32-bit pieces. */
module FlowControl {
  import opened Base

  function Sum(acks: seq<nat>): nat {
    if acks == [] then 0 else acks[0] + Sum(acks[1..])
  }

  lemma {:induction false} SumConcat(a: seq<nat>, b: seq<nat>)
    ensures Sum(a + b) == Sum(a) + Sum(b)
  {
    if a == [] {
      assert a + b == b;
    } else {
      assert (a + b)[1..] == a[1..] + b;
      SumConcat(a[1..], b);
    }
  }

  /** The acknowledgements sent, and the bytes left, when `pending` bytes are flushed over a
      connection that accepts `sends` more frames before it fails. */
  function Flushed(pending: nat, sends: nat): (seq<nat>, nat)
    decreases pending
  {
    if pending == 0 || sends == 0 then ([], pending)
    else
      var amount := Min(pending, U32_MAX);
      var rest := Flushed(pending - amount, sends - 1);
      ([amount] + rest.0, rest.1)
  }

  ghost predicate AcksInRange(acks: seq<nat>) {
    forall i :: 0 <= i < |acks| ==> 1 <= acks[i] <= U32_MAX
  }

  /** A flush sends nonzero 32-bit amounts that add up to what it takes off the backlog, and
      leaves a backlog only when the connection stopped taking frames. */
  lemma {:induction false} FlushConserves(pending: nat, sends: nat)
    ensures var (sent, left) := Flushed(pending, sends);
            && Sum(sent) + left == pending
            && AcksInRange(sent)
            && |sent| <= sends
            && (left == 0 || |sent| == sends)
    decreases pending
  {
    if pending != 0 && sends != 0 {
      var amount := Min(pending, U32_MAX);
      FlushConserves(pending - amount, sends - 1);
      var rest := Flushed(pending - amount, sends - 1);
      assert ([amount] + rest.0)[1..] == rest.0;
    }
  }

  datatype CreditError = LengthOverflow | SendFailed | InvalidBuffer

  /** A connection as the credit sees it: the acknowledgements it has carried, and how many
      more frames it will take. */
  class Connection {
    var acks: seq<nat>
    var sends: nat

    constructor (sends: nat)
      ensures acks == [] && this.sends == sends
    {
      acks := [];
      this.sends := sends;
    }

    method SendBufferAck(amount: nat) returns (ok: bool)
      requires amount <= U32_MAX
      modifies this
      ensures ok <==> old(sends) > 0
      ensures acks == if ok then old(acks) + [amount] else old(acks)
      ensures sends == if ok then old(sends) - 1 else old(sends)
    {
      ok := sends > 0;
      if ok {
        acks := acks + [amount];
        sends := sends - 1;
      }
    }
  }

  class FlowCredit {
    const threshold: nat
    var pending: nat

    constructor (threshold: nat)
      ensures this.threshold == threshold && pending == 0
    {
      this.threshold := threshold;
      pending := 0;
    }

    method Flush(connection: Connection) returns (r: Result<(), CreditError>)
      modifies this, connection
      ensures var (sent, left) := Flushed(old(pending), old(connection.sends));
              && connection.acks == old(connection.acks) + sent
              && pending == left
              && connection.sends == old(connection.sends) - |sent|
              && r == if left == 0 then Ok(()) else Err(SendFailed)
    {
      ghost var sent: seq<nat> := [];
      ghost var all := Flushed(pending, connection.sends);
      FlushConserves(pending, connection.sends);
      while pending != 0
        invariant connection.acks == old(connection.acks) + sent
        invariant |sent| <= old(connection.sends) && connection.sends == old(connection.sends) - |sent|
        invariant all.0 == sent + Flushed(pending, connection.sends).0
        invariant all.1 == Flushed(pending, connection.sends).1
        decreases pending
      {
        var amount := if pending <= U32_MAX then pending else U32_MAX;
        ghost var rest := Flushed(pending - amount, if connection.sends == 0 then 0 else connection.sends - 1);
        assert connection.sends > 0 ==> sent + ([amount] + rest.0) == (sent + [amount]) + rest.0;
        var ok := connection.SendBufferAck(amount);
        if !ok {
          return Err(SendFailed);
        }
        sent := sent + [amount];
        pending := pending - amount;
      }
      r := Ok(());
    }

    method Record(connection: Connection, bytes: nat) returns (r: Result<(), CreditError>)
      modifies this, connection
      ensures var after := Recorded(Credit(threshold, old(pending), old(connection.acks)), bytes,
                                    old(connection.sends));
              && Credit(threshold, pending, connection.acks) == after.0
              && r == after.1
    {
      if pending + bytes > U64_MAX {
        return Err(LengthOverflow);
      }
      pending := pending + bytes;
      if pending >= threshold {
        r := Flush(connection);
        return;
      }
      r := Ok(());
    }
  }

  function Target(bufferSize: nat, ackRatio: real): real {
    (bufferSize as real) * ackRatio
  }

  predicate Below(amount: nat, target: real) {
    (amount as real) < target
  }

  /** The least integer from 1 to the buffer size that is not below the target, found by
      bisection. */
  method AckThreshold(bufferSize: nat, ackRatio: real) returns (r: Result<nat, CreditError>)
    ensures r.Err? <==> bufferSize > U32_MAX
    ensures r.Ok? ==> 1 <= r.value <= Max(1, bufferSize)
    ensures r.Ok? ==> forall m: nat :: 1 <= m < r.value ==> Below(m, Target(bufferSize, ackRatio))
    ensures r.Ok? && 1 <= bufferSize && ackRatio <= 1.0 ==> !Below(r.value, Target(bufferSize, ackRatio))
  {
    if bufferSize > U32_MAX {
      return Err(InvalidBuffer);
    }
    var target := Target(bufferSize, ackRatio);
    if bufferSize >= 1 && ackRatio <= 1.0 {
      TargetWithinBuffer(bufferSize, ackRatio);
    }
    var low, high := 1, bufferSize;
    while low < high
      invariant 1 <= low <= Max(1, bufferSize)
      invariant 0 <= high <= bufferSize && (1 <= bufferSize ==> low <= high)
      invariant forall m: nat :: 1 <= m < low ==> Below(m, target)
      invariant high < bufferSize ==> !Below(high, target)
      invariant high == bufferSize && 1 <= bufferSize && ackRatio <= 1.0 ==> !Below(high, target)
      decreases high - low
    {
      var middle := low + (high - low) / 2;
      if Below(middle, target) {
        assert forall m: nat :: low <= m <= middle ==> Below(m, target);
        low := middle + 1;
      } else {
        high := middle;
      }
    }
    r := Ok(low);
  }

  lemma {:induction false} TargetWithinBuffer(bufferSize: nat, ackRatio: real)
    requires ackRatio <= 1.0
    ensures !Below(bufferSize, Target(bufferSize, ackRatio))
  {
  }

  // ---------------------------------------------------------------- whole runs

  datatype Credit = Credit(threshold: nat, pending: nat, acks: seq<nat>)

  function FlushedCredit(c: Credit, sends: nat): (Credit, Result<(), CreditError>) {
    var (sent, left) := Flushed(c.pending, sends);
    (c.(pending := left, acks := c.acks + sent), if left == 0 then Ok(()) else Err(SendFailed))
  }

  function Recorded(c: Credit, bytes: nat, sends: nat): (Credit, Result<(), CreditError>) {
    if c.pending + bytes > U64_MAX then (c, Err(LengthOverflow))
    else
      var d := c.(pending := c.pending + bytes);
      if d.pending >= d.threshold then FlushedCredit(d, sends) else (d, Ok(()))
  }

  /** A frame is recorded or the credit is flushed, over a connection that takes `sends` frames. */
  datatype CreditOp = RecordBytes(bytes: nat, sends: nat) | FlushAll(sends: nat)

  function Perform(c: Credit, op: CreditOp): Credit {
    match op
    case RecordBytes(bytes, sends) => Recorded(c, bytes, sends).0
    case FlushAll(sends) => FlushedCredit(c, sends).0
  }

  /** Bytes an operation adds; a refused record adds none. */
  function Received(c: Credit, op: CreditOp): nat {
    if op.RecordBytes? && c.pending + op.bytes <= U64_MAX then op.bytes else 0
  }

  function PerformAll(c: Credit, ops: seq<CreditOp>): Credit
    decreases |ops|
  {
    if ops == [] then c else PerformAll(Perform(c, ops[0]), ops[1..])
  }

  function TotalReceived(c: Credit, ops: seq<CreditOp>): nat
    decreases |ops|
  {
    if ops == [] then 0 else Received(c, ops[0]) + TotalReceived(Perform(c, ops[0]), ops[1..])
  }

  lemma {:induction false} PerformConserves(c: Credit, op: CreditOp)
    requires AcksInRange(c.acks)
    ensures Sum(Perform(c, op).acks) + Perform(c, op).pending == Sum(c.acks) + c.pending + Received(c, op)
    ensures AcksInRange(Perform(c, op).acks)
  {
    var d := if op.RecordBytes? then c.(pending := c.pending + Received(c, op)) else c;
    FlushConserves(d.pending, op.sends);
    SumConcat(c.acks, Flushed(d.pending, op.sends).0);
  }

  /** Conservation over every run, including connections that fail in the middle of a flush:
      acknowledged bytes plus pending bytes are the bytes received, and every
      acknowledgement is a nonzero 32-bit amount. */
  lemma {:induction false} CreditIsConserved(c: Credit, ops: seq<CreditOp>)
    requires AcksInRange(c.acks)
    ensures Sum(PerformAll(c, ops).acks) + PerformAll(c, ops).pending ==
            Sum(c.acks) + c.pending + TotalReceived(c, ops)
    ensures AcksInRange(PerformAll(c, ops).acks)
    decreases |ops|
  {
    if ops != [] {
      PerformConserves(c, ops[0]);
      CreditIsConserved(Perform(c, ops[0]), ops[1..]);
    }
  }

  /** After a successful record the backlog is below the threshold. */
  lemma {:induction false} BacklogStaysBelowThreshold(c: Credit, bytes: nat, sends: nat)
    requires 1 <= c.threshold
    ensures Recorded(c, bytes, sends).1.Ok? ==> Recorded(c, bytes, sends).0.pending < c.threshold
    ensures Recorded(c, bytes, sends).1 == Err(LengthOverflow) <==> c.pending + bytes > U64_MAX
  {
  }
}
