/** Pipelined requests over one connection: correlation tokens, responses, and everything else that arrives. */
module Transport {
  import opened Base
  import opened FrameCodec

  datatype TransportError = DuplicateToken | Closed

  // ---------------------------------------------------------------- tokens

  function Successor(token: nat): nat {
    Max((token + 1) % (U32_MAX + 1), 1)
  }

  predicate IsToken(token: nat) {
    1 <= token <= U32_MAX
  }

  /** How many allocations lead from one token to another, around the 32-bit space without zero. */
  function Distance(from: nat, to: nat): nat
    requires IsToken(from) && IsToken(to)
  {
    if to >= from then to - from else to + U32_MAX - from
  }

  lemma {:induction false} SuccessorIsNearer(token: nat, target: nat)
    requires IsToken(token) && IsToken(target) && token != target
    ensures IsToken(Successor(token))
    ensures Distance(Successor(token), target) == Distance(token, target) - 1
  {
  }

  /** Counted from any token, the successor comes next, until the count starts over. */
  lemma {:induction false} SuccessorIsNext(from: nat, token: nat)
    requires IsToken(from) && IsToken(token)
    ensures IsToken(Successor(token))
    ensures forall t :: IsToken(t) && Distance(from, t) < Distance(from, Successor(token)) ==>
              Distance(from, t) < Distance(from, token) || t == token
  {
  }

  lemma {:induction false} FreeToken(used: set<nat>, n: nat)
    requires |used| < n
    ensures exists f :: 1 <= f <= n && f !in used
    decreases n
  {
    if n in used {
      FreeToken(used - {n}, n - 1);
      var f :| 1 <= f <= n - 1 && f !in used - {n};
      assert f !in used;
    }
  }

  /** A set whose members all occur in a sequence is no larger than it. */
  lemma {:induction false} MembersFit(members: set<nat>, s: seq<nat>)
    requires forall t <- members :: t in s
    ensures |members| <= |s|
    decreases |s|
  {
    if s == [] {
      assert members == {};
    } else {
      var last := s[|s| - 1];
      assert s == s[..|s| - 1] + [last];
      MembersFit(members - {last}, s[..|s| - 1]);
      assert |members| <= |members - {last}| + 1 by {
        if last in members {
          assert members == members - {last} + {last};
        } else {
          assert members == members - {last};
        }
      }
    }
  }

  function Tokens(frames: seq<Frame>): (r: seq<nat>)
    ensures |r| == |frames|
    ensures forall i :: 0 <= i < |r| ==> r[i] == frames[i].token
  {
    seq(|frames|, i requires 0 <= i < |frames| => frames[i].token as nat)
  }

  lemma {:induction false} WaitingFits(waiting: map<nat, nat>, frames: seq<Frame>, i: nat)
    requires Indexes(waiting, frames) && i < |frames| && frames[i].token == 0
    ensures |waiting.Keys| < |frames|
  {
    var others := Tokens(frames[..i] + frames[i + 1..]);
    forall t <- waiting.Keys ensures t in others {
      var k := waiting[t];
      if k < i {
        assert others[k] == t;
      } else {
        assert others[k - 1] == t;
      }
    }
    MembersFit(waiting.Keys, others);
  }

  // ---------------------------------------------------------------- correlation

  predicate Responds(frame: Frame, token: nat) {
    frame.magic.IsResponse() && frame.token == token
  }

  /** Some response with this token is among the first `count` frames. */
  predicate Answered(frames: seq<Frame>, count: nat, token: nat)
    requires count <= |frames|
  {
    exists k :: 0 <= k < count && Responds(frames[k], token)
  }

  /** Frame `k` is the first response to a request of the batch. */
  predicate IsAnswer(tokens: set<nat>, frames: seq<Frame>, k: nat)
    requires k < |frames|
  {
    frames[k].magic.IsResponse() && frames[k].token in tokens && !Answered(frames, k, frames[k].token)
  }

  /** The frames among the first `count` that answer nothing, in arrival order. */
  function Queued(tokens: set<nat>, frames: seq<Frame>, count: nat): seq<Frame>
    requires count <= |frames|
  {
    if count == 0 then []
    else if IsAnswer(tokens, frames, count - 1) then Queued(tokens, frames, count - 1)
    else Queued(tokens, frames, count - 1) + [frames[count - 1]]
  }

  /** `response` is the first frame to answer `token`. */
  ghost predicate AnsweredBy(frames: seq<Frame>, count: nat, token: nat, response: Frame)
    requires count <= |frames|
  {
    exists k :: 0 <= k < count && frames[k] == response && Responds(frames[k], token) && !Answered(frames, k, token)
  }

  /** The batch as it goes out: explicit tokens kept, the rest filled in, none zero and none repeated. */
  predicate Tagged(requests: seq<Frame>, tagged: seq<Frame>) {
    && |tagged| == |requests|
    && (forall i :: 0 <= i < |tagged| ==>
         && tagged[i] == requests[i].(token := tagged[i].token)
         && (requests[i].token != 0 ==> tagged[i] == requests[i])
         && tagged[i].token != 0)
    && (forall i, j :: 0 <= i < j < |tagged| ==> tagged[i].token != tagged[j].token)
  }

  predicate Repeats(requests: seq<Frame>) {
    exists i, j :: 0 <= i < j < |requests| && requests[i].token == requests[j].token != 0
  }

  function TokenSet(frames: seq<Frame>): set<nat> {
    set f <- frames :: f.token as nat
  }

  /** `waiting` gives the position of every nonzero token. */
  predicate Indexes(waiting: map<nat, nat>, frames: seq<Frame>) {
    && (forall i :: 0 <= i < |frames| && frames[i].token != 0 ==>
         frames[i].token in waiting && waiting[frames[i].token] == i)
    && (forall t <- waiting :: waiting[t] < |frames| && frames[waiting[t]].token == t && t != 0)
  }

  class KvConnection {
    /** Frames set aside while waiting for a response. */
    var pending: seq<Frame>
    var nextToken: nat
    /** What the peer still sends before it closes, and what was sent to it. */
    var inbound: seq<Frame>
    var sent: seq<Frame>

    predicate Valid()
      reads this
    {
      IsToken(nextToken)
    }

    constructor (arriving: seq<Frame>)
      ensures Valid() && pending == [] && nextToken == 1 && inbound == arriving && sent == []
    {
      pending, nextToken, inbound, sent := [], 1, arriving, [];
    }

    method ReadRaw() returns (r: Result<Frame, TransportError>)
      modifies this`inbound
      ensures r.Err? <==> old(inbound) == []
      ensures r.Err? ==> r == Err(Closed) && inbound == old(inbound)
      ensures r.Ok? ==> old(inbound) == [r.value] + inbound
    {
      if inbound == [] {
        return Err(Closed);
      }
      r := Ok(inbound[0]);
      inbound := inbound[1..];
    }

    /** Frames that were set aside come first, in the order they arrived. */
    method ReceiveFrame() returns (r: Result<Frame, TransportError>)
      modifies this`pending, this`inbound
      ensures match r
              case Ok(frame) => old(pending + inbound) == [frame] + (pending + inbound)
              case Err(_) => old(pending + inbound) == [] == pending + inbound
    {
      if pending != [] {
        r := Ok(pending[0]);
        pending := pending[1..];
      } else {
        r := ReadRaw();
      }
    }

    method AllocateToken() returns (token: nat)
      requires Valid()
      modifies this`nextToken
      ensures token == old(nextToken) && IsToken(token) && nextToken == Successor(token) && Valid()
    {
      token := nextToken;
      nextToken := Max((nextToken + 1) % (U32_MAX + 1), 1);
    }

    /** The first token, from the next one on, that no request of the batch uses. */
    method AllocateUnused(waiting: map<nat, nat>) returns (token: nat)
      requires Valid() && |waiting.Keys| < U32_MAX
      modifies this`nextToken
      ensures IsToken(token) && token !in waiting && Valid()
      ensures forall t :: IsToken(t) && Distance(old(nextToken), t) < Distance(old(nextToken), token) ==> t in waiting
    {
      FreeToken(waiting.Keys, U32_MAX);
      ghost var free :| IsToken(free) && free !in waiting;
      token := AllocateToken();
      while token in waiting
        invariant IsToken(token) && nextToken == Successor(token) && Valid()
        invariant forall t :: IsToken(t) && Distance(old(nextToken), t) < Distance(old(nextToken), token) ==>
                    t in waiting
        decreases Distance(token, free)
      {
        SuccessorIsNearer(token, free);
        SuccessorIsNext(old(nextToken), token);
        token := AllocateToken();
      }
    }

    method AssignTokens(requests: seq<Frame>) returns (r: Result<seq<Frame>, TransportError>, waiting: map<nat, nat>)
      requires Valid() && |requests| <= U32_MAX
      modifies this`nextToken
      ensures Valid()
      ensures r.Err? <==> Repeats(requests)
      ensures r.Err? ==> r == Err(DuplicateToken) && nextToken == old(nextToken)
      ensures r.Ok? ==> Tagged(requests, r.value) && Indexes(waiting, r.value)
    {
      waiting := map[];
      var i := 0;
      while i < |requests|
        invariant 0 <= i <= |requests|
        invariant Indexes(waiting, requests[..i])
      {
        var token := requests[i].token;
        assert requests[..i + 1] == requests[..i] + [requests[i]];
        if token != 0 {
          if token in waiting {
            assert requests[waiting[token]].token == requests[i].token != 0;
            return Err(DuplicateToken), waiting;
          }
          waiting := waiting[token as nat := i];
        }
        i := i + 1;
      }
      assert requests[..i] == requests;
      assert !Repeats(requests);
      var tagged: seq<Frame>;
      tagged, waiting := FillTokens(requests, waiting);
      r := Ok(tagged);
    }

    method FillTokens(requests: seq<Frame>, explicit: map<nat, nat>) returns (tagged: seq<Frame>,
                      waiting: map<nat, nat>)
      requires Valid() && |requests| <= U32_MAX && Indexes(explicit, requests)
      modifies this`nextToken
      ensures Valid() && Tagged(requests, tagged) && Indexes(waiting, tagged)
    {
      tagged, waiting := requests, explicit;
      var i := 0;
      while i < |requests|
        invariant 0 <= i <= |requests| == |tagged| && Valid()
        invariant Indexes(waiting, tagged)
        invariant forall k :: i <= k < |tagged| ==> tagged[k] == requests[k]
        invariant forall k :: 0 <= k < i ==>
                    && tagged[k] == requests[k].(token := tagged[k].token) && tagged[k].token != 0
                    && (requests[k].token != 0 ==> tagged[k] == requests[k])
      {
        if tagged[i].token == 0 {
          WaitingFits(waiting, tagged, i);
          var token := AllocateUnused(waiting);
          tagged := tagged[i := tagged[i].(token := token)];
          waiting := waiting[token := i];
        }
        i := i + 1;
      }
    }

    method Exchange(tagged: seq<Frame>, index: map<nat, nat>) returns (r: Result<seq<Frame>, TransportError>)
      requires Tagged(tagged, tagged) && Indexes(index, tagged)
      modifies this`pending, this`inbound, this`sent
      ensures sent == old(sent) + tagged
      ensures |inbound| <= |old(inbound)|
      ensures var count := |old(inbound)| - |inbound|;
              && inbound == old(inbound)[count..]
              && pending == old(pending) + Queued(TokenSet(tagged), old(inbound), count)
              && (r.Ok? ==> Correlated(tagged, old(inbound), count, r.value))
              && (r.Err? ==> r == Err(Closed) && Unfinished(tagged, old(inbound), count))
    {
      sent := sent + tagged;
      var responses, queued, count := Collect(inbound, tagged, index);
      pending := pending + queued;
      inbound := inbound[count..];
      r := if responses.Some? then Ok(responses.value) else Err(Closed);
    }

    /**
     * On completion the response at each place answers the request there, the tokens sent are
     * distinct and nonzero, and every other frame that arrived was set aside once, in order.
     */
    method RequestBatch(requests: seq<Frame>) returns (r: Result<seq<Frame>, TransportError>)
      requires Valid() && |requests| <= U32_MAX
      modifies this
      ensures Valid()
      ensures r == Err(DuplicateToken) <==> Repeats(requests)
      ensures Repeats(requests) ==>
              nextToken == old(nextToken) && sent == old(sent) && pending == old(pending) && inbound == old(inbound)
      ensures !Repeats(requests) ==>
              && |old(sent)| <= |sent| && sent[..|old(sent)|] == old(sent)
              && var tagged := sent[|old(sent)|..];
              && Tagged(requests, tagged) && |inbound| <= |old(inbound)|
              && var count := |old(inbound)| - |inbound|;
              && inbound == old(inbound)[count..]
              && pending == old(pending) + Queued(TokenSet(tagged), old(inbound), count)
              && (r.Ok? ==> Correlated(tagged, old(inbound), count, r.value))
              && (r.Err? ==> Unfinished(tagged, old(inbound), count))
    {
      var tagged, waiting := AssignTokens(requests);
      if tagged.Err? {
        return Err(DuplicateToken);
      }
      r := Exchange(tagged.value, waiting);
      assert sent[|old(sent)|..] == tagged.value;
    }

    /** One request: the first response with its token, with everything before it set aside in order. */
    method Request(request: Frame) returns (r: Result<Frame, TransportError>)
      requires Valid()
      modifies this
      ensures Valid() && |sent| == |old(sent)| + 1 && sent[..|old(sent)|] == old(sent)
      ensures var token := sent[|old(sent)|].token;
              && sent[|old(sent)|] == request.(token := token) && token != 0
              && (request.token != 0 ==> token == request.token && nextToken == old(nextToken))
              && match r
                 case Err(_) =>
                   inbound == [] && pending == old(pending) + old(inbound)
                   && !Answered(old(inbound), |old(inbound)|, token)
                 case Ok(frame) =>
                   && |pending| >= |old(pending)|
                   && var before := pending[|old(pending)|..];
                   && pending == old(pending) + before
                   && old(inbound) == before + [frame] + inbound
                   && Responds(frame, token) && !Answered(before, |before|, token)
    {
      var tagged := request;
      if tagged.token == 0 {
        var token := AllocateToken();
        tagged := tagged.(token := token);
      }
      sent := sent + [tagged];
      ghost var before: seq<Frame> := [];
      while true
        invariant Valid() && sent == old(sent) + [tagged]
        invariant nextToken == if request.token == 0 then Successor(old(nextToken)) else old(nextToken)
        invariant pending == old(pending) + before && old(inbound) == before + inbound
        invariant !Answered(before, |before|, tagged.token)
        decreases |inbound|
      {
        var frame := ReadRaw();
        if frame.Err? {
          assert before + [] == before;
          return Err(Closed);
        }
        assert old(inbound) == before + [frame.value] + inbound;
        if Responds(frame.value, tagged.token) {
          assert pending[|old(pending)|..] == before;
          return Ok(frame.value);
        }
        pending := pending + [frame.value];
        ghost var longer := before + [frame.value];
        assert forall k :: 0 <= k < |before| ==> longer[k] == before[k];
        before := longer;
      }
    }
  }

  predicate EndsInAnswer(tokens: set<nat>, frames: seq<Frame>, count: nat) {
    0 < count <= |frames| && IsAnswer(tokens, frames, count - 1)
  }

  /** Response `i` is the first answer to request `i`, and the last frame read was such an answer. */
  ghost predicate Correlated(tagged: seq<Frame>, frames: seq<Frame>, count: nat, responses: seq<Frame>)
    requires count <= |frames|
  {
    && |responses| == |tagged|
    && (forall i :: 0 <= i < |tagged| ==> AnsweredBy(frames, count, tagged[i].token, responses[i]))
    && (count > 0 ==> EndsInAnswer(TokenSet(tagged), frames, count))
  }

  /** Everything has arrived, and some request is still unanswered. */
  ghost predicate Unfinished(tagged: seq<Frame>, frames: seq<Frame>, count: nat) {
    count == |frames| && exists i :: 0 <= i < |tagged| && !Answered(frames, count, tagged[i].token)
  }

  /**
   * Reads frames until every request of the batch is answered: each response goes to its request's
   * place, and everything else is set aside.
   */
  method Collect(frames: seq<Frame>, tagged: seq<Frame>, index: map<nat, nat>)
    returns (responses: Option<seq<Frame>>, queued: seq<Frame>, count: nat)
    requires Tagged(tagged, tagged) && Indexes(index, tagged)
    ensures count <= |frames| && queued == Queued(TokenSet(tagged), frames, count)
    ensures responses.Some? ==> Correlated(tagged, frames, count, responses.value)
    ensures responses.None? ==> Unfinished(tagged, frames, count)
  {
    var slots: seq<Option<Frame>> := seq(|tagged|, _ => None);
    var waiting: map<nat, nat> := index;
    queued, count := [], 0;
    while waiting != map[]
      invariant count <= |frames| && |slots| == |tagged|
      invariant queued == Queued(TokenSet(tagged), frames, count)
      invariant Waits(index, waiting, frames, count) && Fills(tagged, waiting, slots, frames, count)
      invariant count > 0 && waiting == map[] ==> EndsInAnswer(TokenSet(tagged), frames, count)
      decreases |frames| - count
    {
      if count == |frames| {
        StillWaiting(tagged, index, waiting, frames, count);
        return None, queued, count;
      }
      var frame := frames[count];
      if frame.magic.IsResponse() && frame.token in waiting {
        TakesAnswer(tagged, index, waiting, slots, frames, count);
        slots := slots[waiting[frame.token] := Some(frame)];
        waiting := waiting - {frame.token as nat};
      } else {
        TakesOther(tagged, index, waiting, slots, frames, count);
        queued := queued + [frame];
      }
      count := count + 1;
    }
    responses := Some(seq(|slots|, i requires 0 <= i < |slots| && slots[i].Some? => slots[i].value));
  }

  /** The tokens still waited for are those not answered yet. */
  ghost predicate Waits(index: map<nat, nat>, waiting: map<nat, nat>, frames: seq<Frame>, count: nat)
    requires count <= |frames|
  {
    && (forall t :: t in waiting <==> t in index && !Answered(frames, count, t))
    && (forall t <- waiting :: t in index && waiting[t] == index[t])
  }

  /** The place of every request no longer waited for holds its answer. */
  ghost predicate Fills(tagged: seq<Frame>, waiting: map<nat, nat>, slots: seq<Option<Frame>>, frames: seq<Frame>,
                        count: nat)
    requires count <= |frames| && |slots| == |tagged|
  {
    forall i :: 0 <= i < |tagged| && tagged[i].token !in waiting ==>
      slots[i].Some? && AnsweredBy(frames, count, tagged[i].token, slots[i].value)
  }

  lemma {:induction false} AnsweredStep(frames: seq<Frame>, count: nat, token: nat)
    requires count < |frames|
    ensures Answered(frames, count + 1, token) <==> Answered(frames, count, token) || Responds(frames[count], token)
  {
  }

  lemma {:induction false} TokensAreIndexed(tagged: seq<Frame>, index: map<nat, nat>)
    requires Tagged(tagged, tagged) && Indexes(index, tagged)
    ensures forall t :: t in TokenSet(tagged) <==> t in index
  {
    forall t ensures t in TokenSet(tagged) <==> t in index {
      if t in index {
        assert tagged[index[t]] in tagged;
      }
    }
  }

  lemma {:induction false} StillWaiting(tagged: seq<Frame>, index: map<nat, nat>, waiting: map<nat, nat>,
                                        frames: seq<Frame>, count: nat)
    requires count == |frames| && Indexes(index, tagged) && Waits(index, waiting, frames, count) && waiting != map[]
    ensures Unfinished(tagged, frames, count)
  {
    var t :| t in waiting;
    assert tagged[index[t]].token == t;
  }

  lemma {:induction false} AnswersLast(frames: seq<Frame>, count: nat, token: nat, response: Frame)
    requires count < |frames| && AnsweredBy(frames, count, token, response)
    ensures AnsweredBy(frames, count + 1, token, response)
  {
  }

  lemma {:induction false} TakesAnswer(tagged: seq<Frame>, index: map<nat, nat>, waiting: map<nat, nat>,
                                       slots: seq<Option<Frame>>, frames: seq<Frame>, count: nat)
    requires count < |frames| && |slots| == |tagged| && Tagged(tagged, tagged) && Indexes(index, tagged)
    requires Waits(index, waiting, frames, count) && Fills(tagged, waiting, slots, frames, count)
    requires frames[count].magic.IsResponse() && frames[count].token in waiting
    ensures EndsInAnswer(TokenSet(tagged), frames, count + 1)
    ensures Queued(TokenSet(tagged), frames, count + 1) == Queued(TokenSet(tagged), frames, count)
    ensures waiting[frames[count].token] < |slots|
    ensures Waits(index, waiting - {frames[count].token as nat}, frames, count + 1)
    ensures Fills(tagged, waiting - {frames[count].token as nat},
                  slots[waiting[frames[count].token] := Some(frames[count])], frames, count + 1)
  {
    var f := frames[count];
    var token: nat := f.token;
    TokensAreIndexed(tagged, index);
    forall t ensures Answered(frames, count + 1, t) <==> Answered(frames, count, t) || Responds(f, t) {
      AnsweredStep(frames, count, t);
    }
    assert Waits(index, waiting - {token}, frames, count + 1);
    assert Responds(frames[count], token) && AnsweredBy(frames, count + 1, token, f);
    var next := slots[waiting[token] := Some(f)];
    forall i | 0 <= i < |tagged| && tagged[i].token !in waiting - {token}
      ensures next[i].Some? && AnsweredBy(frames, count + 1, tagged[i].token, next[i].value)
    {
      if tagged[i].token != token {
        AnswersLast(frames, count, tagged[i].token, slots[i].value);
      }
    }
  }

  lemma {:induction false} TakesOther(tagged: seq<Frame>, index: map<nat, nat>, waiting: map<nat, nat>,
                                      slots: seq<Option<Frame>>, frames: seq<Frame>, count: nat)
    requires count < |frames| && |slots| == |tagged| && Tagged(tagged, tagged) && Indexes(index, tagged)
    requires Waits(index, waiting, frames, count) && Fills(tagged, waiting, slots, frames, count)
    requires !(frames[count].magic.IsResponse() && frames[count].token in waiting)
    ensures Queued(TokenSet(tagged), frames, count + 1) == Queued(TokenSet(tagged), frames, count) + [frames[count]]
    ensures Waits(index, waiting, frames, count + 1) && Fills(tagged, waiting, slots, frames, count + 1)
  {
    TokensAreIndexed(tagged, index);
    forall t ensures Answered(frames, count + 1, t) <==> Answered(frames, count, t) || Responds(frames[count], t) {
      AnsweredStep(frames, count, t);
    }
    forall i | 0 <= i < |tagged| && tagged[i].token !in waiting
      ensures AnsweredBy(frames, count + 1, tagged[i].token, slots[i].value)
    {
      AnswersLast(frames, count, tagged[i].token, slots[i].value);
    }
  }

  // ---------------------------------------------------------------- conservation

  /** The tokens of the batch answered by the first `count` frames. */
  ghost function AnsweredTokens(tokens: set<nat>, frames: seq<Frame>, count: nat): set<nat>
    requires count <= |frames|
  {
    set t | t in tokens && Answered(frames, count, t)
  }

  /** Every frame read either answers one request of the batch or is set aside; none does both. */
  lemma {:induction false} FramesAreConserved(tokens: set<nat>, frames: seq<Frame>, count: nat)
    requires count <= |frames|
    ensures |Queued(tokens, frames, count)| + |AnsweredTokens(tokens, frames, count)| == count
  {
    if count == 0 {
      assert AnsweredTokens(tokens, frames, 0) == {};
    } else {
      FramesAreConserved(tokens, frames, count - 1);
      var f := frames[count - 1];
      var before, after := AnsweredTokens(tokens, frames, count - 1), AnsweredTokens(tokens, frames, count);
      forall t ensures Answered(frames, count, t) <==> Answered(frames, count - 1, t) || Responds(f, t) {
        AnsweredStep(frames, count - 1, t);
      }
      if IsAnswer(tokens, frames, count - 1) {
        assert after == before + {f.token as nat};
      } else {
        assert after == before;
      }
    }
  }
}
