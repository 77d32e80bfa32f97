/**
  Opening one vBucket stream: resolving the start against the producer's failover log, and
  the loop that rewinds and asks again while the producer answers "roll back".
  */
module Rollback {
  import opened Base
  import opened Checkpoints
  import opened StreamRequests

  const MAX_ROLLBACK_ATTEMPTS: nat := 16

  datatype FailoverEntry = FailoverEntry(vbucketUuid: nat, seqno: nat)
  datatype Mode = Finite | Infinite
  datatype StartPosition = FromEarliest | FromLatest | FromCheckpoint(checkpoint: Checkpoint)
  datatype Action = StopAndReport | RewindAndReplay
  datatype Policy = Stop | Rewind | Delegate

  /** A resolved request; `strict` is the STRICT_VBUUID flag. */
  datatype Request = Request(
    checkpoint: Checkpoint,
    endSeqno: nat,
    strict: bool,
    filter: Option<StreamFilter>)

  datatype OpenError =
    | EmptyFailoverLog
    | WrongVBucket
    | BadCheckpoint
    | WrongBucket
    | ZeroStreamId
    | RollbackRequired(requested: nat, rollback: nat, log: seq<FailoverEntry>)
    | EndBehindStart
    | NoCoveringBranch
    | NotEncodable
    | TransportFailed
    | HandlerFailed
    | TooManyRollbacks
    | RollbackNotBehind

  // ---------------------------------------------------------------- resolving a start

  function Requested(vbucket: nat, start: StartPosition, high: nat): Checkpoint {
    match start
    case FromEarliest => Earliest(vbucket)
    case FromLatest => Earliest(vbucket).(seqno := high, snapshotStart := high, snapshotEnd := high)
    case FromCheckpoint(c) => c
  }

  function Identified(c: Checkpoint, bucketUuid: Option<string>, newest: FailoverEntry): Checkpoint {
    c.(bucketUuid := if c.bucketUuid.None? then bucketUuid else c.bucketUuid,
       vbucketUuid := if c.vbucketUuid == 0 then newest.vbucketUuid else c.vbucketUuid)
  }

  function Resolve(vbucket: nat, bucketUuid: Option<string>, start: StartPosition, mode: Mode, high: nat,
                   log: seq<FailoverEntry>, filter: Option<StreamFilter>): Result<Request, OpenError>
  {
    if log == [] then Err(EmptyFailoverLog)
    else
      var c := Requested(vbucket, start, high);
      if c.vbucket != vbucket then Err(WrongVBucket)
      else if !c.Valid() then Err(BadCheckpoint)
      else if bucketUuid.Some? && c.bucketUuid.Some? && bucketUuid != c.bucketUuid then Err(WrongBucket)
      else
        var id := Identified(c, bucketUuid, log[0]);
        if id.seqno > high then Err(RollbackRequired(id.seqno, high, log))
        else if filter.Some? && filter.value.streamId == Some(0) then Err(ZeroStreamId)
        else
          Ok(Request(id,
                     if mode.Finite? then high else U64_MAX,
                     start.FromCheckpoint? && id.seqno == 0,
                     if filter.Some? then Some(filter.value.(manifestUid := id.manifestUid)) else None))
  }

  function Freeze(request: Request, end: Option<nat>): Result<Request, OpenError> {
    if end.None? then Ok(request)
    else if end.value < request.checkpoint.seqno then Err(EndBehindStart)
    else Ok(request.(endSeqno := end.value))
  }

  /** Index of the first branch that covers `seqno`, or the length of the log. */
  function CoveringFrom(log: seq<FailoverEntry>, seqno: nat, from: nat): (i: nat)
    requires from <= |log|
    ensures from <= i <= |log|
    ensures i < |log| ==> log[i].seqno <= seqno
    ensures forall j :: from <= j < i ==> seqno < log[j].seqno
    decreases |log| - from
  {
    if from == |log| || log[from].seqno <= seqno then from else CoveringFrom(log, seqno, from + 1)
  }

  function Covering(log: seq<FailoverEntry>, seqno: nat): Option<FailoverEntry> {
    var i := CoveringFrom(log, seqno, 0);
    if i < |log| then Some(log[i]) else None
  }

  function RewindCheckpoint(c: Checkpoint, branch: FailoverEntry, seqno: nat): Checkpoint {
    c.(vbucketUuid := branch.vbucketUuid, seqno := seqno, snapshotStart := seqno, snapshotEnd := seqno,
       manifestUid := None)
  }

  function RewindRequest(request: Request, seqno: nat, branch: FailoverEntry): Request {
    request.(checkpoint := RewindCheckpoint(request.checkpoint, branch, seqno),
             filter := if request.filter.Some? then Some(request.filter.value.(manifestUid := None)) else None)
  }

  function Decide(policy: Policy, handler: Option<Action>): Option<Action> {
    match policy
    case Stop => Some(StopAndReport)
    case Rewind => Some(RewindAndReplay)
    case Delegate => handler
  }

  /** The producer's state while one vBucket is being opened. */
  datatype Environment = Environment(
    mode: Mode,
    high: nat,
    log: seq<FailoverEntry>,
    filter: Option<StreamFilter>,
    policy: Policy,
    preflight: Option<Action>,
    frozenEnd: Option<nat>,
    rounds: seq<Round>)

  /** Resolves a start, rewinding once to the high seqno when the start lies beyond it. */
  function ResolveStart(vbucket: nat, bucketUuid: string, start: StartPosition, env: Environment)
    : Result<Request, OpenError>
  {
    match Resolve(vbucket, Some(bucketUuid), start, env.mode, env.high, env.log, env.filter)
    case Ok(request) => Freeze(request, env.frozenEnd)
    case Err(error) =>
      if !error.RollbackRequired? || !start.FromCheckpoint? then Err(error)
      else
        match Decide(env.policy, env.preflight)
        case None => Err(HandlerFailed)
        case Some(StopAndReport) => Err(error)
        case Some(RewindAndReplay) =>
          match Covering(env.log, error.rollback)
          case None => Err(NoCoveringBranch)
          case Some(branch) =>
            var rejected := Identified(start.checkpoint, Some(bucketUuid), env.log[0]);
            var rewound := RewindCheckpoint(rejected, branch, error.rollback);
            var request :- Resolve(vbucket, Some(bucketUuid), FromCheckpoint(rewound), env.mode, env.high,
                                   env.log, env.filter);
            Freeze(request, env.frozenEnd)
  }

  // ---------------------------------------------------------------- the open loop

  datatype Reply = Opened(entries: seq<FailoverEntry>) | RollBack(seqno: nat) | Failed

  /** One exchange: the reply, the failover log fetched after a rollback, the handler's choice. */
  datatype Round = Round(reply: Reply, log: Option<seq<FailoverEntry>>, handler: Option<Action>)

  datatype RollbackApplied = RollbackApplied(requested: nat, rollback: nat, vbucketUuid: nat)

  datatype OpenState = OpenState(effective: Checkpoint, endSeqno: nat, rollbacks: seq<RollbackApplied>)

  function WireOf(request: Request): WireRequest {
    WireRequest(request.checkpoint.vbucketUuid, request.checkpoint.seqno, request.endSeqno,
                request.checkpoint.snapshotStart, request.checkpoint.snapshotEnd, request.filter)
  }

  /** The request for the next round, or why the loop stops with an error. */
  function AfterRollBack(request: Request, policy: Policy, round: Round, attempts: nat)
    : Result<Request, OpenError>
    requires round.reply.RollBack?
  {
    var seqno := round.reply.seqno;
    if attempts + 1 > MAX_ROLLBACK_ATTEMPTS then Err(TooManyRollbacks)
    else if seqno >= request.checkpoint.seqno then Err(RollbackNotBehind)
    else if round.log.None? then Err(TransportFailed)
    else
      match Decide(policy, round.handler)
      case None => Err(HandlerFailed)
      case Some(StopAndReport) => Err(RollbackRequired(request.checkpoint.seqno, seqno, round.log.value))
      case Some(RewindAndReplay) =>
        match Covering(round.log.value, seqno)
        case None => Err(NoCoveringBranch)
        case Some(branch) => Ok(RewindRequest(request, seqno, branch))
  }

  /** What the loop returns from its head with `request` after the rewinds `done`. */
  function OpenFrom(request: Request, policy: Policy, rounds: seq<Round>, done: seq<RollbackApplied>)
    : Result<OpenState, OpenError>
    requires |done| <= MAX_ROLLBACK_ATTEMPTS
    decreases MAX_ROLLBACK_ATTEMPTS - |done|
  {
    if !WireEncodes(WireOf(request)) then Err(NotEncodable)
    else if |rounds| <= |done| then Err(TransportFailed)
    else
      var round := rounds[|done|];
      match round.reply
      case Failed => Err(TransportFailed)
      case Opened(entries) =>
        if entries == [] then Err(EmptyFailoverLog)
        else Ok(OpenState(request.checkpoint.(vbucketUuid := entries[0].vbucketUuid), request.endSeqno, done))
      case RollBack(seqno) =>
        match AfterRollBack(request, policy, round, |done|)
        case Err(error) => Err(error)
        case Ok(next) =>
          OpenFrom(next, policy, rounds,
                   done + [RollbackApplied(request.checkpoint.seqno, seqno, next.checkpoint.vbucketUuid)])
  }

  /** The rewind loop: it stops for every producer, after at most sixteen rewinds. */
  method OpenPartition(initial: Request, policy: Policy, rounds: seq<Round>)
    returns (r: Result<OpenState, OpenError>)
    ensures r == OpenFrom(initial, policy, rounds, [])
  {
    var request := initial;
    var rollbacks: seq<RollbackApplied> := [];
    var attempts := 0;
    while true
      invariant attempts == |rollbacks| <= MAX_ROLLBACK_ATTEMPTS
      invariant OpenFrom(initial, policy, rounds, []) == OpenFrom(request, policy, rounds, rollbacks)
      decreases MAX_ROLLBACK_ATTEMPTS - attempts
    {
      if !WireEncodes(WireOf(request)) {
        return Err(NotEncodable);
      }
      if |rounds| <= attempts {
        return Err(TransportFailed);
      }
      var round := rounds[attempts];
      match round.reply
      case Failed =>
        return Err(TransportFailed);
      case Opened(entries) =>
        if entries == [] {
          return Err(EmptyFailoverLog);
        }
        return Ok(OpenState(request.checkpoint.(vbucketUuid := entries[0].vbucketUuid),
                            request.endSeqno, rollbacks));
      case RollBack(seqno) =>
        if attempts + 1 > MAX_ROLLBACK_ATTEMPTS {
          return Err(TooManyRollbacks);
        }
        if seqno >= request.checkpoint.seqno {
          return Err(RollbackNotBehind);
        }
        if round.log.None? {
          return Err(TransportFailed);
        }
        var action := Decide(policy, round.handler);
        if action.None? {
          return Err(HandlerFailed);
        }
        if action.value.StopAndReport? {
          return Err(RollbackRequired(request.checkpoint.seqno, seqno, round.log.value));
        }
        var requested := request.checkpoint.seqno;
        var branch := FindBranch(round.log.value, seqno);
        if branch.None? {
          return Err(NoCoveringBranch);
        }
        request := RewindRequest(request, seqno, branch.value);
        rollbacks := rollbacks + [RollbackApplied(requested, seqno, branch.value.vbucketUuid)];
        attempts := attempts + 1;
    }
  }

  method FindBranch(log: seq<FailoverEntry>, seqno: nat) returns (r: Option<FailoverEntry>)
    ensures r == Covering(log, seqno)
  {
    var i := 0;
    while i < |log| && log[i].seqno > seqno
      invariant 0 <= i <= |log|
      invariant CoveringFrom(log, seqno, 0) == CoveringFrom(log, seqno, i)
    {
      i := i + 1;
    }
    r := if i < |log| then Some(log[i]) else None;
  }

  // ---------------------------------------------------------------- what the loop guarantees

  /** Each rewind starts where the one before it ended and goes strictly back, to the first
      branch of that round's log that covers it. */
  ghost predicate RewindChain(from: nat, rollbacks: seq<RollbackApplied>, rounds: seq<Round>) {
    && |rollbacks| <= |rounds|
    && forall j :: 0 <= j < |rollbacks| ==>
         RewindsFrom(ChainEnd(from, rollbacks[..j]), rollbacks[j], rounds[j])
  }

  ghost predicate RewindsFrom(from: nat, applied: RollbackApplied, round: Round) {
    && applied.requested == from
    && applied.rollback < from
    && round.reply == RollBack(applied.rollback)
    && round.log.Some?
    && Covering(round.log.value, applied.rollback).Some?
    && Covering(round.log.value, applied.rollback).value.vbucketUuid == applied.vbucketUuid
  }

  function ChainEnd(from: nat, rollbacks: seq<RollbackApplied>): nat {
    if rollbacks == [] then from else rollbacks[|rollbacks| - 1].rollback
  }

  /** Facts about a request that every rewind keeps. */
  ghost predicate Sendable(request: Request) {
    && request.checkpoint.Valid()
    && request.checkpoint.seqno <= request.endSeqno
    && (request.filter.Some? ==> FilterEncodes(request.filter.value))
  }

  lemma {:induction false} SendableEncodes(request: Request)
    requires Sendable(request)
    ensures WireEncodes(WireOf(request))
  {
  }

  lemma {:induction false} RewindStaysSendable(request: Request, policy: Policy, round: Round, attempts: nat)
    requires Sendable(request) && round.reply.RollBack?
    requires AfterRollBack(request, policy, round, attempts).Ok?
    ensures var next := AfterRollBack(request, policy, round, attempts).value;
            && Sendable(next)
            && next.endSeqno == request.endSeqno
            && next.checkpoint.seqno == round.reply.seqno < request.checkpoint.seqno
            && next.checkpoint.vbucket == request.checkpoint.vbucket
            && next.checkpoint.bucketUuid == request.checkpoint.bucketUuid
  {
  }

  lemma {:induction false} RollBackRewinds(request: Request, policy: Policy, round: Round, attempts: nat)
    requires round.reply.RollBack? && AfterRollBack(request, policy, round, attempts).Ok?
    ensures var next := AfterRollBack(request, policy, round, attempts).value;
            var applied := RollbackApplied(request.checkpoint.seqno, round.reply.seqno, next.checkpoint.vbucketUuid);
            RewindsFrom(request.checkpoint.seqno, applied, round)
  {
  }

  lemma {:induction false} ChainGrows(from: nat, done: seq<RollbackApplied>, rounds: seq<Round>,
                                      applied: RollbackApplied)
    requires RewindChain(from, done, rounds) && |done| < |rounds|
    requires RewindsFrom(ChainEnd(from, done), applied, rounds[|done|])
    ensures RewindChain(from, done + [applied], rounds)
  {
    var longer := done + [applied];
    forall j | 0 <= j < |longer| ensures RewindsFrom(ChainEnd(from, longer[..j]), longer[j], rounds[j]) {
      if j < |done| {
        assert longer[..j] == done[..j];
        assert RewindsFrom(ChainEnd(from, done[..j]), done[j], rounds[j]);
      } else {
        assert longer[..j] == done;
      }
    }
  }

  /** What a successful open keeps of the request it began with. */
  ghost predicate OpensWithin(from: nat, request: Request, rounds: seq<Round>, done: seq<RollbackApplied>,
                              open: OpenState)
  {
    && |open.rollbacks| <= MAX_ROLLBACK_ATTEMPTS
    && done <= open.rollbacks
    && RewindChain(from, open.rollbacks, rounds)
    && open.effective.seqno == ChainEnd(from, open.rollbacks)
    && open.effective.seqno <= request.checkpoint.seqno
    && open.endSeqno == request.endSeqno
    && open.effective.Valid()
    && open.effective.vbucket == request.checkpoint.vbucket
    && open.effective.bucketUuid == request.checkpoint.bucketUuid
  }

  /** For every producer: at most sixteen rewinds in a strictly decreasing chain, the same
      end, the effective start at the end of the chain, and never a request that fails
      its own bound or filter checks. */
  lemma {:induction false} OpenLoopChain(from: nat, request: Request, policy: Policy,
                                         rounds: seq<Round>, done: seq<RollbackApplied>)
    requires |done| <= MAX_ROLLBACK_ATTEMPTS
    requires Sendable(request)
    requires RewindChain(from, done, rounds)
    requires request.checkpoint.seqno == ChainEnd(from, done)
    ensures OpenFrom(request, policy, rounds, done) != Err(NotEncodable)
    ensures match OpenFrom(request, policy, rounds, done)
            case Err(_) => true
            case Ok(open) => OpensWithin(from, request, rounds, done, open)
    decreases MAX_ROLLBACK_ATTEMPTS - |done|
  {
    SendableEncodes(request);
    if |done| < |rounds| && rounds[|done|].reply.RollBack? {
      var round := rounds[|done|];
      match AfterRollBack(request, policy, round, |done|)
      case Err(_) =>
      case Ok(next) =>
        RewindStaysSendable(request, policy, round, |done|);
        RollBackRewinds(request, policy, round, |done|);
        var applied := RollbackApplied(request.checkpoint.seqno, round.reply.seqno, next.checkpoint.vbucketUuid);
        ChainGrows(from, done, rounds, applied);
        OpenLoopChain(from, next, policy, rounds, done + [applied]);
    }
  }

  ghost predicate NewestFirst(log: seq<FailoverEntry>) {
    forall i, j :: 0 <= i < j < |log| ==> log[j].seqno <= log[i].seqno
  }

  /** On a newest-first log the chosen branch is the newest one that covers the rewind point. */
  lemma {:induction false} CoveringIsNewest(log: seq<FailoverEntry>, seqno: nat)
    requires NewestFirst(log)
    ensures match Covering(log, seqno)
            case None => forall e :: e in log ==> seqno < e.seqno
            case Some(branch) =>
              && branch in log && branch.seqno <= seqno
              && forall e :: e in log && e.seqno <= seqno ==> e.seqno <= branch.seqno
  {
  }

  // ---------------------------------------------------------------- resolve, then open

  /** Resolving and opening one vBucket from a checkpoint, as a reopened generation does. */
  function Reopen(vbucket: nat, bucketUuid: string, start: Checkpoint, env: Environment)
    : Result<OpenState, OpenError>
  {
    var request :- ResolveStart(vbucket, bucketUuid, FromCheckpoint(start), env);
    OpenFrom(request, env.policy, env.rounds, [])
  }

  lemma {:induction false} ResolvedIsSendable(vbucket: nat, bucketUuid: string, start: StartPosition, mode: Mode,
                                              high: nat, log: seq<FailoverEntry>, filter: Option<StreamFilter>)
    requires filter.Some? ==> FilterEncodes(filter.value.(streamId := None))
    requires Resolve(vbucket, Some(bucketUuid), start, mode, high, log, filter).Ok?
    requires high <= U64_MAX
    ensures var request := Resolve(vbucket, Some(bucketUuid), start, mode, high, log, filter).value;
            && Sendable(request)
            && HasIdentity(request.checkpoint, vbucket, bucketUuid)
            && request.checkpoint.seqno == Requested(vbucket, start, high).seqno <= high
  {
  }

  /** A start that resolves is sendable, never beyond what was asked for, and keeps a frozen end. */
  lemma {:induction false} ResolveStartIsSendable(vbucket: nat, bucketUuid: string, start: Checkpoint,
                                                  env: Environment)
    requires env.filter.Some? ==> FilterEncodes(env.filter.value.(streamId := None))
    requires env.high <= U64_MAX
    requires ResolveStart(vbucket, bucketUuid, FromCheckpoint(start), env).Ok?
    ensures var request := ResolveStart(vbucket, bucketUuid, FromCheckpoint(start), env).value;
            && Sendable(request)
            && HasIdentity(request.checkpoint, vbucket, bucketUuid)
            && request.checkpoint.seqno == Min(start.seqno, env.high)
            && (env.frozenEnd.Some? ==> request.endSeqno == env.frozenEnd.value)
  {
    var position := FromCheckpoint(start);
    match Resolve(vbucket, Some(bucketUuid), position, env.mode, env.high, env.log, env.filter)
    case Ok(request) =>
      ResolvedIsSendable(vbucket, bucketUuid, position, env.mode, env.high, env.log, env.filter);
    case Err(error) =>
      var branch := Covering(env.log, error.rollback).value;
      var rejected := Identified(start, Some(bucketUuid), env.log[0]);
      var rewound := RewindCheckpoint(rejected, branch, error.rollback);
      ResolvedIsSendable(vbucket, bucketUuid, FromCheckpoint(rewound), env.mode, env.high, env.log, env.filter);
  }

  /** The heart of at-least-once: a reopened stream never starts after the checkpoint it was
      asked to resume from, and its start is one the coordinator will accept. */
  lemma {:induction false} ReopenNeverSkips(vbucket: nat, bucketUuid: string, start: Checkpoint, env: Environment)
    requires env.filter.Some? ==> FilterEncodes(env.filter.value.(streamId := None))
    requires env.high <= U64_MAX
    ensures match Reopen(vbucket, bucketUuid, start, env)
            case Err(error) => error != NotEncodable
            case Ok(open) =>
              && open.effective.seqno <= start.seqno
              && open.effective.seqno <= open.endSeqno
              && HasIdentity(open.effective, vbucket, bucketUuid)
              && (env.frozenEnd.Some? ==> open.endSeqno == env.frozenEnd.value)
  {
    var resolved := ResolveStart(vbucket, bucketUuid, FromCheckpoint(start), env);
    if resolved.Ok? {
      ResolveStartIsSendable(vbucket, bucketUuid, start, env);
      var request := resolved.value;
      OpenLoopChain(request.checkpoint.seqno, request, env.policy, env.rounds, []);
    }
  }
}
