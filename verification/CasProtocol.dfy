/**
  Many processes share one registry document through compare-and-swap.  The bounded retry
  loop of one process is a method; the processes together are a transition system over
  loads and writes.
  */
module CasProtocol {
  import opened Base
  import opened Ordering
  import opened Assignment
  import opened Registry
  import opened RegistryLaws

  datatype Config = Config(who: Identity, vbucketCount: nat, staleAfter: nat)

  /** A stored revision and its compare-and-swap token. */
  datatype Stored = Stored(document: Document, cas: nat)

  datatype MutateError = Refused(error: RegistryError) | SettingsMismatch | ConflictedTooOften

  /** The document one attempt works on: the loaded one, or a new one when registering. */
  function Opened(stored: Option<Stored>, config: Config, action: Action): Result<Document, MutateError> {
    match stored
    case Some(s) =>
      if !s.document.Valid() then Err(Refused(InvalidRegistry))
      else if s.document.vbucketCount != config.vbucketCount || s.document.staleAfter != config.staleAfter then
        Err(SettingsMismatch)
      else Ok(s.document)
    case None =>
      if !action.Register? then Err(Refused(Fenced))
      else
        match NewDocument(config.vbucketCount, config.staleAfter)
        case Ok(d) => Ok(d)
        case Err(error) => Err(Refused(error))
  }

  /** What one attempt decides from what it loaded. */
  datatype Attempt =
    | GiveUp(error: MutateError)
    | Unchanged(snapshot: Option<Snapshot>)
    | Write(document: Document, snapshot: Option<Snapshot>)

  ghost function Decide(stored: Option<Stored>, config: Config, action: Action, now: nat): Attempt {
    match Opened(stored, config, action)
    case Err(error) => GiveUp(error)
    case Ok(before) =>
      match Acted(before, action, config.who, now)
      case Err(error) => GiveUp(Refused(error))
      case Ok(result) =>
        if result.0 == before then Unchanged(result.1) else Write(result.0, result.1)
  }

  // ---------------------------------------------------------------- one action

  /** One lifecycle action, step by step on the loaded document. */
  method Act(registry: RegistryDocument, action: Action, who: Identity, now: nat)
    returns (r: Result<Option<Snapshot>, RegistryError>)
    modifies registry
    ensures match Acted(old(registry.View()), action, who, now)
            case Err(error) => r == Err(error)
            case Ok(result) => r == Ok(result.1) && registry.View() == result.0
    ensures r.Ok? && r.value.Some? ==> SnapshotOf(registry.View(), who) == Ok(r.value.value)
    ensures r.Ok? && action.Quit? ==> who.memberId !in registry.members
  {
    match action {
    case Register =>
      var pruned := registry.PruneStale(now);
      if pruned.Err? {
        return Err(pruned.error);
      }
      var joined := registry.Register(who, now);
      if joined.Err? {
        return Err(joined.error);
      }
    case Heartbeat =>
      var beat := registry.Heartbeat(who, now);
      if beat.Err? {
        return Err(beat.error);
      }
    case Monitor =>
      var beat := registry.Heartbeat(who, now);
      if beat.Err? {
        return Err(beat.error);
      }
      var pruned := registry.PruneStale(now);
      if pruned.Err? {
        return Err(pruned.error);
      }
    case Quit =>
      var left := registry.Remove(who);
      if left.Err? {
        return Err(left.error);
      }
      return Ok(None);
    }
    var snapshot := registry.TakeSnapshot(who);
    if snapshot.Err? {
      return Err(snapshot.error);
    }
    r := Ok(Some(snapshot.value));
  }

  /** Registering in a new document always changes it. */
  lemma {:induction false} NewDocumentIsWritten(config: Config, action: Action, now: nat)
    ensures !Decide(None, config, action, now).Unchanged?
  {
    match NewDocument(config.vbucketCount, config.staleAfter)
    case Err(_) =>
    case Ok(d) => assert d.Valid() ==> AfterPrune(d, now) == Ok(d);
  }

  // ---------------------------------------------------------------- all processes

  datatype Pending = Pending(config: Config, action: Action, loaded: Option<Stored>)

  datatype Published = Published(who: Identity, snapshot: Snapshot)

  /** `revisions` is every document ever stored; the cell holds the last one, and its position
      is its CAS token. */
  datatype System = System(
    revisions: seq<Document>,
    pending: map<nat, Pending>,
    published: set<Published>)

  function Cell(s: System): Option<Stored> {
    if s.revisions == [] then None else Some(Stored(s.revisions[|s.revisions| - 1], |s.revisions| - 1))
  }

  datatype Step =
    | Load(process: nat, config: Config, action: Action)
    | Finish(process: nat, now: nat, heard: bool)
    | Drop(process: nat)

  ghost predicate Enabled(s: System, step: Step) {
    match step
    case Load(_, config, _) => config.who.Valid()
    case Finish(p, _, _) => p in s.pending
    case Drop(p) => p in s.pending
  }

  function Publish(s: System, who: Identity, snapshot: Option<Snapshot>, heard: bool): System {
    if heard && snapshot.Some? then s.(published := s.published + {Published(who, snapshot.value)}) else s
  }

  /** An attempt ends as decided; its write counts only if the cell has not moved. */
  function Settle(s: System, t: Pending, decision: Attempt, heard: bool): System {
    match decision
    case GiveUp(_) => s
    case Unchanged(snapshot) => Publish(s, t.config.who, snapshot, heard)
    case Write(d, snapshot) =>
      if Cell(s) != t.loaded then s
      else Publish(s.(revisions := s.revisions + [d]), t.config.who, snapshot, heard)
  }

  /** A process loads the cell; later it decides and writes.  A caller that timed out does not
      hear the result. */
  ghost function Do(s: System, step: Step): System
    requires Enabled(s, step)
  {
    match step
    case Load(p, config, action) => s.(pending := s.pending[p := Pending(config, action, Cell(s))])
    case Drop(p) => s.(pending := s.pending - {p})
    case Finish(p, now, heard) =>
      var t := s.pending[p];
      Settle(s.(pending := s.pending - {p}), t, Decide(t.loaded, t.config, t.action, now), heard)
  }

  ghost predicate Runs(s: System, steps: seq<Step>)
    decreases |steps|
  {
    steps == [] || (Enabled(s, steps[0]) && Runs(Do(s, steps[0]), steps[1..]))
  }

  ghost function After(s: System, steps: seq<Step>): System
    requires Runs(s, steps)
    decreases |steps|
  {
    if steps == [] then s else After(Do(s, steps[0]), steps[1..])
  }

  const Empty: System := System([], map[], {})

  // ---------------------------------------------------------------- one process among the others

  /** The store as one process sees it; `system` is everything all processes have done. */
  class MembershipStore {
    var cell: Option<Stored>
    var nextCas: nat
    ghost var system: System

    ghost predicate Valid()
      reads this
    {
      cell == Cell(system) && nextCas == |system.revisions|
    }

    constructor ()
      ensures Valid() && system == Empty
    {
      cell, nextCas, system := None, 0, Empty;
    }

    /** Others take `steps` and thereby write `written`. */
    method OthersAct(written: seq<Document>, ghost steps: seq<Step>)
      requires Valid() && Runs(system, steps) && After(system, steps).revisions == system.revisions + written
      modifies this
      ensures Valid() && system == After(old(system), steps)
    {
      if written != [] {
        nextCas := nextCas + |written|;
        cell := Some(Stored(written[|written| - 1], nextCas - 1));
      }
      system := After(system, steps);
    }

    method Create(d: Document) returns (stored: bool)
      modifies this`cell, this`nextCas
      ensures stored == old(cell).None?
      ensures nextCas == if stored then old(nextCas) + 1 else old(nextCas)
      ensures cell == if stored then Some(Stored(d, old(nextCas))) else old(cell)
    {
      stored := cell.None?;
      if stored {
        cell := Some(Stored(d, nextCas));
        nextCas := nextCas + 1;
      }
    }

    method Replace(d: Document, cas: nat) returns (stored: bool)
      modifies this`cell, this`nextCas
      ensures stored == (old(cell).Some? && old(cell).value.cas == cas)
      ensures nextCas == if stored then old(nextCas) + 1 else old(nextCas)
      ensures cell == if stored then Some(Stored(d, old(nextCas))) else old(cell)
    {
      stored := cell.Some? && cell.value.cas == cas;
      if stored {
        cell := Some(Stored(d, nextCas));
        nextCas := nextCas + 1;
      }
    }
  }

  /** The clock an attempt reads, and what the others do between its load and its end: their steps,
      and the documents these write. */
  datatype Round = Round(now: nat, meanwhile: seq<Step>, written: seq<Document>)

  ghost predicate LeavesAlone(steps: seq<Step>, p: nat) {
    forall k :: 0 <= k < |steps| ==> steps[k].process != p
  }

  /** The attempt of process `p` as steps of the whole system. */
  ghost function Trace(p: nat, config: Config, action: Action, round: Round): seq<Step> {
    [Load(p, config, action)] + round.meanwhile + [Finish(p, round.now, true)]
  }

  ghost function Loaded(s: System, p: nat, config: Config, action: Action): System {
    s.(pending := s.pending[p := Pending(config, action, Cell(s))])
  }

  ghost predicate Plays(s: System, p: nat, config: Config, action: Action, round: Round) {
    && config.who.Valid() && LeavesAlone(round.meanwhile, p)
    && Runs(Loaded(s, p, config, action), round.meanwhile)
    && After(Loaded(s, p, config, action), round.meanwhile).revisions == s.revisions + round.written
  }

  /** The system after the attempt has ended, by its decision. */
  ghost function SettledRound(s: System, p: nat, config: Config, action: Action, round: Round): System
    requires Plays(s, p, config, action, round)
  {
    var met := After(Loaded(s, p, config, action), round.meanwhile);
    Settle(met.(pending := met.pending - {p}), Pending(config, action, Cell(s)),
           Decide(Cell(s), config, action, round.now), true)
  }

  lemma {:induction false} OthersLeavePending(s: System, steps: seq<Step>, p: nat)
    requires Runs(s, steps) && LeavesAlone(steps, p) && p in s.pending
    ensures p in After(s, steps).pending && After(s, steps).pending[p] == s.pending[p]
    decreases |steps|
  {
    if steps != [] {
      assert steps[0].process != p;
      OthersLeavePending(Do(s, steps[0]), steps[1..], p);
    }
  }

  lemma {:induction false} RunsJoin(s: System, a: seq<Step>, b: seq<Step>)
    requires Runs(s, a) && Runs(After(s, a), b)
    ensures Runs(s, a + b) && After(s, a + b) == After(After(s, a), b)
    decreases |a|
  {
    if a == [] {
      assert a + b == b;
    } else {
      assert (a + b)[1..] == a[1..] + b;
      RunsJoin(Do(s, a[0]), a[1..], b);
    }
  }

  /** An attempt is a run of the system: its load, the others' steps, and its end. */
  lemma {:induction false} RoundIsRun(s: System, p: nat, config: Config, action: Action, round: Round)
    requires Plays(s, p, config, action, round)
    ensures Runs(s, Trace(p, config, action, round))
    ensures After(s, Trace(p, config, action, round)) == SettledRound(s, p, config, action, round)
  {
    var load, finish := [Load(p, config, action)], [Finish(p, round.now, true)];
    var loaded := Loaded(s, p, config, action);
    assert load[1..] == [];
    assert Do(s, load[0]) == loaded && Runs(loaded, []);
    assert Runs(s, load) && After(s, load) == loaded;
    RunsJoin(s, load, round.meanwhile);
    OthersLeavePending(loaded, round.meanwhile, p);
    var met := After(loaded, round.meanwhile);
    assert finish[1..] == [];
    assert Do(met, finish[0]) == SettledRound(s, p, config, action, round);
    assert Runs(Do(met, finish[0]), []);
    assert Runs(met, finish) && After(met, finish) == Do(met, finish[0]);
    RunsJoin(s, load + round.meanwhile, finish);
  }

  /** The attempt takes the system from `s` to `t`. */
  ghost predicate Leads(s: System, p: nat, config: Config, action: Action, round: Round, t: System) {
    Runs(s, Trace(p, config, action, round)) && t == After(s, Trace(p, config, action, round))
  }

  /** A snapshot an attempt would hand out is of the document it leaves: the loaded one when nothing
      changed, the one it writes otherwise. */
  ghost predicate Witnessed(loaded: Option<Stored>, who: Identity, decision: Attempt) {
    match decision
    case GiveUp(_) => true
    case Unchanged(snapshot) =>
      && loaded.Some?
      && (snapshot.Some? ==> SnapshotOf(loaded.value.document, who) == Ok(snapshot.value))
    case Write(d, snapshot) => snapshot.Some? ==> SnapshotOf(d, who) == Ok(snapshot.value)
  }

  /** What an attempt may rely on in its own decision. */
  ghost predicate Founded(loaded: Option<Stored>, config: Config, action: Action, decision: Attempt) {
    && Witnessed(loaded, config.who, decision)
    && match decision
       case GiveUp(error) => error != ConflictedTooOften
       case Unchanged(_) => action.Quit? ==> config.who.memberId !in loaded.value.document.members
       case Write(d, _) => action.Quit? ==> config.who.memberId !in d.members
  }

  /** The part of an attempt between its load and its write. */
  method DecideOnce(loaded: Option<Stored>, config: Config, action: Action, now: nat) returns (decision: Attempt)
    ensures decision == Decide(loaded, config, action, now)
    ensures Founded(loaded, config, action, decision)
  {
    var before := Opened(loaded, config, action);
    if before.Err? {
      return GiveUp(before.error);
    }
    var registry := new RegistryDocument(before.value);
    var acted := Act(registry, action, config.who, now);
    if acted.Err? {
      return GiveUp(Refused(acted.error));
    }
    if registry.View() == before.value {
      NewDocumentIsWritten(config, action, now);
      return Unchanged(acted.value);
    }
    return Write(registry.View(), acted.value);
  }

  /** What one attempt hands back: a snapshot is the snapshot of the revision `from`, and is published
      by the system; `from` is the caller's own write, or else the revision it loaded. */
  ghost predicate Hands(before: System, after: System, config: Config, action: Action,
                        result: Option<Snapshot>, wrote: Option<Document>, from: nat)
  {
    && from < |after.revisions|
    && from + 1 == (if wrote.Some? then |after.revisions| else |before.revisions|)
    && (result.Some? ==>
          && SnapshotOf(after.revisions[from], config.who) == Ok(result.value)
          && Published(config.who, result.value) in after.published)
    && (action.Quit? ==> config.who.memberId !in after.revisions[from].members)
  }

  /** The write counts only if the cell still holds the revision that was loaded. */
  method WriteBack(store: MembershipStore, loaded: Option<Stored>, d: Document) returns (stored: bool)
    modifies store`cell, store`nextCas
    ensures stored ==
            match loaded
            case None => old(store.cell).None?
            case Some(revision) => old(store.cell).Some? && old(store.cell).value.cas == revision.cas
    ensures store.nextCas == if stored then old(store.nextCas) + 1 else old(store.nextCas)
    ensures store.cell == if stored then Some(Stored(d, old(store.nextCas))) else old(store.cell)
  {
    if loaded.Some? {
      stored := store.Replace(d, loaded.value.cas);
    } else {
      stored := store.Create(d);
    }
  }

  /** How the system stands when an attempt that met `written` has ended as decided. */
  ghost predicate Ends(before: System, written: seq<Document>, config: Config, action: Action,
                       decision: Attempt, after: System)
  {
    match decision
    case GiveUp(error) => error != ConflictedTooOften && after.revisions == before.revisions + written
    case Unchanged(snapshot) =>
      && after.revisions == before.revisions + written && before.revisions != []
      && Hands(before, after, config, action, snapshot, None, |before.revisions| - 1)
    case Write(d, snapshot) =>
      if written != [] then after.revisions == before.revisions + written
      else
        && after.revisions == before.revisions + [d]
        && Hands(before, after, config, action, snapshot, Some(d), |before.revisions|)
  }

  lemma {:induction false} UnchangedEnds(before: System, met: System, written: seq<Document>, t: Pending,
                                         snapshot: Option<Snapshot>)
    requires met.revisions == before.revisions + written && t.loaded == Cell(before)
    requires Founded(t.loaded, t.config, t.action, Unchanged(snapshot))
    ensures Ends(before, written, t.config, t.action, Unchanged(snapshot), Settle(met, t, Unchanged(snapshot), true))
  {
    var last := |before.revisions| - 1;
    assert met.revisions[last] == before.revisions[last] == t.loaded.value.document;
  }

  lemma {:induction false} WriteEnds(before: System, met: System, written: seq<Document>, t: Pending,
                                     d: Document, snapshot: Option<Snapshot>)
    requires met.revisions == before.revisions + written && t.loaded == Cell(before)
    requires Founded(t.loaded, t.config, t.action, Write(d, snapshot))
    ensures Ends(before, written, t.config, t.action, Write(d, snapshot), Settle(met, t, Write(d, snapshot), true))
  {
    if written == [] {
      assert met.revisions == before.revisions;
      assert (before.revisions + [d])[|before.revisions|] == d;
    } else {
      assert |met.revisions| > |before.revisions|;
    }
  }

  lemma {:induction false} SettleEnds(before: System, met: System, written: seq<Document>, t: Pending,
                                      decision: Attempt)
    requires met.revisions == before.revisions + written && t.loaded == Cell(before)
    requires Founded(t.loaded, t.config, t.action, decision)
    ensures Ends(before, written, t.config, t.action, decision, Settle(met, t, decision, true))
  {
    match decision
    case GiveUp(_) =>
    case Unchanged(snapshot) => UnchangedEnds(before, met, written, t, snapshot);
    case Write(d, snapshot) => WriteEnds(before, met, written, t, d, snapshot);
  }

  /** The end of an attempt, told from its decision alone. */
  lemma {:induction false} AttemptEnds(s: System, p: nat, config: Config, action: Action, round: Round,
                                       decision: Attempt) returns (after: System)
    requires Plays(s, p, config, action, round)
    requires decision == Decide(Cell(s), config, action, round.now)
    requires Founded(Cell(s), config, action, decision)
    ensures Leads(s, p, config, action, round, after)
    ensures Ends(s, round.written, config, action, decision, after)
  {
    after := SettledRound(s, p, config, action, round);
    RoundIsRun(s, p, config, action, round);
    var met := After(Loaded(s, p, config, action), round.meanwhile);
    SettleEnds(s, met.(pending := met.pending - {p}), round.written, Pending(config, action, Cell(s)), decision);
  }

  method DecideFor(ghost s: System, loaded: Option<Stored>, p: nat, config: Config, action: Action, round: Round)
    returns (decision: Attempt, ghost after: System)
    requires loaded == Cell(s) && Plays(s, p, config, action, round)
    ensures Leads(s, p, config, action, round, after)
    ensures Ends(s, round.written, config, action, decision, after)
  {
    decision := DecideOnce(loaded, config, action, round.now);
    after := AttemptEnds(s, p, config, action, round, decision);
  }

  /** One pass of the retry loop; `None` means that the write lost against another process. */
  method Attempted(store: MembershipStore, p: nat, config: Config, action: Action, round: Round)
    returns (r: Option<Result<Option<Snapshot>, MutateError>>, wrote: Option<Document>, ghost from: nat)
    requires store.Valid() && Plays(store.system, p, config, action, round)
    modifies store
    ensures store.Valid()
    ensures Leads(old(store.system), p, config, action, round, store.system)
    ensures store.system.revisions ==
            old(store.system).revisions + round.written + (if wrote.Some? then [wrote.value] else [])
    ensures r.None? ==> wrote.None? && round.written != []
    ensures r.Some? && r.value.Err? ==> wrote.None? && r.value.error != ConflictedTooOften
    ensures r.Some? && r.value.Ok? ==>
              Hands(old(store.system), store.system, config, action, r.value.value, wrote, from)
  {
    ghost var s := store.system;
    var loaded := store.cell;
    ghost var after;
    var decision;
    decision, after := DecideFor(s, loaded, p, config, action, round);
    store.system := Loaded(s, p, config, action);
    store.OthersAct(round.written, round.meanwhile);
    store.system := after;
    assert s.revisions + round.written + [] == s.revisions + round.written;
    match decision
    case GiveUp(error) =>
      return Some(Err(error)), None, 0;
    case Unchanged(snapshot) =>
      return Some(Ok(snapshot)), None, |s.revisions| - 1;
    case Write(d, snapshot) =>
      var stored := WriteBack(store, loaded, d);
      if !stored {
        return None, None, 0;
      }
      return Some(Ok(snapshot)), Some(d), |s.revisions|;
  }

  /** The rounds of the loop played one after the other: each from where the one before it left the
      system, `worlds[i]` being what round `i` meets. */
  ghost predicate PlaysAll(worlds: seq<System>, p: nat, config: Config, action: Action, rounds: seq<Round>) {
    && |worlds| == |rounds| + 1
    && (forall i :: 0 <= i < |rounds| ==> Plays(worlds[i], p, config, action, rounds[i]))
    && (forall i :: 0 <= i < |rounds| ==> Leads(worlds[i], p, config, action, rounds[i], worlds[i + 1]))
  }

  function Written(rounds: seq<Round>): seq<Document> {
    if rounds == [] then [] else rounds[0].written + Written(rounds[1..])
  }

  lemma {:induction false} WrittenJoin(a: seq<Round>, b: Round)
    ensures Written(a + [b]) == Written(a) + b.written
  {
    if a == [] {
      assert a + [b] == [b];
      assert [b][1..] == [];
    } else {
      assert (a + [b])[1..] == a[1..] + [b];
      WrittenJoin(a[1..], b);
    }
  }

  lemma {:induction false} RevisionsGrow(base: seq<Document>, rounds: seq<Round>, round: Round, own: seq<Document>)
    ensures base + Written(rounds) + round.written + own == base + Written(rounds + [round]) + own
  {
    WrittenJoin(rounds, round);
    assert base + Written(rounds) + round.written == base + (Written(rounds) + round.written);
  }

  /** The steps of the first `count` rounds. */
  ghost function Traces(p: nat, config: Config, action: Action, rounds: seq<Round>, count: nat): seq<Step>
    requires count <= |rounds|
  {
    if count == 0 then []
    else Traces(p, config, action, rounds, count - 1) + Trace(p, config, action, rounds[count - 1])
  }

  /** Played rounds are a run of the system, so its theorems hold of every world the loop passes. */
  lemma {:induction false} RoundsAreRun(worlds: seq<System>, p: nat, config: Config, action: Action,
                                        rounds: seq<Round>, count: nat)
    requires PlaysAll(worlds, p, config, action, rounds) && count <= |rounds|
    ensures var trace := Traces(p, config, action, rounds, count);
            Runs(worlds[0], trace) && After(worlds[0], trace) == worlds[count]
  {
    if count != 0 {
      RoundsAreRun(worlds, p, config, action, rounds, count - 1);
      assert Leads(worlds[count - 1], p, config, action, rounds[count - 1], worlds[count]);
      RunsJoin(worlds[0], Traces(p, config, action, rounds, count - 1), Trace(p, config, action, rounds[count - 1]));
    }
  }

  /**
   * The retry loop, with others acting between every load and the end of its attempt.  What it does
   * is a run of the system; what it writes is one revision if it succeeds with a change and nothing
   * otherwise; a snapshot it returns is published there, and is of its own write or of the revision
   * its last attempt loaded.
   */
  method MutateRegistry(store: MembershipStore, p: nat, config: Config, action: Action, rounds: seq<Round>,
                        ghost worlds: seq<System>)
    returns (r: Result<Option<Snapshot>, MutateError>, attempts: nat, wrote: Option<Document>, ghost from: nat)
    requires store.Valid() && PlaysAll(worlds, p, config, action, rounds) && worlds[0] == store.system
    modifies store
    ensures store.Valid()
    ensures attempts <= |rounds| && (r == Err(ConflictedTooOften) ==> attempts == |rounds|)
    ensures store.system == worlds[attempts]
    ensures store.system.revisions ==
            old(store.system).revisions + Written(rounds[..attempts]) + (if wrote.Some? then [wrote.value] else [])
    ensures r.Err? ==> wrote.None?
    ensures r.Ok? ==> 1 <= attempts && Hands(worlds[attempts - 1], store.system, config, action, r.value, wrote, from)
  {
    attempts, wrote, from := 0, None, 0;
    while attempts < |rounds|
      invariant attempts <= |rounds| && store.Valid() && wrote.None? && store.system == worlds[attempts]
      invariant store.system.revisions == old(store.system).revisions + Written(rounds[..attempts])
    {
      var round := rounds[attempts];
      assert rounds[..attempts + 1] == rounds[..attempts] + [round];
      assert Plays(worlds[attempts], p, config, action, rounds[attempts]);
      assert Leads(worlds[attempts], p, config, action, rounds[attempts], worlds[attempts + 1]);
      var outcome;
      outcome, wrote, from := Attempted(store, p, config, action, round);
      RevisionsGrow(old(store.system).revisions, rounds[..attempts], round,
                    if wrote.Some? then [wrote.value] else []);
      attempts := attempts + 1;
      if outcome.Some? {
        return outcome.value, attempts, wrote, from;
      }
    }
    return Err(ConflictedTooOften), attempts, None, 0;
  }

  // ---------------------------------------------------------------- invariant

  /** Later revisions have later generations, and one generation has one roster. */
  ghost predicate Follows(a: Document, b: Document) {
    && a.vbucketCount == b.vbucketCount
    && a.generation <= b.generation
    && (a.generation == b.generation ==> Roster(a) == Roster(b))
  }

  ghost predicate RevisionsInv(revisions: seq<Document>) {
    && (forall i :: 0 <= i < |revisions| ==> revisions[i].Valid())
    && (forall i, j :: 0 <= i < j < |revisions| ==> Follows(revisions[i], revisions[j]))
  }

  ghost predicate WasStored(revisions: seq<Document>, stored: Option<Stored>) {
    stored.Some? ==> stored.value.cas < |revisions| && stored.value.document == revisions[stored.value.cas]
  }

  /** A published snapshot is the snapshot of some stored revision. */
  ghost predicate TakenFrom(revisions: seq<Document>, p: Published) {
    exists k :: 0 <= k < |revisions| && SnapshotOf(revisions[k], p.who) == Ok(p.snapshot)
  }

  ghost predicate Inv(s: System) {
    && RevisionsInv(s.revisions)
    && (forall p :: p in s.pending ==> s.pending[p].config.who.Valid() && WasStored(s.revisions, s.pending[p].loaded))
    && (forall p :: p in s.published ==> TakenFrom(s.revisions, p))
  }

  lemma {:induction false} FollowsTransitive(a: Document, b: Document, c: Document)
    requires Follows(a, b) && Follows(b, c)
    ensures Follows(a, c)
  {
  }

  lemma {:induction false} RevisionAppended(revisions: seq<Document>, d: Document)
    requires RevisionsInv(revisions) && d.Valid()
    requires revisions != [] ==> Follows(revisions[|revisions| - 1], d)
    ensures RevisionsInv(revisions + [d])
  {
    var n := |revisions|;
    forall i | 0 <= i < n
      ensures Follows(revisions[i], d)
    {
      if i < n - 1 {
        FollowsTransitive(revisions[i], revisions[n - 1], d);
      }
    }
  }

  lemma {:induction false} TakenFromLonger(revisions: seq<Document>, d: Document, p: Published)
    requires TakenFrom(revisions, p)
    ensures TakenFrom(revisions + [d], p)
  {
    var k :| 0 <= k < |revisions| && SnapshotOf(revisions[k], p.who) == Ok(p.snapshot);
    assert (revisions + [d])[k] == revisions[k];
  }

  lemma {:induction false} ActedSnapshot(d: Document, action: Action, who: Identity, now: nat)
    requires Acted(d, action, who, now).Ok? && Acted(d, action, who, now).value.1.Some?
    ensures SnapshotOf(Acted(d, action, who, now).value.0, who) == Ok(Acted(d, action, who, now).value.1.value)
  {
  }

  /** What an attempt writes follows what it loaded, and what it publishes is what it leaves. */
  ghost predicate Warranted(stored: Option<Stored>, who: Identity, decision: Attempt) {
    && Witnessed(stored, who, decision)
    && (decision.Write? ==>
          decision.document.Valid() && (stored.Some? ==> Follows(stored.value.document, decision.document)))
  }

  lemma {:induction false} DecisionFollows(stored: Option<Stored>, config: Config, action: Action, now: nat)
    requires config.who.Valid()
    ensures Warranted(stored, config.who, Decide(stored, config, action, now))
  {
    var opened0 := Opened(stored, config, action);
    if opened0.Ok? && Acted(opened0.value, action, config.who, now).Ok? {
      var before := opened0.value;
      ActionKeeps(before, action, config.who, now);
      if Acted(before, action, config.who, now).value.1.Some? {
        ActedSnapshot(before, action, config.who, now);
      }
      NewDocumentIsWritten(config, action, now);
    }
  }

  lemma {:induction false} PublishKeeps(s: System, who: Identity, snapshot: Option<Snapshot>, heard: bool)
    requires Inv(s)
    requires snapshot.Some? ==> TakenFrom(s.revisions, Published(who, snapshot.value))
    ensures Inv(Publish(s, who, snapshot, heard))
  {
  }

  lemma {:induction false} AppendKeeps(s: System, d: Document)
    requires Inv(s) && d.Valid()
    requires s.revisions != [] ==> Follows(s.revisions[|s.revisions| - 1], d)
    ensures Inv(s.(revisions := s.revisions + [d]))
  {
    RevisionAppended(s.revisions, d);
    forall p | p in s.published
      ensures TakenFrom(s.revisions + [d], p)
    {
      TakenFromLonger(s.revisions, d, p);
    }
  }

  lemma {:induction false} SettlesUnchanged(s: System, t: Pending, snapshot: Option<Snapshot>, heard: bool)
    requires Inv(s) && t.loaded.Some? && WasStored(s.revisions, t.loaded)
    requires snapshot.Some? ==> SnapshotOf(t.loaded.value.document, t.config.who) == Ok(snapshot.value)
    ensures Inv(Publish(s, t.config.who, snapshot, heard))
  {
    if snapshot.Some? {
      assert SnapshotOf(s.revisions[t.loaded.value.cas], t.config.who) == Ok(snapshot.value);
    }
    PublishKeeps(s, t.config.who, snapshot, heard);
  }

  lemma {:induction false} SettlesWritten(s: System, t: Pending, d: Document, snapshot: Option<Snapshot>, heard: bool)
    requires Inv(s) && Cell(s) == t.loaded && d.Valid()
    requires t.loaded.Some? ==> Follows(t.loaded.value.document, d)
    requires snapshot.Some? ==> SnapshotOf(d, t.config.who) == Ok(snapshot.value)
    ensures Inv(Publish(s.(revisions := s.revisions + [d]), t.config.who, snapshot, heard))
  {
    AppendKeeps(s, d);
    var written := s.(revisions := s.revisions + [d]);
    assert written.revisions[|s.revisions|] == d;
    PublishKeeps(written, t.config.who, snapshot, heard);
  }

  lemma {:induction false} SettleKeeps(s: System, t: Pending, decision: Attempt, heard: bool)
    requires Inv(s) && WasStored(s.revisions, t.loaded) && Warranted(t.loaded, t.config.who, decision)
    ensures Inv(Settle(s, t, decision, heard))
  {
    match decision
    case GiveUp(_) =>
    case Unchanged(snapshot) =>
      SettlesUnchanged(s, t, snapshot, heard);
    case Write(d, snapshot) =>
      if Cell(s) == t.loaded {
        SettlesWritten(s, t, d, snapshot, heard);
      }
  }

  lemma {:induction false} FinishKeeps(s: System, p: nat, now: nat, heard: bool)
    requires Inv(s) && Enabled(s, Finish(p, now, heard))
    ensures Inv(Do(s, Finish(p, now, heard)))
  {
    var t := s.pending[p];
    var done := s.(pending := s.pending - {p});
    assert Inv(done);
    DecisionFollows(t.loaded, t.config, t.action, now);
    SettleKeeps(done, t, Decide(t.loaded, t.config, t.action, now), heard);
  }

  lemma {:induction false} StepKeeps(s: System, step: Step)
    requires Inv(s) && Enabled(s, step)
    ensures Inv(Do(s, step))
  {
    match step
    case Load(p, config, action) =>
    case Drop(p) =>
    case Finish(p, now, heard) => FinishKeeps(s, p, now, heard);
  }

  lemma {:induction false} RunKeeps(s: System, steps: seq<Step>)
    requires Inv(s) && Runs(s, steps)
    ensures Inv(After(s, steps))
    decreases |steps|
  {
    if steps != [] {
      StepKeeps(s, steps[0]);
      RunKeeps(Do(s, steps[0]), steps[1..]);
    }
  }

  // ---------------------------------------------------------------- same generation, same members

  /** Members without their heartbeats. */
  function Seats(members: seq<Member>): seq<Member> {
    seq(|members|, i requires 0 <= i < |members| => members[i].(heartbeatAt := 0))
  }

  lemma {:induction false} SameRosterSameKeys(a: Document, b: Document)
    requires a.Valid() && b.Valid() && Roster(a) == Roster(b)
    ensures Keys(a) == Keys(b)
    ensures forall id :: id in a.members ==>
              id in b.members && a.members[id].(heartbeatAt := 0) == b.members[id].(heartbeatAt := 0)
  {
    assert Roster(a).Keys == a.members.Keys && Roster(b).Keys == b.members.Keys;
    forall id | id in a.members
      ensures id in b.members && a.members[id].(heartbeatAt := 0) == b.members[id].(heartbeatAt := 0)
    {
      assert Roster(a)[id] == Roster(b)[id];
    }
    forall k | k in Keys(a)
      ensures k in Keys(b)
    {
      var id :| id in a.members && k == MemberKey(a.members[id]);
      assert MemberKey(b.members[id]) == k;
    }
    forall k | k in Keys(b)
      ensures k in Keys(a)
    {
      var id :| id in b.members && k == MemberKey(b.members[id]);
      assert id in Roster(b);
      assert MemberKey(a.members[id]) == k;
    }
  }

  /** What two snapshots of documents with one roster have in common. */
  lemma {:induction false} SameRosterSameSnapshot(a: Document, b: Document, who: Identity, other: Identity)
    requires SnapshotOf(a, who).Ok? && SnapshotOf(b, other).Ok?
    requires Roster(a) == Roster(b) && a.generation == b.generation && a.vbucketCount == b.vbucketCount
    ensures var s, t := SnapshotOf(a, who).value, SnapshotOf(b, other).value;
            && Seats(s.members) == Seats(t.members)
            && exists i, j :: 0 <= i < |s.members| && 0 <= j < |s.members| &&
                 s.members[i].memberId == who.memberId && s.members[j].memberId == other.memberId &&
                 Balanced(a.generation, a.vbucketCount, i + 1, |s.members|) == Ok(s.assignment) &&
                 Balanced(a.generation, a.vbucketCount, j + 1, |s.members|) == Ok(t.assignment)
  {
    SameRosterSameKeys(a, b);
    ListedAreMembers(a);
    ListedAreMembers(b);
    SeatedGetsSnapshot(a, who);
    SeatedGetsSnapshot(b, other);
    var s, t := SnapshotOf(a, who).value, SnapshotOf(b, other).value;
    var listing := Listing(Keys(a));
    forall i | 0 <= i < |listing|
      ensures s.members[i].(heartbeatAt := 0) == t.members[i].(heartbeatAt := 0)
    {
    }
    var i := PositionFrom(listing, who.memberId, "", 0);
    var j := PositionFrom(listing, other.memberId, "", 0);
    assert s.members[j].memberId == t.members[j].memberId;
  }

  lemma {:induction false} SameGenerationSameRoster(revisions: seq<Document>, k: nat, l: nat)
    requires RevisionsInv(revisions) && k < |revisions| && l < |revisions|
    requires revisions[k].generation == revisions[l].generation
    ensures Roster(revisions[k]) == Roster(revisions[l])
    ensures revisions[k].vbucketCount == revisions[l].vbucketCount
  {
    if k < l {
      assert Follows(revisions[k], revisions[l]);
    } else if l < k {
      assert Follows(revisions[l], revisions[k]);
    }
  }

  lemma {:induction false} SnapshotGeneration(d: Document, who: Identity)
    requires SnapshotOf(d, who).Ok?
    ensures SnapshotOf(d, who).value.assignment.generation == d.generation
  {
  }

  /** Same-generation exclusivity, over every interleaving of loads and writes by any number
      of processes with arbitrary clocks: snapshots published with one generation list the
      same members in the same order, and different members' vBuckets are disjoint. */
  lemma {:induction false} SameGenerationExclusivity(steps: seq<Step>, a: Published, b: Published)
    requires Runs(Empty, steps)
    requires a in After(Empty, steps).published && b in After(Empty, steps).published
    requires a.snapshot.assignment.generation == b.snapshot.assignment.generation
    ensures Seats(a.snapshot.members) == Seats(b.snapshot.members)
    ensures a.who.memberId != b.who.memberId ==>
              a.snapshot.assignment.vbuckets !! b.snapshot.assignment.vbuckets
    ensures a.who.memberId == b.who.memberId ==> a.snapshot.assignment == b.snapshot.assignment
  {
    RunKeeps(Empty, steps);
    var revisions := After(Empty, steps).revisions;
    var k :| 0 <= k < |revisions| && SnapshotOf(revisions[k], a.who) == Ok(a.snapshot);
    var l :| 0 <= l < |revisions| && SnapshotOf(revisions[l], b.who) == Ok(b.snapshot);
    SnapshotGeneration(revisions[k], a.who);
    SnapshotGeneration(revisions[l], b.who);
    SameGenerationSameRoster(revisions, k, l);
    TwoSnapshots(revisions[k], revisions[l], a.who, b.who);
  }

  lemma {:induction false} PublishedStays(s: System, steps: seq<Step>)
    requires Runs(s, steps)
    ensures s.published <= After(s, steps).published
    decreases |steps|
  {
    if steps != [] {
      assert s.published <= Do(s, steps[0]).published;
      PublishedStays(Do(s, steps[0]), steps[1..]);
    }
  }

  /** The exclusivity of what the retry loop returns: `count` rounds into a loop that started in any
      reachable world, a snapshot it hands back and any other one published by then or in whatever
      follows, with the same generation, list the same members; different members' vBuckets are
      disjoint. */
  lemma {:induction false} ReturnedIsExclusive(before: seq<Step>, worlds: seq<System>, p: nat, config: Config,
                                               action: Action, rounds: seq<Round>, count: nat,
                                               snapshot: Snapshot, wrote: Option<Document>, from: nat,
                                               later: seq<Step>, other: Published)
    requires Runs(Empty, before) && PlaysAll(worlds, p, config, action, rounds) && worlds[0] == After(Empty, before)
    requires 1 <= count <= |rounds|
    requires Hands(worlds[count - 1], worlds[count], config, action, Some(snapshot), wrote, from)
    requires Runs(worlds[count], later) && other in After(worlds[count], later).published
    requires snapshot.assignment.generation == other.snapshot.assignment.generation
    ensures Seats(snapshot.members) == Seats(other.snapshot.members)
    ensures config.who.memberId != other.who.memberId ==>
              snapshot.assignment.vbuckets !! other.snapshot.assignment.vbuckets
    ensures config.who.memberId == other.who.memberId ==> snapshot.assignment == other.snapshot.assignment
  {
    var trace := Traces(p, config, action, rounds, count);
    RoundsAreRun(worlds, p, config, action, rounds, count);
    RunsJoin(Empty, before, trace);
    RunsJoin(Empty, before + trace, later);
    PublishedStays(worlds[count], later);
    SameGenerationExclusivity(before + trace + later, Published(config.who, snapshot), other);
  }

  lemma {:induction false} TwoSnapshots(a: Document, b: Document, who: Identity, other: Identity)
    requires SnapshotOf(a, who).Ok? && SnapshotOf(b, other).Ok?
    requires Roster(a) == Roster(b) && a.generation == b.generation && a.vbucketCount == b.vbucketCount
    ensures var s, t := SnapshotOf(a, who).value, SnapshotOf(b, other).value;
            && Seats(s.members) == Seats(t.members)
            && (who.memberId != other.memberId ==> s.assignment.vbuckets !! t.assignment.vbuckets)
            && (who.memberId == other.memberId ==> s.assignment == t.assignment)
  {
    SameRosterSameSnapshot(a, b, who, other);
    SameRosterSameKeys(a, b);
    SeatedGetsSnapshot(a, who);
    SeatedGetsSnapshot(b, other);
    var n := |SnapshotOf(a, who).value.members|;
    var i := PositionFrom(Listing(Keys(a)), who.memberId, "", 0);
    var j := PositionFrom(Listing(Keys(b)), other.memberId, "", 0);
    if who.memberId != other.memberId {
      SlicesAreDisjoint(a.vbucketCount, n, i, j);
    }
  }

  /** The members a published snapshot lists share out the whole range: every vBucket belongs
      to exactly one position of the list, and whoever publishes it in that generation is the
      member at that position. */
  lemma {:induction false} SnapshotCoversRange(steps: seq<Step>, a: Published, v: nat)
    returns (owner: nat, count: nat)
    requires Runs(Empty, steps) && a in After(Empty, steps).published
    ensures forall d :: d in After(Empty, steps).revisions ==> d.vbucketCount == count
    ensures v < count ==>
              && owner < |a.snapshot.members|
              && v in Slice(count, |a.snapshot.members|, owner)
              && (forall i :: 0 <= i < |a.snapshot.members| && v in Slice(count, |a.snapshot.members|, i) ==>
                    i == owner)
              && (v in a.snapshot.assignment.vbuckets <==> a.snapshot.members[owner].memberId == a.who.memberId)
  {
    RunKeeps(Empty, steps);
    var revisions := After(Empty, steps).revisions;
    var k :| 0 <= k < |revisions| && SnapshotOf(revisions[k], a.who) == Ok(a.snapshot);
    var d := revisions[k];
    count := d.vbucketCount;
    owner := 0;
    forall e | e in revisions
      ensures e.vbucketCount == count
    {
      var m :| 0 <= m < |revisions| && revisions[m] == e;
      if m < k {
        assert Follows(revisions[m], revisions[k]);
      } else if k < m {
        assert Follows(revisions[k], revisions[m]);
      }
    }
    if v < count {
      owner := OwnerInSnapshot(d, a.who, v);
    }
  }

  lemma {:induction false} OwnerInSnapshot(d: Document, who: Identity, v: nat) returns (owner: nat)
    requires SnapshotOf(d, who).Ok? && v < d.vbucketCount
    ensures var s := SnapshotOf(d, who).value;
            && owner < |s.members|
            && v in Slice(d.vbucketCount, |s.members|, owner)
            && (forall i :: 0 <= i < |s.members| && v in Slice(d.vbucketCount, |s.members|, i) ==> i == owner)
            && (v in s.assignment.vbuckets <==> s.members[owner].memberId == who.memberId)
  {
    SeatedGetsSnapshot(d, who);
    var s := SnapshotOf(d, who).value;
    var n := |s.members|;
    SlicesSpanTheRange(d.vbucketCount, n);
    owner := SomeSliceOwns(d.vbucketCount, n, n, v);
    forall i | 0 <= i < n && i != owner
      ensures v !in Slice(d.vbucketCount, n, i)
    {
      SlicesAreDisjoint(d.vbucketCount, n, i, owner);
    }
    MembersAreDistinct(d, who, owner);
  }

  /** The caller's position in its own snapshot is its only one. */
  lemma {:induction false} MembersAreDistinct(d: Document, who: Identity, i: nat)
    requires SnapshotOf(d, who).Ok? && i < |SnapshotOf(d, who).value.members|
    ensures SnapshotOf(d, who).value.members[i].memberId == who.memberId <==>
            i == PositionFrom(Listing(Keys(d)), who.memberId, "", 0)
  {
    SeatedGetsSnapshot(d, who);
    ListedAreMembers(d);
    var listing := Listing(Keys(d));
    var own := PositionFrom(listing, who.memberId, "", 0);
    assert listing[i] in Keys(d) && listing[own] in Keys(d);
    if listing[i].first == who.memberId {
      assert listing[i] == MemberKey(d.members[who.memberId]) == listing[own];
      AscendingIsDistinct(listing, i, own);
    }
  }
}
