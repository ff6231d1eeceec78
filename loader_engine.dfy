/** The loader-runner state machine (loader-runner/loader-runner.js:36-180, 249-262) as
    functions over an explicit `Engine` state. Each function follows one recursive JavaScript
    function of the runner branch for branch; class `LoaderRunner.Run` executes the same steps
    on mutable fields and is proved to agree with these functions.

    Everything the JavaScript does later, from outside the runner's own call stack, is a
    separate entry point: a loader invoking a callback it was handed (`InvokeCallback`) and
    `readResource` calling back (`ResourceRead`). */
module LoaderEngine {
  import opened LoaderValues
  import opened LoaderObjects

  /** Which continuation a callback closure of `runSyncOrAsync` runs. */
  datatype Phase = PitchPhase | NormalPhase

  /** The state of one `runSyncOrAsync` invocation, which owns one callback closure:
      its continuation and its local `isSync` and `isDone` flags. */
  datatype Token = Token(phase: Phase, isSync: bool, isDone: bool)

  /** An observable step of a run: a pitch or normal function invoked on a loader, a
      `readResource` call issued, or its callback delivered. */
  datatype Event = PitchRan(index: nat) | ReadIssued | ReadDelivered | NormalRan(index: nat)

  /** One invocation of the caller's final callback: `err` and `{result, resourceBuffer}`;
      `result` is `None` for `undefined`. */
  datatype Final = Final(err: Value, result: Option<seq<Value>>, resourceBuffer: Value)

  /** What the injected `readResource` hands its callback. */
  datatype ReadOutcome = ReadOutcome(err: Value, buffer: Value)

  /** The fixed inputs of a run: the resource path, the `source` field of the supplied
      context (never set by the runner) and the outcome of reading the resource. */
  datatype Config = Config(resource: string, source: Option<string>, read: ReadOutcome)

  /** The mutable state of one run: the descriptors, the shared cursor, the current
      `loaderContext.callback` (a token number), every callback closure created so far,
      `processOptions.resourceBuffer`, reads still to be delivered, and two logs: the
      final-callback invocations and the trace of events. */
  datatype Engine = Engine(
    loaders: seq<Loader>,
    loaderIndex: int,
    callback: Option<nat>,
    tokens: seq<Token>,
    resourceBuffer: Value,
    pendingReads: nat,
    finals: seq<Final>,
    trace: seq<Event>)

  /** The state after a step and the exception it threw out of the runner, if any. */
  datatype Step = Step(engine: Engine, thrown: Option<Value>)

  // ---------------------------------------------------------------------------------
  // Progress measure: the phase flags that are still false.

  function PitchPending(ls: seq<Loader>): set<int>
  {
    set i | 0 <= i < |ls| && !ls[i].pitchExecuted
  }

  function NormalPending(ls: seq<Loader>): set<int>
  {
    set i | 0 <= i < |ls| && !ls[i].normalExecuted
  }

  function Unset(ls: seq<Loader>): nat
  {
    |PitchPending(ls)| + |NormalPending(ls)|
  }

  // ---------------------------------------------------------------------------------
  // What never changes, and what only grows, during a run.

  ghost predicate SameLoader(a: Loader, b: Loader)
  {
    a.path == b.path && a.normal == b.normal && a.pitch == b.pitch && a.raw == b.raw && a.data == b.data
  }

  /** Descriptors keep their identity and code; flags only go from false to true. */
  ghost predicate LoadersGrow(ls: seq<Loader>, ls': seq<Loader>)
  {
    && |ls'| == |ls|
    && forall i :: 0 <= i < |ls| ==>
         && SameLoader(ls[i], ls'[i])
         && (ls[i].pitchExecuted ==> ls'[i].pitchExecuted)
         && (ls[i].normalExecuted ==> ls'[i].normalExecuted)
  }

  /** Callback closures keep their continuation and mode; `isDone` only becomes true. */
  ghost predicate TokensGrow(ts: seq<Token>, ts': seq<Token>)
  {
    && |ts| <= |ts'|
    && forall k :: 0 <= k < |ts| ==>
         && ts'[k].phase == ts[k].phase
         && ts'[k].isSync == ts[k].isSync
         && (ts[k].isDone ==> ts'[k].isDone)
  }

  ghost predicate Extends(e: Engine, e': Engine)
  {
    && LoadersGrow(e.loaders, e'.loaders)
    && TokensGrow(e.tokens, e'.tokens)
    && e.finals <= e'.finals
    && e.trace <= e'.trace
  }

  // ---------------------------------------------------------------------------------
  // The run invariant.

  predicate AllPitched(ls: seq<Loader>)
  {
    forall j :: 0 <= j < |ls| ==> ls[j].pitchExecuted
  }

  /** Every loader the pitching walk has moved past is marked as pitched. */
  ghost predicate PitchedBelowCursor(ls: seq<Loader>, cursor: int)
  {
    forall j :: 0 <= j < |ls| && j < cursor ==> ls[j].pitchExecuted
  }

  /** A phase function recorded as run has its flag set. */
  ghost predicate TraceMatchesFlags(t: seq<Event>, ls: seq<Loader>)
  {
    forall b :: 0 <= b < |t| ==>
      && (t[b].PitchRan? ==> t[b].index < |ls| && ls[t[b].index].pitchExecuted)
      && (t[b].NormalRan? ==> t[b].index < |ls| && ls[t[b].index].normalExecuted)
  }

  /** Pitch functions run before anything else, each loader's at most once. */
  ghost predicate PitchesFirst(t: seq<Event>)
  {
    forall a, b :: 0 <= a < b < |t| && t[b].PitchRan? ==> t[a].PitchRan? && t[a].index != t[b].index
  }

  /** Normal functions run after a read was delivered, each loader's at most once. */
  ghost predicate NormalsOnceAfterRead(t: seq<Event>)
  {
    && (forall a, b :: 0 <= a < b < |t| && t[a].NormalRan? && t[b].NormalRan? ==> t[a].index != t[b].index)
    && (forall b :: 0 <= b < |t| && t[b].NormalRan? ==> ReadDelivered in t[..b])
  }

  /** The resource is read only once every pitch has been dealt with. */
  ghost predicate ReadsAfterPitching(t: seq<Event>, ls: seq<Loader>, pendingReads: nat)
  {
    && (ReadIssued in t ==> AllPitched(ls))
    && (pendingReads > 0 || ReadDelivered in t ==> ReadIssued in t)
  }

  /** The current callback is a closure that exists; only synchronous closures finish, and
      normal-phase closures exist only once a read was delivered. */
  ghost predicate TokensWellFormed(callback: Option<nat>, ts: seq<Token>, t: seq<Event>)
  {
    && (callback.Some? ==> callback.value < |ts|)
    && forall k :: 0 <= k < |ts| ==>
         && (ts[k].isDone ==> ts[k].isSync)
         && (ts[k].phase == NormalPhase ==> ReadDelivered in t)
  }

  ghost predicate Inv(e: Engine)
  {
    && e.loaderIndex <= |e.loaders|
    && PitchedBelowCursor(e.loaders, e.loaderIndex)
    && TraceMatchesFlags(e.trace, e.loaders)
    && PitchesFirst(e.trace)
    && NormalsOnceAfterRead(e.trace)
    && ReadsAfterPitching(e.trace, e.loaders, e.pendingReads)
    && TokensWellFormed(e.callback, e.tokens, e.trace)
  }

  // ---------------------------------------------------------------------------------
  // Small state changes and the facts they keep.

  /** `pitchingCallback(err, result)` as wrapped by `runLoaders`: one more final callback. */
  function FireFinal(e: Engine, err: Value, result: Option<seq<Value>>): Engine
  {
    e.(finals := e.finals + [Final(err, result, e.resourceBuffer)])
  }

  function MarkPitched(e: Engine, i: nat): Engine
    requires i < |e.loaders|
  {
    e.(loaders := e.loaders[i := e.loaders[i].(pitchExecuted := true)])
  }

  function MarkNormal(e: Engine, i: nat): Engine
    requires i < |e.loaders|
  {
    e.(loaders := e.loaders[i := e.loaders[i].(normalExecuted := true)])
  }

  lemma ExtendsTrans(e1: Engine, e2: Engine, e3: Engine)
    requires Extends(e1, e2) && Extends(e2, e3)
    ensures Extends(e1, e3)
  {
  }

  lemma GrowUnset(ls: seq<Loader>, ls': seq<Loader>)
    requires LoadersGrow(ls, ls')
    ensures PitchPending(ls') <= PitchPending(ls) && NormalPending(ls') <= NormalPending(ls)
    ensures Unset(ls') <= Unset(ls)
  {
    assert PitchPending(ls') <= PitchPending(ls);
    assert NormalPending(ls') <= NormalPending(ls);
    SubsetCard(PitchPending(ls'), PitchPending(ls));
    SubsetCard(NormalPending(ls'), NormalPending(ls));
  }

  lemma SubsetCard(a: set<int>, b: set<int>)
    requires a <= b
    ensures |a| <= |b|
  {
    assert b == a + (b - a);
  }

  lemma MarkPitchedProgress(e: Engine, i: nat)
    requires Inv(e) && e.loaderIndex == i < |e.loaders| && !e.loaders[i].pitchExecuted
    ensures Inv(MarkPitched(e, i)) && Extends(e, MarkPitched(e, i))
    ensures Unset(MarkPitched(e, i).loaders) < Unset(e.loaders)
  {
    var ls, ls' := e.loaders, MarkPitched(e, i).loaders;
    assert PitchPending(ls') == PitchPending(ls) - {i};
    assert NormalPending(ls') == NormalPending(ls);
    assert i in PitchPending(ls);
  }

  lemma MarkNormalProgress(e: Engine, i: nat)
    requires Inv(e) && e.loaderIndex == i < |e.loaders| && !e.loaders[i].normalExecuted
    ensures Inv(MarkNormal(e, i)) && Extends(e, MarkNormal(e, i))
    ensures Unset(MarkNormal(e, i).loaders) < Unset(e.loaders)
  {
    var ls, ls' := e.loaders, MarkNormal(e, i).loaders;
    assert PitchPending(ls') == PitchPending(ls);
    assert NormalPending(ls') == NormalPending(ls) - {i};
    assert i in NormalPending(ls);
  }

  /** Appending one event leaves every earlier entry and prefix of the trace as it was. */
  lemma TraceAppend(t: seq<Event>, ev: Event)
    ensures forall b :: 0 <= b < |t| ==> (t + [ev])[b] == t[b]
    ensures forall b :: 0 <= b <= |t| ==> (t + [ev])[..b] == t[..b]
  {
    assert forall b :: 0 <= b <= |t| ==> (t + [ev])[..b] == t[..b];
  }

  /** Logging the pitch of a marked loader keeps the invariant when only pitches of other
      loaders were logged before. */
  lemma LogPitchKeepsInv(m: Engine, i: nat)
    requires Inv(m) && i < |m.loaders| && m.loaders[i].pitchExecuted
    requires forall b :: 0 <= b < |m.trace| ==> m.trace[b].PitchRan? && m.trace[b].index != i
    ensures Inv(m.(trace := m.trace + [PitchRan(i)]))
  {
    TraceAppend(m.trace, PitchRan(i));
    assert ReadIssued !in m.trace;
    assert ReadDelivered !in m.trace;
  }

  /** Logging the normal function of a marked loader keeps the invariant when a read was
      delivered and that normal function had not been logged. */
  lemma LogNormalKeepsInv(m: Engine, i: nat)
    requires Inv(m) && i < |m.loaders| && m.loaders[i].normalExecuted
    requires ReadDelivered in m.trace && NormalRan(i) !in m.trace
    ensures Inv(m.(trace := m.trace + [NormalRan(i)]))
  {
    TraceAppend(m.trace, NormalRan(i));
    assert forall b :: 0 <= b < |m.trace| && m.trace[b].NormalRan? ==> m.trace[b].index != i;
  }

  /** Recording a pitch call on a loader whose pitch had not run keeps the invariant. */
  lemma RecordPitchKeepsInv(e: Engine, i: nat)
    requires Inv(e) && e.loaderIndex == i < |e.loaders| && !e.loaders[i].pitchExecuted
    ensures Inv(MarkPitched(e, i).(trace := e.trace + [PitchRan(i)]))
    ensures Extends(e, MarkPitched(e, i).(trace := e.trace + [PitchRan(i)]))
  {
    MarkPitchedProgress(e, i);
    assert !AllPitched(e.loaders);
    assert forall b :: 0 <= b < |e.trace| ==> e.trace[b].PitchRan? && e.trace[b].index != i;
    LogPitchKeepsInv(MarkPitched(e, i), i);
  }

  /** Recording a normal call on a loader whose normal had not run keeps the invariant. */
  lemma RecordNormalKeepsInv(e: Engine, i: nat)
    requires Inv(e) && ReadDelivered in e.trace
    requires e.loaderIndex == i < |e.loaders| && !e.loaders[i].normalExecuted
    ensures Inv(MarkNormal(e, i).(trace := e.trace + [NormalRan(i)]))
    ensures Extends(e, MarkNormal(e, i).(trace := e.trace + [NormalRan(i)]))
  {
    MarkNormalProgress(e, i);
    LogNormalKeepsInv(MarkNormal(e, i), i);
  }

  /** The state in which the pitch of the loader under the cursor is applied: marked as
      pitched and logged. */
  function PitchEntered(e: Engine): (e': Engine)
    requires Inv(e) && 0 <= e.loaderIndex < |e.loaders| && !e.loaders[e.loaderIndex].pitchExecuted
    ensures Inv(e') && Extends(e, e') && Unset(e'.loaders) < Unset(e.loaders)
  {
    MarkPitchedProgress(e, e.loaderIndex);
    RecordPitchKeepsInv(e, e.loaderIndex);
    MarkPitched(e, e.loaderIndex).(trace := e.trace + [PitchRan(e.loaderIndex)])
  }

  /** The state in which the normal function of the loader under the cursor is applied:
      marked as run and logged. */
  function NormalEntered(e: Engine): (e': Engine)
    requires Inv(e) && ReadDelivered in e.trace
    requires 0 <= e.loaderIndex < |e.loaders| && !e.loaders[e.loaderIndex].normalExecuted
    ensures Inv(e') && Extends(e, e') && ReadDelivered in e'.trace
    ensures Unset(e'.loaders) < Unset(e.loaders)
  {
    MarkNormalProgress(e, e.loaderIndex);
    RecordNormalKeepsInv(e, e.loaderIndex);
    MarkNormal(e, e.loaderIndex).(trace := e.trace + [NormalRan(e.loaderIndex)])
  }

  /** The state in which `readResource`'s callback starts the normal walk: one read fewer
      pending, the buffer kept, the cursor one step back, the delivery logged. */
  function ReadArrived(cfg: Config, e: Engine): (e': Engine)
    requires Inv(e) && e.pendingReads > 0
    ensures Inv(e') && Extends(e, e') && ReadDelivered in e'.trace
  {
    TraceAppend(e.trace, ReadDelivered);
    e.(pendingReads := e.pendingReads - 1,
       resourceBuffer := cfg.read.buffer,
       loaderIndex := e.loaderIndex - 1,
       trace := e.trace + [ReadDelivered])
  }

  // ---------------------------------------------------------------------------------
  // The runner's functions.

  /** `processResource` (loader-runner/loader-runner.js:104-116) up to the `readResource`
      call, whose callback arrives later through `ResourceRead`. */
  function ProcessResource(e: Engine): (r: Step)
    requires Inv(e) && e.loaderIndex >= |e.loaders|
    ensures Inv(r.engine) && Extends(e, r.engine) && r.thrown == None
    ensures r.engine.pendingReads == e.pendingReads + 1
    ensures r.engine.trace == e.trace + [ReadIssued]
  {
    var e' := e.(pendingReads := e.pendingReads + 1, trace := e.trace + [ReadIssued]);
    assert AllPitched(e.loaders);
    ReadIssuedKeepsInv(e, e');
    Step(e', None)
  }

  lemma ReadIssuedKeepsInv(e: Engine, e': Engine)
    requires Inv(e) && AllPitched(e.loaders)
    requires e' == e.(pendingReads := e.pendingReads + 1, trace := e.trace + [ReadIssued])
    ensures Inv(e') && Extends(e, e')
  {
    assert forall b :: 0 <= b < |e.trace| ==> e'.trace[b] == e.trace[b];
    assert forall b :: 0 <= b <= |e.trace| ==> e'.trace[..b] == e.trace[..b];
    assert ReadIssued in e'.trace;
  }

  /** `iteratePitchingLoaders` (loader-runner/loader-runner.js:118-180). */
  function IteratePitchingLoaders(cfg: Config, e: Engine): (r: Step)
    requires Inv(e)
    ensures Inv(r.engine) && Extends(e, r.engine)
    decreases Unset(e.loaders), 1, |e.loaders| - e.loaderIndex
  {
    if e.loaderIndex >= |e.loaders| then
      ProcessResource(e)
    else if e.loaderIndex < 0 then
      // `loaders[loaderIndex]` is undefined: reading `.pitchExecuted` throws
      Step(e, Some(Error(TypeError)))
    else
      var i := e.loaderIndex;
      var l := e.loaders[i];
      if l.pitchExecuted then
        IteratePitchingLoaders(cfg, e.(loaderIndex := i + 1))
      else
        var e1 := MarkPitched(e, i);
        MarkPitchedProgress(e, i);
        match l.pitch
        case None =>
          var r := IteratePitchingLoaders(cfg, e1);
          ExtendsTrans(e, e1, r.engine);
          r
        case Some(fn) =>
          // `[remainingRequest, previousRequest, data]`, read at cursor i
          var args := [Str(RemainingRequest(e1.loaders, i, cfg.source)),
                       Str(PreviousRequest(e1.loaders, i)),
                       Data(e1.loaders, i).value];
          var e2 := PitchEntered(e);
          var r := RunSyncOrAsync(cfg, e2, fn(args), PitchPhase);
          ExtendsTrans(e, e2, r.engine);
          r
  }

  /** `iterateNormalLoaders` (loader-runner/loader-runner.js:63-101). */
  function IterateNormalLoaders(cfg: Config, e: Engine, args: seq<Value>): (r: Step)
    requires Inv(e) && ReadDelivered in e.trace
    ensures Inv(r.engine) && Extends(e, r.engine)
    decreases Unset(e.loaders), 1, if e.loaderIndex < 0 then 0 else e.loaderIndex + 1
  {
    if e.loaderIndex < 0 then
      Step(FireFinal(e, Null, Some(args)), None)
    else if e.loaderIndex >= |e.loaders| then
      // `loaders[loaderIndex]` is undefined: reading `.normalExecuted` throws
      Step(e, Some(Error(TypeError)))
    else
      var i := e.loaderIndex;
      var l := e.loaders[i];
      if l.normalExecuted then
        IterateNormalLoaders(cfg, e.(loaderIndex := i - 1), args)
      else
        var e1 := MarkNormal(e, i);
        MarkNormalProgress(e, i);
        match ConvertedArgs(args, l.raw)
        case Throws(x) => Step(e1, Some(x))
        case Ok(converted) =>
          var e2 := NormalEntered(e);
          var r := RunSyncOrAsync(cfg, e2, l.normal(converted), NormalPhase);
          ExtendsTrans(e, e2, r.engine);
          r
  }

  /** `runSyncOrAsync` (loader-runner/loader-runner.js:36-61), given what the phase function
      does when applied: a new callback closure (token) is installed, and
      - a plain return advances once with `(null, result)` and only then sets `isDone`;
      - a throw leaves the runner with the exception;
      - a synchronous `this.callback(...)` followed by a return advances twice;
      - `this.async()` clears `isSync`, so nothing advances now and `isDone` is never set. */
  function RunSyncOrAsync(cfg: Config, e: Engine, b: Behaviour, phase: Phase): (r: Step)
    requires Inv(e) && (phase == NormalPhase ==> ReadDelivered in e.trace)
    ensures Inv(r.engine) && Extends(e, r.engine)
    decreases Unset(e.loaders), 4, 0
  {
    var k := |e.tokens|;
    var e1 := Installed(e, phase);
    match b
    case Return(v) =>
      var r := Returned(cfg, e1, k, phase, v);
      ExtendsTrans(e, e1, r.engine);
      r
    case Throw(x) =>
      Step(e1, Some(x))
    case CallbackThenReturn(err, vs, v) =>
      var s := PhaseCallback(cfg, e1, phase, err, vs);
      ExtendsTrans(e, e1, s.engine);
      if s.thrown.Some? then s
      else
        GrowUnset(e.loaders, s.engine.loaders);
        var r := Returned(cfg, s.engine, k, phase, v);
        ExtendsTrans(e, s.engine, r.engine);
        r
    case GoAsync =>
      Step(e1.(tokens := e1.tokens[k := Token(phase, false, false)]), None)
  }

  /** The phase function returned `v` while closure `k` was still synchronous: advance with
      `(null, v)`, then set `isDone` (loader-runner/loader-runner.js:56-60). */
  function Returned(cfg: Config, e: Engine, k: nat, phase: Phase, v: Value): (r: Step)
    requires Inv(e) && k < |e.tokens| && e.tokens[k].isSync
    requires phase == NormalPhase ==> ReadDelivered in e.trace
    ensures Inv(r.engine) && Extends(e, r.engine)
    decreases Unset(e.loaders), 3, 0
  {
    var s := PhaseCallback(cfg, e, phase, Null, [v]);
    if s.thrown.Some? then s
    else
      var r := Step(MarkDone(s.engine, k), None);
      ExtendsTrans(e, s.engine, r.engine);
      r
  }

  /** The closure `runSyncOrAsync` creates becomes `loaderContext.callback`. */
  function Installed(e: Engine, phase: Phase): (e': Engine)
    requires Inv(e) && (phase == NormalPhase ==> ReadDelivered in e.trace)
    ensures Inv(e') && Extends(e, e')
  {
    e.(tokens := e.tokens + [Token(phase, true, false)], callback := Some(|e.tokens|))
  }

  /** `isDone = true` for token `k`, which is still in synchronous mode. */
  function MarkDone(e: Engine, k: nat): (e': Engine)
    requires Inv(e) && k < |e.tokens| && e.tokens[k].isSync
    ensures Inv(e') && Extends(e, e')
  {
    e.(tokens := e.tokens[k := e.tokens[k].(isDone := true)])
  }

  /** The `runCallback` closures that `iteratePitchingLoaders`
      (loader-runner/loader-runner.js:158-178) and `iterateNormalLoaders`
      (loader-runner/loader-runner.js:90-100) hand to `runSyncOrAsync`. */
  function PhaseCallback(cfg: Config, e: Engine, phase: Phase, err: Value, values: seq<Value>): (r: Step)
    requires Inv(e) && (phase == NormalPhase ==> ReadDelivered in e.trace)
    ensures Inv(r.engine) && Extends(e, r.engine)
    decreases Unset(e.loaders), 2, 0
  {
    match phase
    case PitchPhase =>
      if Truthy(err) then
        Step(FireFinal(e, err, None), None)
      else if |values| > 0 && AnyTruthy(values) then
        // the cursor steps back, then the undeclared `args` throws a ReferenceError
        Step(e.(loaderIndex := e.loaderIndex - 1), Some(Error(ReferenceError)))
      else
        IteratePitchingLoaders(cfg, e)
    case NormalPhase =>
      // the error is reported without `return`: the walk goes on regardless
      var e1 := if Truthy(err) then FireFinal(e, err, None) else e;
      var r := IterateNormalLoaders(cfg, e1, values);
      ExtendsTrans(e, e1, r.engine);
      r
  }

  // ---------------------------------------------------------------------------------
  // Entry points.

  /** The state `runLoaders` sets up (loader-runner/loader-runner.js:189-254). */
  function InitialEngine(paths: seq<string>, resolve: string -> LoaderModule): (e: Engine)
    ensures Inv(e)
    ensures |e.loaders| == |paths| && e.loaderIndex == 0
    ensures e.tokens == [] && e.finals == [] && e.trace == [] && e.pendingReads == 0
  {
    Engine(CreateLoaderObjects(paths, resolve), 0, None, [], Null, 0, [], [])
  }

  /** `runLoaders` (loader-runner/loader-runner.js:182-263): set up, then start pitching. */
  function RunLoaders(cfg: Config, paths: seq<string>, resolve: string -> LoaderModule): (r: Step)
    ensures Inv(r.engine) && Extends(InitialEngine(paths, resolve), r.engine)
  {
    IteratePitchingLoaders(cfg, InitialEngine(paths, resolve))
  }

  /** Loader code calling callback closure `k` later with `(err, ...values)`: a finished
      closure throws, any other one runs its continuation from the current cursor. */
  function InvokeCallback(cfg: Config, e: Engine, k: nat, err: Value, values: seq<Value>): (r: Step)
    requires Inv(e) && k < |e.tokens|
    ensures Inv(r.engine) && Extends(e, r.engine)
    ensures e.tokens[k].isDone ==> r == Step(e, Some(Error(AlreadyCalled)))
  {
    if e.tokens[k].isDone then Step(e, Some(Error(AlreadyCalled)))
    else PhaseCallback(cfg, e, e.tokens[k].phase, err, values)
  }

  /** The `readResource` callback of processResource (loader-runner/loader-runner.js:105-115):
      the error argument is ignored. */
  function ResourceRead(cfg: Config, e: Engine): (r: Step)
    requires Inv(e) && e.pendingReads > 0
    ensures Inv(r.engine) && Extends(e, r.engine)
  {
    var e1 := ReadArrived(cfg, e);
    var r := IterateNormalLoaders(cfg, e1, [cfg.read.buffer]);
    ExtendsTrans(e, e1, r.engine);
    r
  }
}
