/** What a run of the loader runner does, proved about the functions of `LoaderEngine`:
    - with loaders that complete synchronously, the normal walk is the composition of their
      normal functions, taken from the last loader to the first, and the whole run reads the
      resource once and reports the whole argument list of the first loader's normal function;
    - the defects of loader-runner/loader-runner.js as written: a truthy pitch result throws a
      ReferenceError instead of short-circuiting, a normal-phase error does not stop the walk,
      and a callback that went asynchronous can be called again. */
module RunProperties {
  import opened LoaderValues
  import opened LoaderObjects
  import opened LoaderEngine

  // ---------------------------------------------------------------------------------
  // Reference definitions for synchronous loaders.

  /** The outcome of the normal functions of loaders i, i-1, ..., 0 applied in turn, each
      fed the converted return list of the one before. */
  datatype ChainResult = Delivered(result: seq<Value>) | Aborted(exception: Value) | NotSynchronous

  function NormalChain(ls: seq<Loader>, i: int, args: seq<Value>): ChainResult
    requires i < |ls|
    decreases if i < 0 then 0 else i + 1
  {
    if i < 0 then Delivered(args)
    else
      match ConvertedArgs(args, ls[i].raw)
      case Throws(x) => Aborted(x)
      case Ok(c) =>
        match ls[i].normal(c)
        case Return(v) => NormalChain(ls, i - 1, [v])
        case Throw(x) => Aborted(x)
        case _ => NotSynchronous
  }

  /** `NormalRan(i), NormalRan(i-1), ..., NormalRan(0)`. */
  function Descending(i: int): (evs: seq<Event>)
    ensures |evs| == if i < 0 then 0 else i + 1
    ensures forall a :: 0 <= a < |evs| ==> evs[a] == NormalRan(i - a)
    decreases if i < 0 then 0 else i + 1
  {
    if i < 0 then [] else [NormalRan(i)] + Descending(i - 1)
  }

  /** The arguments `iteratePitchingLoaders` gives the pitch of loader i. */
  function PitchArgs(cfg: Config, ls: seq<Loader>, i: nat): seq<Value>
    requires i < |ls|
  {
    [Str(RemainingRequest(ls, i, cfg.source)), Str(PreviousRequest(ls, i)), Obj(ls[i].data)]
  }

  /** The outcome of the pitch functions of loaders i, i+1, ...: the pitch events, and
      whether the walk reached the end or met a truthy pitch result at `at`. */
  datatype PitchResult =
    | ReachedResource(events: seq<Event>)
    | ShortCircuited(at: nat, events: seq<Event>)
    | PitchAborted(exception: Value)
    | PitchNotSynchronous

  function PitchChain(cfg: Config, ls: seq<Loader>, i: nat): PitchResult
    requires i <= |ls|
    decreases |ls| - i
  {
    if i == |ls| then ReachedResource([])
    else
      match ls[i].pitch
      case None => PitchChain(cfg, ls, i + 1)
      case Some(fn) =>
        match fn(PitchArgs(cfg, ls, i))
        case Return(v) =>
          if Truthy(v) then ShortCircuited(i, [PitchRan(i)])
          else (
            match PitchChain(cfg, ls, i + 1)
            case ReachedResource(evs) => ReachedResource([PitchRan(i)] + evs)
            case ShortCircuited(k, evs) => ShortCircuited(k, [PitchRan(i)] + evs)
            case other => other)
        case Throw(x) => PitchAborted(x)
        case _ => PitchNotSynchronous
  }

  ghost predicate NormalsFresh(ls: seq<Loader>, i: int)
  {
    forall j :: 0 <= j <= i && j < |ls| ==> !ls[j].normalExecuted
  }

  ghost predicate PitchesFresh(ls: seq<Loader>, i: int)
  {
    forall j :: 0 <= i <= j < |ls| ==> !ls[j].pitchExecuted
  }

  /** What the normal walk from `e` did, given what the reference chain computes. */
  ghost predicate NormalWalkAgrees(e: Engine, r: Step, c: ChainResult)
  {
    match c
    case Delivered(res) =>
      && r.thrown == None
      && r.engine.finals == e.finals + [Final(Null, Some(res), e.resourceBuffer)]
      && r.engine.trace == e.trace + Descending(e.loaderIndex)
      && r.engine.loaderIndex == (if e.loaderIndex < 0 then e.loaderIndex else -1)
      && r.engine.pendingReads == e.pendingReads
    case Aborted(x) =>
      && r.thrown == Some(x)
      && r.engine.finals == e.finals
      && r.engine.pendingReads == e.pendingReads
    case NotSynchronous => true
  }

  /** What the pitching walk from `e` did, given what the reference chain computes. */
  ghost predicate PitchWalkAgrees(e: Engine, r: Step, p: PitchResult)
  {
    match p
    case ReachedResource(evs) =>
      && r.thrown == None
      && r.engine.trace == e.trace + evs + [ReadIssued]
      && r.engine.pendingReads == e.pendingReads + 1
      && r.engine.finals == e.finals
      && r.engine.loaderIndex == |e.loaders|
      && r.engine.resourceBuffer == e.resourceBuffer
      && |r.engine.loaders| == |e.loaders|
      && (forall j :: 0 <= j < |e.loaders| ==>
            r.engine.loaders[j].normalExecuted == e.loaders[j].normalExecuted)
    case ShortCircuited(k, evs) =>
      && r.thrown == Some(Error(ReferenceError))
      && r.engine.loaderIndex == k - 1
      && r.engine.trace == e.trace + evs
      && r.engine.pendingReads == e.pendingReads
      && r.engine.finals == e.finals
    case PitchAborted(x) =>
      && r.thrown == Some(x)
      && r.engine.pendingReads == e.pendingReads
      && r.engine.finals == e.finals
    case PitchNotSynchronous => true
  }

  // ---------------------------------------------------------------------------------
  // Frame facts: the reference chains read only what a run never changes.

  lemma {:induction false} NormalChainFrame(ls: seq<Loader>, ls': seq<Loader>, i: int, args: seq<Value>)
    requires i < |ls| == |ls'|
    requires forall j :: 0 <= j <= i ==> ls[j].raw == ls'[j].raw && ls[j].normal == ls'[j].normal
    ensures NormalChain(ls, i, args) == NormalChain(ls', i, args)
    decreases if i < 0 then 0 else i + 1
  {
    if i >= 0 {
      match ConvertedArgs(args, ls[i].raw)
      case Throws(x) =>
      case Ok(c) =>
        match ls[i].normal(c)
        case Return(v) => NormalChainFrame(ls, ls', i - 1, [v]);
        case Throw(x) =>
        case CallbackThenReturn(_, _, _) =>
        case GoAsync =>
    }
  }

  lemma PathsFrame(ls: seq<Loader>, ls': seq<Loader>)
    requires |ls| == |ls'| && forall j :: 0 <= j < |ls| ==> ls[j].path == ls'[j].path
    ensures Paths(ls) == Paths(ls')
  {
  }

  lemma {:induction false} PitchChainFrame(cfg: Config, ls: seq<Loader>, ls': seq<Loader>, i: nat)
    requires i <= |ls| == |ls'|
    requires forall j :: 0 <= j < |ls| ==> ls[j].path == ls'[j].path
    requires forall j :: i <= j < |ls| ==> ls[j].pitch == ls'[j].pitch && ls[j].data == ls'[j].data
    ensures PitchChain(cfg, ls, i) == PitchChain(cfg, ls', i)
    decreases |ls| - i
  {
    if i < |ls| {
      PathsFrame(ls, ls');
      assert PitchArgs(cfg, ls, i) == PitchArgs(cfg, ls', i);
      PitchChainFrame(cfg, ls, ls', i + 1);
    }
  }

  // ---------------------------------------------------------------------------------
  // One step of each walk.

  /** Two states that differ at most in their callback closures. */
  ghost predicate SameButTokens(a: Engine, b: Engine)
  {
    a.(tokens := b.tokens) == b
  }

  /** A phase function that returns synchronously advances the run exactly once, with
      `(null, value)`; afterwards only its own closure changes. */
  lemma ReturnAdvancesOnce(cfg: Config, e: Engine, v: Value, phase: Phase)
    requires Inv(e) && (phase == NormalPhase ==> ReadDelivered in e.trace)
    ensures Inv(Installed(e, phase))
    ensures
      var s := PhaseCallback(cfg, Installed(e, phase), phase, Null, [v]);
      var r := RunSyncOrAsync(cfg, e, Return(v), phase);
      r.thrown == s.thrown && SameButTokens(r.engine, s.engine)
    ensures
      var s := PhaseCallback(cfg, Installed(e, phase), phase, Null, [v]);
      var r := RunSyncOrAsync(cfg, e, Return(v), phase);
      && (s.thrown.Some? ==> r.engine == s.engine)
      && (s.thrown.None? ==> r.engine == MarkDone(s.engine, |e.tokens|))
  {
    assert Installed(e, phase) == e.(tokens := e.tokens + [Token(phase, true, false)], callback := Some(|e.tokens|));
  }

  /** The normal walk steps over a loader whose normal function already ran. */
  lemma SkipNormal(cfg: Config, e: Engine, args: seq<Value>)
    requires Inv(e) && ReadDelivered in e.trace
    requires 0 <= e.loaderIndex < |e.loaders| && e.loaders[e.loaderIndex].normalExecuted
    ensures Inv(e.(loaderIndex := e.loaderIndex - 1))
    ensures IterateNormalLoaders(cfg, e, args) ==
            IterateNormalLoaders(cfg, e.(loaderIndex := e.loaderIndex - 1), args)
  {
  }

  /** The normal walk on a loader whose normal function has not run yet: convert the
      arguments, then apply its normal function through `runSyncOrAsync`. */
  lemma EnterNormal(cfg: Config, e: Engine, args: seq<Value>, c: seq<Value>)
    requires Inv(e) && ReadDelivered in e.trace
    requires 0 <= e.loaderIndex < |e.loaders| && !e.loaders[e.loaderIndex].normalExecuted
    requires ConvertedArgs(args, e.loaders[e.loaderIndex].raw) == Ok(c)
    ensures IterateNormalLoaders(cfg, e, args) ==
            RunSyncOrAsync(cfg, NormalEntered(e), e.loaders[e.loaderIndex].normal(c), NormalPhase)
  {
  }

  /** The callback of a normal function, called without an error, resumes the walk. */
  lemma NormalCallbackResumes(cfg: Config, e: Engine, values: seq<Value>)
    requires Inv(e) && ReadDelivered in e.trace
    ensures PhaseCallback(cfg, e, NormalPhase, Null, values) == IterateNormalLoaders(cfg, e, values)
  {
  }

  /** The pitching walk steps over a loader whose pitch already ran. */
  lemma SkipPitch(cfg: Config, e: Engine)
    requires Inv(e) && 0 <= e.loaderIndex < |e.loaders| && e.loaders[e.loaderIndex].pitchExecuted
    ensures Inv(e.(loaderIndex := e.loaderIndex + 1))
    ensures IteratePitchingLoaders(cfg, e) == IteratePitchingLoaders(cfg, e.(loaderIndex := e.loaderIndex + 1))
  {
  }

  /** The pitching walk on a loader whose pitch has not run: without a pitch function the
      walk moves on, otherwise the pitch is applied through `runSyncOrAsync`. */
  lemma EnterPitch(cfg: Config, e: Engine)
    requires Inv(e) && 0 <= e.loaderIndex < |e.loaders| && !e.loaders[e.loaderIndex].pitchExecuted
    ensures Inv(MarkPitched(e, e.loaderIndex))
    ensures PitchArgs(cfg, e.loaders, e.loaderIndex)[2] == Data(e.loaders, e.loaderIndex).value
    ensures e.loaders[e.loaderIndex].pitch.None? ==>
      IteratePitchingLoaders(cfg, e) == IteratePitchingLoaders(cfg, MarkPitched(e, e.loaderIndex))
    ensures e.loaders[e.loaderIndex].pitch.Some? ==>
      IteratePitchingLoaders(cfg, e) ==
      RunSyncOrAsync(cfg, PitchEntered(e),
        e.loaders[e.loaderIndex].pitch.value(PitchArgs(cfg, MarkPitched(e, e.loaderIndex).loaders, e.loaderIndex)),
        PitchPhase)
  {
    MarkPitchedProgress(e, e.loaderIndex);
  }

  /** The callback of a pitch, called without an error: a truthy value steps the cursor back
      and throws the ReferenceError of the undeclared `args`; otherwise the walk resumes. */
  lemma PitchCallbackResumes(cfg: Config, e: Engine, v: Value)
    requires Inv(e)
    ensures Truthy(v) ==>
      PhaseCallback(cfg, e, PitchPhase, Null, [v]) ==
      Step(e.(loaderIndex := e.loaderIndex - 1), Some(Error(ReferenceError)))
    ensures !Truthy(v) ==> PhaseCallback(cfg, e, PitchPhase, Null, [v]) == IteratePitchingLoaders(cfg, e)
  {
    assert AnyTruthy([v]) <==> Truthy(v) by {
      assert [v][0] == v;
    }
  }

  // ---------------------------------------------------------------------------------
  // The walks agree with the reference chains.

  /** From a cursor whose loader and all below it have not run their normal function, the
      normal walk runs them strictly downwards, each once, threading each loader's return
      list into the next, and hands the last list whole to the final callback. */
  lemma {:induction false} NormalWalkMatchesChain(cfg: Config, e: Engine, args: seq<Value>)
    requires Inv(e) && ReadDelivered in e.trace && e.loaderIndex < |e.loaders|
    requires NormalsFresh(e.loaders, e.loaderIndex)
    ensures NormalWalkAgrees(e, IterateNormalLoaders(cfg, e, args), NormalChain(e.loaders, e.loaderIndex, args))
    decreases if e.loaderIndex < 0 then 0 else e.loaderIndex + 1
  {
    var i := e.loaderIndex;
    if i < 0 {
      return;
    }
    var l := e.loaders[i];
    match ConvertedArgs(args, l.raw)
    case Throws(x) =>
    case Ok(c) =>
      EnterNormal(cfg, e, args, c);
      var e2 := NormalEntered(e);
      match l.normal(c)
      case Throw(x) =>
      case CallbackThenReturn(_, _, _) =>
      case GoAsync =>
      case Return(v) =>
        NormalReturnStep(cfg, e, args, c, v);
        var e4 := Installed(e2, NormalPhase).(loaderIndex := i - 1);
        NormalWalkMatchesChain(cfg, e4, [v]);
        NormalAgreesAfterStep(e, e4, IterateNormalLoaders(cfg, e, args), IterateNormalLoaders(cfg, e4, [v]),
                              NormalChain(e.loaders, i, args));
  }

  /** What the walk below loader i did, seen from loader i: one more normal event in front. */
  lemma NormalAgreesAfterStep(e: Engine, e4: Engine, r: Step, r4: Step, c: ChainResult)
    requires 0 <= e.loaderIndex && e4.loaderIndex == e.loaderIndex - 1
    requires e4.trace == e.trace + [NormalRan(e.loaderIndex)]
    requires e4.finals == e.finals && e4.resourceBuffer == e.resourceBuffer && e4.pendingReads == e.pendingReads
    requires r.thrown == r4.thrown && SameButTokens(r.engine, r4.engine)
    requires NormalWalkAgrees(e4, r4, c)
    ensures NormalWalkAgrees(e, r, c)
  {
    assert e.trace + Descending(e.loaderIndex) == e4.trace + Descending(e4.loaderIndex);
  }

  /** A normal function that returns synchronously: the walk goes on at the loader below,
      with the returned value as its only argument; the two runs differ at most in their
      callback closures. */
  lemma NormalReturnStep(cfg: Config, e: Engine, args: seq<Value>, c: seq<Value>, v: Value)
    requires Inv(e) && ReadDelivered in e.trace && NormalsFresh(e.loaders, e.loaderIndex)
    requires 0 <= e.loaderIndex < |e.loaders| && !e.loaders[e.loaderIndex].normalExecuted
    requires ConvertedArgs(args, e.loaders[e.loaderIndex].raw) == Ok(c)
    requires e.loaders[e.loaderIndex].normal(c) == Return(v)
    ensures
      var e4 := Installed(NormalEntered(e), NormalPhase).(loaderIndex := e.loaderIndex - 1);
      && NormalStepped(e, e4, v, args)
      && var r := IterateNormalLoaders(cfg, e, args);
         var r4 := IterateNormalLoaders(cfg, e4, [v]);
         r.thrown == r4.thrown && SameButTokens(r.engine, r4.engine)
  {
    EnterNormal(cfg, e, args, c);
    var e2 := NormalEntered(e);
    ReturnAdvancesOnce(cfg, e2, v, NormalPhase);
    var e3 := Installed(e2, NormalPhase);
    NormalCallbackResumes(cfg, e3, [v]);
    SkipNormal(cfg, e3, [v]);
    NormalSteppedState(e, c, v, args);
  }

  /** The state `e4` the normal walk reaches from `e` after one synchronous return of `v`. */
  ghost predicate NormalStepped(e: Engine, e4: Engine, v: Value, args: seq<Value>)
    requires 0 <= e.loaderIndex < |e.loaders|
  {
    && Inv(e4) && ReadDelivered in e4.trace
    && e4.loaderIndex == e.loaderIndex - 1 < |e4.loaders| && NormalsFresh(e4.loaders, e4.loaderIndex)
    && e4.trace == e.trace + [NormalRan(e.loaderIndex)]
    && e4.finals == e.finals && e4.resourceBuffer == e.resourceBuffer && e4.pendingReads == e.pendingReads
    && NormalChain(e4.loaders, e4.loaderIndex, [v]) == NormalChain(e.loaders, e.loaderIndex, args)
  }

  lemma NormalSteppedState(e: Engine, c: seq<Value>, v: Value, args: seq<Value>)
    requires Inv(e) && ReadDelivered in e.trace && NormalsFresh(e.loaders, e.loaderIndex)
    requires 0 <= e.loaderIndex < |e.loaders| && !e.loaders[e.loaderIndex].normalExecuted
    requires ConvertedArgs(args, e.loaders[e.loaderIndex].raw) == Ok(c)
    requires e.loaders[e.loaderIndex].normal(c) == Return(v)
    ensures NormalStepped(e, Installed(NormalEntered(e), NormalPhase).(loaderIndex := e.loaderIndex - 1), v, args)
  {
    var e4 := Installed(NormalEntered(e), NormalPhase).(loaderIndex := e.loaderIndex - 1);
    NormalChainFrame(e.loaders, e4.loaders, e.loaderIndex - 1, [v]);
  }

  /** From a cursor at which no pitch has run yet, the pitching walk runs the pitches upwards,
      each once; it issues the resource read exactly when no pitch returned a truthy value,
      and otherwise throws the ReferenceError of the undeclared `args` with the cursor one
      step back and no read issued. */
  lemma {:induction false} PitchWalkMatchesChain(cfg: Config, e: Engine)
    requires Inv(e) && 0 <= e.loaderIndex <= |e.loaders|
    requires PitchesFresh(e.loaders, e.loaderIndex)
    ensures PitchWalkAgrees(e, IteratePitchingLoaders(cfg, e), PitchChain(cfg, e.loaders, e.loaderIndex))
    decreases |e.loaders| - e.loaderIndex, 2
  {
    if e.loaderIndex < |e.loaders| {
      match e.loaders[e.loaderIndex].pitch
      case None => PitchlessStep(cfg, e);
      case Some(fn) =>
        var args := PitchArgs(cfg, e.loaders, e.loaderIndex);
        match fn(args)
        case Return(v) => PitchReturnStep(cfg, e, fn, v);
        case Throw(x) => PitchOtherStep(cfg, e, fn);
        case CallbackThenReturn(_, _, _) => PitchOtherStep(cfg, e, fn);
        case GoAsync => PitchOtherStep(cfg, e, fn);
    }
  }

  /** The descriptor list after a pitch has been marked: paths, code and data unchanged. */
  lemma MarkPitchedFrame(cfg: Config, e: Engine)
    requires Inv(e) && 0 <= e.loaderIndex < |e.loaders|
    ensures var ls' := MarkPitched(e, e.loaderIndex).loaders;
      && PitchChain(cfg, ls', e.loaderIndex + 1) == PitchChain(cfg, e.loaders, e.loaderIndex + 1)
      && PitchArgs(cfg, ls', e.loaderIndex) == PitchArgs(cfg, e.loaders, e.loaderIndex)
  {
    var ls' := MarkPitched(e, e.loaderIndex).loaders;
    PitchChainFrame(cfg, e.loaders, ls', e.loaderIndex + 1);
    PathsFrame(e.loaders, ls');
  }

  /** The state `e6` the pitching walk reaches from `e` after dealing with loader i, from
      which it continues at loader i + 1: one pitch marked, at most one pitch event logged,
      and everything the reference chain and the outcome depend on unchanged. */
  ghost predicate PitchStepped(cfg: Config, e: Engine, e6: Engine, evs: seq<Event>)
    requires 0 <= e.loaderIndex < |e.loaders|
  {
    && Inv(e6) && e6.loaderIndex == e.loaderIndex + 1 <= |e6.loaders| == |e.loaders|
    && PitchesFresh(e6.loaders, e6.loaderIndex)
    && LogsOnly(e, e6, evs)
    && PitchChain(cfg, e6.loaders, e6.loaderIndex) == PitchChain(cfg, e.loaders, e.loaderIndex + 1)
  }

  /** What the walk from loader i + 1 did, seen from loader i, when loader i logged `evs`
      and let the walk go on. */
  /** `e6` differs from `e` in its log by `evs` and otherwise only in pitch flags,
      closures and the cursor. */
  ghost predicate LogsOnly(e: Engine, e6: Engine, evs: seq<Event>)
  {
    && e6.trace == e.trace + evs
    && e6.finals == e.finals && e6.resourceBuffer == e.resourceBuffer && e6.pendingReads == e.pendingReads
    && |e6.loaders| == |e.loaders|
    && (forall j :: 0 <= j < |e.loaders| ==> e6.loaders[j].normalExecuted == e.loaders[j].normalExecuted)
  }

  lemma PitchAgreesAfterStep(cfg: Config, e: Engine, e6: Engine, evs: seq<Event>, r: Step, r6: Step)
    requires 0 <= e.loaderIndex < |e.loaders| && PitchStepped(cfg, e, e6, evs)
    requires PassesOn(cfg, e.loaders, e.loaderIndex, evs)
    requires r.thrown == r6.thrown && SameButTokens(r.engine, r6.engine)
    requires PitchWalkAgrees(e6, r6, PitchChain(cfg, e6.loaders, e6.loaderIndex))
    ensures PitchWalkAgrees(e, r, PitchChain(cfg, e.loaders, e.loaderIndex))
  {
    var i := e.loaderIndex;
    PitchChainPassesOn(cfg, e.loaders, i, evs);
    var p := PitchChain(cfg, e.loaders, i + 1);
    assert PitchWalkAgrees(e6, r6, p);
    if p.ReachedResource? {
      ReachedAgrees(e, e6, evs, p.events, r, r6);
    } else if p.ShortCircuited? {
      ShortCircuitedAgrees(e, e6, evs, p.at, p.events, r, r6);
    }
  }

  lemma ReachedAgrees(e: Engine, e6: Engine, evs: seq<Event>, evs': seq<Event>, r: Step, r6: Step)
    requires LogsOnly(e, e6, evs)
    requires r.thrown == r6.thrown && SameButTokens(r.engine, r6.engine)
    requires PitchWalkAgrees(e6, r6, ReachedResource(evs'))
    ensures PitchWalkAgrees(e, r, ReachedResource(evs + evs'))
  {
    assert e6.trace + evs' + [ReadIssued] == e.trace + (evs + evs') + [ReadIssued];
  }

  lemma ShortCircuitedAgrees(e: Engine, e6: Engine, evs: seq<Event>, k: nat, evs': seq<Event>, r: Step, r6: Step)
    requires LogsOnly(e, e6, evs)
    requires r.thrown == r6.thrown && SameButTokens(r.engine, r6.engine)
    requires PitchWalkAgrees(e6, r6, ShortCircuited(k, evs'))
    ensures PitchWalkAgrees(e, r, ShortCircuited(k, evs + evs'))
  {
    assert e6.trace + evs' == e.trace + (evs + evs');
  }


  /** Loader i lets the pitching walk go on, logging `evs`: it has no pitch, or its pitch
      returns a falsy value. */
  ghost predicate PassesOn(cfg: Config, ls: seq<Loader>, i: nat, evs: seq<Event>)
    requires i < |ls|
  {
    if ls[i].pitch.None? then evs == []
    else
      && evs == [PitchRan(i)]
      && ls[i].pitch.value(PitchArgs(cfg, ls, i)).Return?
      && !Truthy(ls[i].pitch.value(PitchArgs(cfg, ls, i)).value)
  }

  /** The reference chain from loader i is the one from i + 1 with `evs` in front. */
  lemma PitchChainPassesOn(cfg: Config, ls: seq<Loader>, i: nat, evs: seq<Event>)
    requires i < |ls| && PassesOn(cfg, ls, i, evs)
    ensures PitchChain(cfg, ls, i + 1).ReachedResource? ==>
      PitchChain(cfg, ls, i) == ReachedResource(evs + PitchChain(cfg, ls, i + 1).events)
    ensures PitchChain(cfg, ls, i + 1).ShortCircuited? ==>
      PitchChain(cfg, ls, i) ==
      ShortCircuited(PitchChain(cfg, ls, i + 1).at, evs + PitchChain(cfg, ls, i + 1).events)
    ensures PitchChain(cfg, ls, i + 1).PitchAborted? || PitchChain(cfg, ls, i + 1).PitchNotSynchronous? ==>
      PitchChain(cfg, ls, i) == PitchChain(cfg, ls, i + 1)
  {
    if ls[i].pitch.None? {
      var p := PitchChain(cfg, ls, i + 1);
      if p.ReachedResource? || p.ShortCircuited? {
        assert evs + p.events == p.events;
      }
    }
  }


  lemma {:induction false} PitchlessStep(cfg: Config, e: Engine)
    requires Inv(e) && 0 <= e.loaderIndex < |e.loaders|
    requires PitchesFresh(e.loaders, e.loaderIndex) && e.loaders[e.loaderIndex].pitch.None?
    ensures PitchWalkAgrees(e, IteratePitchingLoaders(cfg, e), PitchChain(cfg, e.loaders, e.loaderIndex))
    decreases |e.loaders| - e.loaderIndex, 1
  {
    var e6 := MarkPitched(e, e.loaderIndex).(loaderIndex := e.loaderIndex + 1);
    PitchlessState(cfg, e);
    PitchWalkMatchesChain(cfg, e6);
    PitchAgreesAfterStep(cfg, e, e6, [], IteratePitchingLoaders(cfg, e), IteratePitchingLoaders(cfg, e6));
  }

  /** Without a pitch function the walk marks the loader and moves on without a call. */
  lemma PitchlessState(cfg: Config, e: Engine)
    requires Inv(e) && 0 <= e.loaderIndex < |e.loaders|
    requires PitchesFresh(e.loaders, e.loaderIndex) && e.loaders[e.loaderIndex].pitch.None?
    ensures
      var e6 := MarkPitched(e, e.loaderIndex).(loaderIndex := e.loaderIndex + 1);
      && PitchStepped(cfg, e, e6, [])
      && IteratePitchingLoaders(cfg, e) == IteratePitchingLoaders(cfg, e6)
  {
    var e1 := MarkPitched(e, e.loaderIndex);
    EnterPitch(cfg, e);
    var e6 := e1.(loaderIndex := e.loaderIndex + 1);
    assert e6 == e1.(loaderIndex := e1.loaderIndex + 1);
    SkipPitch(cfg, e1);
    MarkedStepState(cfg, e, e6, []);
  }

  lemma PitchOtherStep(cfg: Config, e: Engine, fn: PhaseFn)
    requires Inv(e) && 0 <= e.loaderIndex < |e.loaders|
    requires PitchesFresh(e.loaders, e.loaderIndex) && e.loaders[e.loaderIndex].pitch == Some(fn)
    requires !fn(PitchArgs(cfg, e.loaders, e.loaderIndex)).Return?
    ensures PitchWalkAgrees(e, IteratePitchingLoaders(cfg, e), PitchChain(cfg, e.loaders, e.loaderIndex))
  {
    EnterPitch(cfg, e);
    MarkPitchedFrame(cfg, e);
  }

  lemma {:induction false} PitchReturnStep(cfg: Config, e: Engine, fn: PhaseFn, v: Value)
    requires Inv(e) && 0 <= e.loaderIndex < |e.loaders|
    requires PitchesFresh(e.loaders, e.loaderIndex) && e.loaders[e.loaderIndex].pitch == Some(fn)
    requires fn(PitchArgs(cfg, e.loaders, e.loaderIndex)) == Return(v)
    ensures PitchWalkAgrees(e, IteratePitchingLoaders(cfg, e), PitchChain(cfg, e.loaders, e.loaderIndex))
    decreases |e.loaders| - e.loaderIndex, 1
  {
    if Truthy(v) {
      PitchTruthyStep(cfg, e, fn, v);
    } else {
      var e6 := Installed(PitchEntered(e), PitchPhase).(loaderIndex := e.loaderIndex + 1);
      PitchFalsyStep(cfg, e, fn, v);
      PitchWalkMatchesChain(cfg, e6);
      PitchAgreesAfterStep(cfg, e, e6, [PitchRan(e.loaderIndex)],
                           IteratePitchingLoaders(cfg, e), IteratePitchingLoaders(cfg, e6));
    }
  }

  /** A pitch returning a truthy value ends the walk with the ReferenceError. */
  lemma PitchTruthyStep(cfg: Config, e: Engine, fn: PhaseFn, v: Value)
    requires Inv(e) && 0 <= e.loaderIndex < |e.loaders|
    requires e.loaders[e.loaderIndex].pitch == Some(fn) && !e.loaders[e.loaderIndex].pitchExecuted
    requires fn(PitchArgs(cfg, e.loaders, e.loaderIndex)) == Return(v) && Truthy(v)
    ensures PitchWalkAgrees(e, IteratePitchingLoaders(cfg, e), PitchChain(cfg, e.loaders, e.loaderIndex))
  {
    EnterPitch(cfg, e);
    MarkPitchedFrame(cfg, e);
    var e2 := PitchEntered(e);
    ReturnAdvancesOnce(cfg, e2, v, PitchPhase);
    PitchCallbackResumes(cfg, Installed(e2, PitchPhase), v);
  }

  /** A pitch returning a falsy value lets the walk go on at the next loader. */
  lemma PitchFalsyStep(cfg: Config, e: Engine, fn: PhaseFn, v: Value)
    requires Inv(e) && 0 <= e.loaderIndex < |e.loaders|
    requires PitchesFresh(e.loaders, e.loaderIndex) && e.loaders[e.loaderIndex].pitch == Some(fn)
    requires fn(PitchArgs(cfg, e.loaders, e.loaderIndex)) == Return(v) && !Truthy(v)
    ensures
      var e6 := Installed(PitchEntered(e), PitchPhase).(loaderIndex := e.loaderIndex + 1);
      && PitchStepped(cfg, e, e6, [PitchRan(e.loaderIndex)])
      && var r := IteratePitchingLoaders(cfg, e);
         var r6 := IteratePitchingLoaders(cfg, e6);
         r.thrown == r6.thrown && SameButTokens(r.engine, r6.engine)
  {
    EnterPitch(cfg, e);
    MarkPitchedFrame(cfg, e);
    var e2 := PitchEntered(e);
    var r := IteratePitchingLoaders(cfg, e);
    assert r == RunSyncOrAsync(cfg, e2, Return(v), PitchPhase);
    ReturnAdvancesOnce(cfg, e2, v, PitchPhase);
    assert e2.loaderIndex == e.loaderIndex;
    var e6 := Installed(e2, PitchPhase).(loaderIndex := e.loaderIndex + 1);
    assert e6 == Installed(e2, PitchPhase).(loaderIndex := e2.loaderIndex + 1);
    PitchResumesAfter(cfg, e2, v);
    PitchFalsyState(cfg, e);
  }

  /** Once the pitch of the loader under the cursor has run and returned a falsy value,
      its callback moves the walk to the next loader. */
  lemma PitchResumesAfter(cfg: Config, e2: Engine, v: Value)
    requires Inv(e2) && 0 <= e2.loaderIndex < |e2.loaders| && e2.loaders[e2.loaderIndex].pitchExecuted
    requires !Truthy(v)
    ensures var e3 := Installed(e2, PitchPhase);
      PhaseCallback(cfg, e3, PitchPhase, Null, [v]) ==
      IteratePitchingLoaders(cfg, e3.(loaderIndex := e2.loaderIndex + 1))
  {
    var e3 := Installed(e2, PitchPhase);
    assert e3.loaderIndex == e2.loaderIndex;
    var e4 := e3.(loaderIndex := e2.loaderIndex + 1);
    assert e4 == e3.(loaderIndex := e3.loaderIndex + 1);
    PitchCallbackResumes(cfg, e3, v);
    SkipPitch(cfg, e3);
    assert IteratePitchingLoaders(cfg, e3) == IteratePitchingLoaders(cfg, e4);
  }

  lemma PitchFalsyState(cfg: Config, e: Engine)
    requires Inv(e) && 0 <= e.loaderIndex < |e.loaders|
    requires PitchesFresh(e.loaders, e.loaderIndex) && e.loaders[e.loaderIndex].pitch.Some?
    ensures PitchStepped(cfg, e, Installed(PitchEntered(e), PitchPhase).(loaderIndex := e.loaderIndex + 1),
                         [PitchRan(e.loaderIndex)])
  {
    var e3 := Installed(PitchEntered(e), PitchPhase);
    SkipPitch(cfg, e3);
    MarkedStepState(cfg, e, e3.(loaderIndex := e.loaderIndex + 1), [PitchRan(e.loaderIndex)]);
  }

  /** A state that differs from `e` only in loader i marked as pitched, the cursor moved on,
      `evs` logged and closures added satisfies `PitchStepped`. */
  lemma MarkedStepState(cfg: Config, e: Engine, e6: Engine, evs: seq<Event>)
    requires Inv(e) && 0 <= e.loaderIndex < |e.loaders| && PitchesFresh(e.loaders, e.loaderIndex)
    requires Inv(e6) && e6.loaderIndex == e.loaderIndex + 1
    requires e6.loaders == e.loaders[e.loaderIndex := e.loaders[e.loaderIndex].(pitchExecuted := true)]
    requires e6.trace == e.trace + evs
    requires e6.finals == e.finals && e6.resourceBuffer == e.resourceBuffer && e6.pendingReads == e.pendingReads
    ensures PitchStepped(cfg, e, e6, evs)
  {
    PitchChainFrame(cfg, e.loaders, e6.loaders, e.loaderIndex + 1);
  }


  // ---------------------------------------------------------------------------------
  // Whole runs.

  /** A run whose pitches all return falsy values synchronously and whose normal functions
      all return synchronously: `runLoaders` issues exactly one read and reports nothing yet;
      when the read calls back, the normal functions run from the last loader down to the
      first and the final callback fires once, without error, with the first loader's whole
      return list and the resource buffer. The read error is not looked at. */
  lemma SynchronousRun(cfg: Config, paths: seq<string>, resolve: string -> LoaderModule)
    requires PitchChain(cfg, InitialEngine(paths, resolve).loaders, 0).ReachedResource?
    requires NormalChain(InitialEngine(paths, resolve).loaders, |paths| - 1, [cfg.read.buffer]).Delivered?
    ensures
      var ls := InitialEngine(paths, resolve).loaders;
      var s1 := RunLoaders(cfg, paths, resolve);
      && s1.thrown == None
      && s1.engine.pendingReads == 1
      && s1.engine.finals == []
      && s1.engine.trace == PitchChain(cfg, ls, 0).events + [ReadIssued]
      && var s2 := ResourceRead(cfg, s1.engine);
         && s2.thrown == None
         && s2.engine.pendingReads == 0
         && s2.engine.finals ==
              [Final(Null, Some(NormalChain(ls, |paths| - 1, [cfg.read.buffer]).result), cfg.read.buffer)]
         && s2.engine.trace ==
              PitchChain(cfg, ls, 0).events + [ReadIssued, ReadDelivered] + Descending(|paths| - 1)
  {
    var ls := InitialEngine(paths, resolve).loaders;
    SynchronousPitching(cfg, paths, resolve);
    var e := RunLoaders(cfg, paths, resolve).engine;
    ReadAfterPitching(cfg, ls, e, PitchChain(cfg, ls, 0).events);
  }

  /** `ReadStartsNormalWalk` restated for a run whose pitching walk logged `events` and left
      the reference chain of the normal functions as it was on `ls`. */
  lemma ReadAfterPitching(cfg: Config, ls: seq<Loader>, e: Engine, events: seq<Event>)
    requires Inv(e) && e.pendingReads == 1 && e.finals == [] && e.trace == events + [ReadIssued]
    requires e.loaderIndex == |e.loaders| == |ls|
    requires NormalsFresh(e.loaders, |ls| - 1)
    requires NormalChain(e.loaders, |ls| - 1, [cfg.read.buffer]) == NormalChain(ls, |ls| - 1, [cfg.read.buffer])
    requires NormalChain(ls, |ls| - 1, [cfg.read.buffer]).Delivered?
    ensures
      var s2 := ResourceRead(cfg, e);
      && s2.thrown == None
      && s2.engine.pendingReads == 0
      && s2.engine.finals == [Final(Null, Some(NormalChain(ls, |ls| - 1, [cfg.read.buffer]).result), cfg.read.buffer)]
      && s2.engine.trace == events + [ReadIssued, ReadDelivered] + Descending(|ls| - 1)
  {
    ReadStartsNormalWalk(cfg, e);
    assert events + [ReadIssued] + [ReadDelivered] == events + [ReadIssued, ReadDelivered];
  }

  /** The pitching half of `SynchronousRun`: one read issued, every normal function still to
      run, and the reference chain of the normal functions unchanged. */
  lemma SynchronousPitching(cfg: Config, paths: seq<string>, resolve: string -> LoaderModule)
    requires PitchChain(cfg, InitialEngine(paths, resolve).loaders, 0).ReachedResource?
    ensures
      var ls := InitialEngine(paths, resolve).loaders;
      var s1 := RunLoaders(cfg, paths, resolve);
      && s1.thrown == None
      && s1.engine.pendingReads == 1
      && s1.engine.finals == []
      && s1.engine.trace == PitchChain(cfg, ls, 0).events + [ReadIssued]
      && s1.engine.loaderIndex == |s1.engine.loaders| == |paths|
      && NormalsFresh(s1.engine.loaders, |paths| - 1)
      && NormalChain(s1.engine.loaders, |paths| - 1, [cfg.read.buffer]) ==
         NormalChain(ls, |paths| - 1, [cfg.read.buffer])
  {
    var e0 := InitialEngine(paths, resolve);
    PitchWalkMatchesChain(cfg, e0);
    var s1 := RunLoaders(cfg, paths, resolve);
    assert s1 == IteratePitchingLoaders(cfg, e0);
    NormalChainFrame(e0.loaders, s1.engine.loaders, |paths| - 1, [cfg.read.buffer]);
  }

  /** When the read arrives after a complete pitching walk, the normal walk starts at the
      last loader with the resource buffer as its only argument; with synchronous normal
      functions it runs them all and reports their result once, with the buffer. */
  lemma ReadStartsNormalWalk(cfg: Config, e: Engine)
    requires Inv(e) && e.pendingReads > 0 && e.loaderIndex == |e.loaders|
    requires NormalsFresh(e.loaders, |e.loaders| - 1)
    requires NormalChain(e.loaders, |e.loaders| - 1, [cfg.read.buffer]).Delivered?
    ensures
      var r := ResourceRead(cfg, e);
      && r.thrown == None
      && r.engine.pendingReads == e.pendingReads - 1
      && r.engine.finals == e.finals + [Final(Null, Some(NormalChain(e.loaders, |e.loaders| - 1, [cfg.read.buffer]).result),
                                              cfg.read.buffer)]
      && r.engine.trace == e.trace + [ReadDelivered] + Descending(|e.loaders| - 1)
      && r.engine.loaderIndex == -1
  {
    var e1 := ReadArrived(cfg, e);
    assert ResourceRead(cfg, e) == IterateNormalLoaders(cfg, e1, [cfg.read.buffer]);
    NormalWalkMatchesChain(cfg, e1, [cfg.read.buffer]);
  }


  /** The same run when a pitch returns a truthy value: instead of skipping to the previous
      loader's normal function, `runLoaders` throws a ReferenceError; the resource is never
      read and the final callback never fires. */
  lemma TruthyPitchThrows(cfg: Config, paths: seq<string>, resolve: string -> LoaderModule)
    requires PitchChain(cfg, InitialEngine(paths, resolve).loaders, 0).ShortCircuited?
    ensures
      var s := RunLoaders(cfg, paths, resolve);
      && s.thrown == Some(Error(ReferenceError))
      && s.engine.loaderIndex == PitchChain(cfg, InitialEngine(paths, resolve).loaders, 0).at - 1
      && s.engine.pendingReads == 0
      && ReadIssued !in s.engine.trace
      && s.engine.finals == []
  {
    var e0 := InitialEngine(paths, resolve);
    PitchWalkMatchesChain(cfg, e0);
    var s := RunLoaders(cfg, paths, resolve);
    var evs := PitchChain(cfg, e0.loaders, 0).events;
    assert s.engine.trace == evs;
    PitchEventsOnly(cfg, e0.loaders, 0);
  }

  lemma {:induction false} PitchEventsOnly(cfg: Config, ls: seq<Loader>, i: nat)
    requires i <= |ls|
    ensures PitchChain(cfg, ls, i).ReachedResource? || PitchChain(cfg, ls, i).ShortCircuited? ==>
      forall a :: 0 <= a < |PitchChain(cfg, ls, i).events| ==> PitchChain(cfg, ls, i).events[a].PitchRan?
    decreases |ls| - i
  {
    if i < |ls| {
      PitchEventsOnly(cfg, ls, i + 1);
    }
  }

  /** A loader that finished its normal function asynchronously and reports an error: the
      final callback fires with the error, and because the walk is not stopped it fires a
      second time with the result of the remaining loaders. */
  lemma NormalErrorDoesNotStopWalk(cfg: Config, e: Engine, k: nat, err: Value, values: seq<Value>)
    requires Inv(e) && k < |e.tokens| && !e.tokens[k].isDone && e.tokens[k].phase == NormalPhase
    requires Truthy(err)
    requires 0 <= e.loaderIndex < |e.loaders| && e.loaders[e.loaderIndex].normalExecuted
    requires NormalsFresh(e.loaders, e.loaderIndex - 1)
    requires NormalChain(e.loaders, e.loaderIndex - 1, values).Delivered?
    ensures
      var r := InvokeCallback(cfg, e, k, err, values);
      && r.thrown == None
      && r.engine.finals == e.finals + [
           Final(err, None, e.resourceBuffer),
           Final(Null, Some(NormalChain(e.loaders, e.loaderIndex - 1, values).result), e.resourceBuffer)]
  {
    var e1 := FireFinal(e, err, None);
    assert Inv(e1) && ReadDelivered in e1.trace;
    assert InvokeCallback(cfg, e, k, err, values) == IterateNormalLoaders(cfg, e1, values);
    SkipNormal(cfg, e1, values);
    NormalWalkMatchesChain(cfg, e1.(loaderIndex := e.loaderIndex - 1), values);
  }

  /** A phase function that returns synchronously leaves its callback finished: calling it
      afterwards throws instead of advancing the run again. */
  lemma SyncCallbackFinishes(cfg: Config, e: Engine, v: Value, phase: Phase, err: Value, values: seq<Value>)
    requires Inv(e) && (phase == NormalPhase ==> ReadDelivered in e.trace)
    requires RunSyncOrAsync(cfg, e, Return(v), phase).thrown == None
    ensures
      var r := RunSyncOrAsync(cfg, e, Return(v), phase).engine;
      && |e.tokens| < |r.tokens|
      && InvokeCallback(cfg, r, |e.tokens|, err, values) == Step(r, Some(Error(AlreadyCalled)))
  {
  }

  /** A phase function that went asynchronous never has its callback finished: every later
      call runs the continuation again. */
  lemma AsyncCallbackNeverFinishes(cfg: Config, e: Engine, phase: Phase, later: Engine, err: Value, values: seq<Value>)
    requires Inv(e) && (phase == NormalPhase ==> ReadDelivered in e.trace)
    requires Inv(later) && Extends(RunSyncOrAsync(cfg, e, GoAsync, phase).engine, later)
    ensures |e.tokens| < |later.tokens| && !later.tokens[|e.tokens|].isDone
    ensures InvokeCallback(cfg, later, |e.tokens|, err, values) ==
            PhaseCallback(cfg, later, phase, err, values)
  {
    var r := RunSyncOrAsync(cfg, e, GoAsync, phase).engine;
    assert !r.tokens[|e.tokens|].isSync;
    assert !later.tokens[|e.tokens|].isSync;
  }

  /** A pitch whose callback reports an error: the final callback fires with it and the
      walk stops where it is. */
  lemma PitchErrorStopsWalk(cfg: Config, e: Engine, k: nat, err: Value, values: seq<Value>)
    requires Inv(e) && k < |e.tokens| && !e.tokens[k].isDone && e.tokens[k].phase == PitchPhase
    requires Truthy(err)
    ensures
      var r := InvokeCallback(cfg, e, k, err, values);
      && r.thrown == None
      && r.engine.finals == e.finals + [Final(err, None, e.resourceBuffer)]
      && r.engine.trace == e.trace
      && r.engine.loaderIndex == e.loaderIndex
      && r.engine.pendingReads == e.pendingReads
  {
  }

  /** A phase function that calls `this.callback` and then returns normally advances the run
      twice: once with the callback's arguments and once more with `(null, value)`. */
  lemma CallbackThenReturnAdvancesTwice(cfg: Config, e: Engine, err: Value, values: seq<Value>, v: Value, phase: Phase)
    requires Inv(e) && (phase == NormalPhase ==> ReadDelivered in e.trace)
    requires PhaseCallback(cfg, Installed(e, phase), phase, err, values).thrown == None
    ensures
      var s := PhaseCallback(cfg, Installed(e, phase), phase, err, values);
      var s2 := PhaseCallback(cfg, s.engine, phase, Null, [v]);
      var r := RunSyncOrAsync(cfg, e, CallbackThenReturn(err, values, v), phase);
      r.thrown == s2.thrown && SameButTokens(r.engine, s2.engine)
  {
    assert Installed(e, phase) == e.(tokens := e.tokens + [Token(phase, true, false)], callback := Some(|e.tokens|));
  }

  /** A read delivered when the normal walk has already finished (possible once a pitch
      callback ran twice): the cursor drops below -1 and the final callback fires again,
      with the buffer alone. */
  lemma LateReadFiresAgain(cfg: Config, e: Engine)
    requires Inv(e) && e.pendingReads > 0 && e.loaderIndex < 0
    ensures
      var r := ResourceRead(cfg, e);
      && r.thrown == None
      && r.engine.loaderIndex == e.loaderIndex - 1 < -1
      && r.engine.finals == e.finals + [Final(Null, Some([cfg.read.buffer]), cfg.read.buffer)]
  {
    assert ResourceRead(cfg, e) == IterateNormalLoaders(cfg, ReadArrived(cfg, e), [cfg.read.buffer]);
  }
}
