/** The loader runner as the JavaScript runs it: one mutable run object holding the loader
    context's shared cursor and descriptors, the callback closures handed out so far and the
    process options, and methods that step them in place exactly as
    loader-runner/loader-runner.js does. Every method is proved to leave the run in the state,
    and to throw the exception, that the corresponding function of `LoaderEngine` computes;
    the properties of the run are proved about those functions. */
module LoaderRunner {
  import opened LoaderValues
  import opened LoaderObjects
  import opened LoaderEngine

  class Run {
    /** The resource, the context's `source` and the outcome `readResource` reports. */
    const cfg: Config
    /** `loaderContext.loaders` */
    var loaders: seq<Loader>
    /** `loaderContext.loaderIndex`, shared by both walks */
    var loaderIndex: int
    /** `loaderContext.callback`, as the number of the closure it currently holds */
    var callback: Option<nat>
    /** the state of every callback closure `runSyncOrAsync` has created */
    var tokens: seq<Token>
    /** `processOptions.resourceBuffer` */
    var resourceBuffer: Value
    /** `readResource` calls whose callback has not arrived yet */
    var pendingReads: nat
    /** invocations of the caller's final callback, in order */
    var finals: seq<Final>
    /** phase functions run and reads issued and delivered, in order */
    var trace: seq<Event>

    function State(): Engine
      reads this
    {
      Engine(loaders, loaderIndex, callback, tokens, resourceBuffer, pendingReads, finals, trace)
    }

    ghost predicate Valid()
      reads this
    {
      Inv(State())
    }

    /** The set-up part of `runLoaders` (loader-runner/loader-runner.js:189-254). */
    constructor (cfg: Config, paths: seq<string>, resolve: string -> LoaderModule)
      ensures Valid() && this.cfg == cfg
      ensures State() == InitialEngine(paths, resolve)
    {
      this.cfg := cfg;
      loaders := CreateLoaderObjects(paths, resolve);
      loaderIndex := 0;
      callback := None;
      tokens := [];
      resourceBuffer := Null;
      pendingReads := 0;
      finals := [];
      trace := [];
    }

    /** `processResource`, up to the `readResource` call. */
    method ProcessResource() returns (thrown: Option<Value>)
      requires Valid() && loaderIndex >= |loaders|
      modifies this
      ensures Valid()
      ensures Step(State(), thrown) == LoaderEngine.ProcessResource(old(State()))
    {
      ghost var spec := LoaderEngine.ProcessResource(State());
      pendingReads := pendingReads + 1;
      trace := trace + [ReadIssued];
      thrown := None;
      assert State() == spec.engine;
    }

    /** `iteratePitchingLoaders`. */
    method IteratePitchingLoaders() returns (thrown: Option<Value>)
      requires Valid()
      modifies this
      ensures Valid()
      ensures Step(State(), thrown) == LoaderEngine.IteratePitchingLoaders(cfg, old(State()))
      decreases Unset(loaders), 1, |loaders| - loaderIndex
    {
      if loaderIndex >= |loaders| {
        thrown := ProcessResource();
        return;
      }
      if loaderIndex < 0 {
        thrown := Some(Error(TypeError));
        return;
      }
      var i := loaderIndex;
      var l := loaders[i];
      if l.pitchExecuted {
        loaderIndex := i + 1;
        thrown := IteratePitchingLoaders();
        return;
      }
      ghost var e := State();
      MarkPitchedProgress(e, i);
      loaders := loaders[i := l.(pitchExecuted := true)];
      match l.pitch {
        case None =>
          thrown := IteratePitchingLoaders();
        case Some(fn) =>
          var args := [Str(RemainingRequest(loaders, i, cfg.source)),
                       Str(PreviousRequest(loaders, i)),
                       Data(loaders, i).value];
          trace := trace + [PitchRan(i)];
          assert State() == PitchEntered(e);
          thrown := RunSyncOrAsync(fn(args), PitchPhase);
      }
    }

    /** `iterateNormalLoaders`; `convertArgs` works on a fresh array holding `args`. */
    method IterateNormalLoaders(args: seq<Value>) returns (thrown: Option<Value>)
      requires Valid() && ReadDelivered in trace
      modifies this
      ensures Valid()
      ensures Step(State(), thrown) == LoaderEngine.IterateNormalLoaders(cfg, old(State()), args)
      decreases Unset(loaders), 1, if loaderIndex < 0 then 0 else loaderIndex + 1
    {
      if loaderIndex < 0 {
        finals := finals + [Final(Null, Some(args), resourceBuffer)];
        thrown := None;
        return;
      }
      if loaderIndex >= |loaders| {
        thrown := Some(Error(TypeError));
        return;
      }
      var i := loaderIndex;
      var l := loaders[i];
      if l.normalExecuted {
        loaderIndex := i - 1;
        thrown := IterateNormalLoaders(args);
        return;
      }
      ghost var e := State();
      MarkNormalProgress(e, i);
      loaders := loaders[i := l.(normalExecuted := true)];
      ghost var e1 := State();
      assert e1 == MarkNormal(e, i);
      var a := new Value[|args|](j requires 0 <= j < |args| => args[j]);
      assert a[..] == args;
      var convertError := ConvertArgs(a, l.raw);
      assert State() == e1;
      if convertError.Some? {
        thrown := convertError;
        return;
      }
      var converted := a[..];
      trace := trace + [NormalRan(i)];
      assert State() == NormalEntered(e);
      thrown := RunSyncOrAsync(l.normal(converted), NormalPhase);
    }

    /** `runSyncOrAsync`, given what the phase function does when applied. */
    method RunSyncOrAsync(b: Behaviour, phase: Phase) returns (thrown: Option<Value>)
      requires Valid() && (phase == NormalPhase ==> ReadDelivered in trace)
      modifies this
      ensures Valid()
      ensures Step(State(), thrown) == LoaderEngine.RunSyncOrAsync(cfg, old(State()), b, phase)
      decreases Unset(loaders), 4, 0
    {
      ghost var e0 := State();
      var k := |tokens|;
      // new `loaderContext.callback` and `loaderContext.async`, with `isSync` and `isDone`
      tokens := tokens + [Token(phase, true, false)];
      callback := Some(k);
      ghost var e1 := State();
      assert e1 == Installed(e0, phase);
      match b {
        case Return(v) =>
          thrown := Returned(k, phase, v);
        case Throw(x) =>
          thrown := Some(x);
        case CallbackThenReturn(err, vs, v) =>
          thrown := PhaseCallback(phase, err, vs);
          if thrown.None? {
            ExtendsTrans(e0, e1, State());
            GrowUnset(e0.loaders, loaders);
            thrown := Returned(k, phase, v);
          }
        case GoAsync =>
          tokens := tokens[k := Token(phase, false, false)];
          thrown := None;
      }
    }

    /** The phase function returned `v` while closure `k` was still synchronous:
        `runCallback(null, v)`, then `isDone = true`. */
    method Returned(k: nat, phase: Phase, v: Value) returns (thrown: Option<Value>)
      requires Valid() && k < |tokens| && tokens[k].isSync
      requires phase == NormalPhase ==> ReadDelivered in trace
      modifies this
      ensures Valid()
      ensures Step(State(), thrown) == LoaderEngine.Returned(cfg, old(State()), k, phase, v)
      decreases Unset(loaders), 3, 0
    {
      thrown := PhaseCallback(phase, Null, [v]);
      if thrown.None? {
        ghost var s := State();
        tokens := tokens[k := tokens[k].(isDone := true)];
        assert State() == MarkDone(s, k);
      }
    }

    /** The `runCallback` closure of the pitching or the normal walk. */
    method PhaseCallback(phase: Phase, err: Value, values: seq<Value>) returns (thrown: Option<Value>)
      requires Valid() && (phase == NormalPhase ==> ReadDelivered in trace)
      modifies this
      ensures Valid()
      ensures Step(State(), thrown) == LoaderEngine.PhaseCallback(cfg, old(State()), phase, err, values)
      decreases Unset(loaders), 2, 0
    {
      match phase {
        case PitchPhase =>
          if Truthy(err) {
            finals := finals + [Final(err, None, resourceBuffer)];
            thrown := None;
          } else if |values| > 0 && AnyTruthy(values) {
            loaderIndex := loaderIndex - 1;
            thrown := Some(Error(ReferenceError));
          } else {
            thrown := IteratePitchingLoaders();
          }
        case NormalPhase =>
          if Truthy(err) {
            finals := finals + [Final(err, None, resourceBuffer)];
          }
          thrown := IterateNormalLoaders(values);
      }
    }

    /** Loader code calling callback closure `k` with `(err, ...values)` after the fact. */
    method InvokeCallback(k: nat, err: Value, values: seq<Value>) returns (thrown: Option<Value>)
      requires Valid() && k < |tokens|
      modifies this
      ensures Valid()
      ensures Step(State(), thrown) == LoaderEngine.InvokeCallback(cfg, old(State()), k, err, values)
    {
      if tokens[k].isDone {
        thrown := Some(Error(AlreadyCalled));
      } else {
        thrown := PhaseCallback(tokens[k].phase, err, values);
      }
    }

    /** `readResource` calling back: the buffer is kept, the error is not looked at. */
    method ResourceRead() returns (thrown: Option<Value>)
      requires Valid() && pendingReads > 0
      modifies this
      ensures Valid()
      ensures Step(State(), thrown) == LoaderEngine.ResourceRead(cfg, old(State()))
    {
      ghost var e := State();
      pendingReads := pendingReads - 1;
      resourceBuffer := cfg.read.buffer;
      loaderIndex := loaderIndex - 1;
      trace := trace + [ReadDelivered];
      assert State() == ReadArrived(cfg, e);
      thrown := IterateNormalLoaders([cfg.read.buffer]);
    }
  }

  /** `runLoaders`: build the run, then start the pitching walk (loader-runner/loader-runner.js:256). */
  method RunLoaders(cfg: Config, paths: seq<string>, resolve: string -> LoaderModule)
    returns (run: Run, thrown: Option<Value>)
    ensures fresh(run) && run.Valid() && run.cfg == cfg
    ensures Step(run.State(), thrown) == LoaderEngine.RunLoaders(cfg, paths, resolve)
  {
    run := new Run(cfg, paths, resolve);
    thrown := run.IteratePitchingLoaders();
  }
}
