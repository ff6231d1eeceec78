/** Concrete runs of the loader runner, worked out from the general lemmas of
    `RunProperties` and the functions of `LoaderEngine`. */
module RunScenarios {
  import opened LoaderValues
  import opened LoaderObjects
  import opened LoaderEngine
  import opened RunProperties

  /** The text of a string value, "" for anything else. */
  function TextOf(v: Value): string
  {
    if v.Str? then v.text else ""
  }

  /** A normal function that returns its first argument's text behind `tag`. */
  function Prefixer(tag: string): PhaseFn
  {
    args => Return(Str(tag + TextOf(First(args))))
  }

  /** The resource "src" whose read yields a Buffer of "src" without error. */
  const SrcRun := Config("src", None, ReadOutcome(Null, Buf("src")))

  /** Loaders "a" and "b", each a plain (non-raw) normal function without a pitch. */
  function TwoPlain(p: string): LoaderModule
  {
    if p == "a" then LoaderModule(Prefixer("a:"), None, false)
    else LoaderModule(Prefixer("b:"), None, false)
  }

  /** With loaders [a, b] the normal functions run b first, on the resource converted to a
      string, then a on b's result, and the final result is a's return list. */
  lemma NormalFunctionsRunRightToLeft()
    ensures
      var s1 := RunLoaders(SrcRun, ["a", "b"], TwoPlain);
      && s1.thrown == None
      && s1.engine.pendingReads == 1
      && ResourceRead(SrcRun, s1.engine).thrown == None
      && ResourceRead(SrcRun, s1.engine).engine.finals == [Final(Null, Some([Str("a:b:src")]), Buf("src"))]
      && ResourceRead(SrcRun, s1.engine).engine.trace ==
           [ReadIssued, ReadDelivered, NormalRan(1), NormalRan(0)]
  {
    TwoPlainChains();
    assert Descending(1) == [NormalRan(1), NormalRan(0)];
    PitchlessRun(SrcRun, ["a", "b"], TwoPlain, [Str("a:b:src")]);
  }

  /** `SynchronousRun` for loaders none of which pitches, whose normal functions deliver
      `result`. */
  lemma PitchlessRun(cfg: Config, paths: seq<string>, resolve: string -> LoaderModule, result: seq<Value>)
    requires PitchChain(cfg, InitialEngine(paths, resolve).loaders, 0) == ReachedResource([])
    requires NormalChain(InitialEngine(paths, resolve).loaders, |paths| - 1, [cfg.read.buffer]) == Delivered(result)
    ensures
      var s1 := RunLoaders(cfg, paths, resolve);
      && s1.thrown == None
      && s1.engine.pendingReads == 1
      && ResourceRead(cfg, s1.engine).thrown == None
      && ResourceRead(cfg, s1.engine).engine.finals == [Final(Null, Some(result), cfg.read.buffer)]
      && ResourceRead(cfg, s1.engine).engine.trace == [ReadIssued, ReadDelivered] + Descending(|paths| - 1)
  {
    SynchronousRun(cfg, paths, resolve);
  }

  /** The reference chains of loaders [a, b]: no pitch runs, and the normal functions turn
      the resource "src" into "a:b:src". */
  lemma TwoPlainChains()
    ensures
      var ls := InitialEngine(["a", "b"], TwoPlain).loaders;
      && PitchChain(SrcRun, ls, 0) == ReachedResource([])
      && NormalChain(ls, 1, [Buf("src")]) == Delivered([Str("a:b:src")])
  {
    var ls := InitialEngine(["a", "b"], TwoPlain).loaders;
    assert ls[0].normal == Prefixer("a:") && !ls[0].raw && ls[0].pitch.None?;
    assert ls[1].normal == Prefixer("b:") && !ls[1].raw && ls[1].pitch.None?;
    assert PitchChain(SrcRun, ls, 2) == ReachedResource([]);
    assert [Buf("src")][0 := Str("src")] == [Str("src")];
    assert ConvertedArgs([Buf("src")], false) == Ok([Str("src")]);
    assert "b:" + "src" == "b:src";
    assert Prefixer("b:")([Str("src")]) == Return(Str("b:src"));
    assert NormalChain(ls, 1, [Buf("src")]) == NormalChain(ls, 0, [Str("b:src")]);
    assert ConvertedArgs([Str("b:src")], false) == Ok([Str("b:src")]);
    assert "a:" + "b:src" == "a:b:src";
    assert Prefixer("a:")([Str("b:src")]) == Return(Str("a:b:src"));
  }

  /** Loader "a" has a pitch that returns "X"; loader "b" is plain. */
  function PitchingFirst(p: string): LoaderModule
  {
    if p == "a" then LoaderModule(Prefixer("a:"), Some((args: seq<Value>) => Return(Str("X"))), false)
    else LoaderModule(Prefixer("b:"), None, false)
  }

  /** A pitch returning "X" does not make "X" the result: `runLoaders` throws a
      ReferenceError, the resource is never read and no final callback fires. */
  lemma TruthyPitchIsNotAResult()
    ensures
      var s := RunLoaders(SrcRun, ["a", "b"], PitchingFirst);
      && s.thrown == Some(Error(ReferenceError))
      && s.engine.loaderIndex == -1
      && s.engine.pendingReads == 0
      && s.engine.finals == []
  {
    var ls := InitialEngine(["a", "b"], PitchingFirst).loaders;
    assert ls[0].pitch.Some? && ls[0].pitch.value(PitchArgs(SrcRun, ls, 0)) == Return(Str("X"));
    assert PitchChain(SrcRun, ls, 0) == ShortCircuited(0, [PitchRan(0)]);
    TruthyPitchThrows(SrcRun, ["a", "b"], PitchingFirst);
  }

  /** With no loaders, the read goes straight to the final callback: the result is the
      one-element list holding whatever the read delivered, unconverted. */
  lemma EmptyLoaderList(cfg: Config, resolve: string -> LoaderModule)
    ensures
      var s1 := RunLoaders(cfg, [], resolve);
      && s1.thrown == None
      && s1.engine.pendingReads == 1
      && ResourceRead(cfg, s1.engine).engine.finals ==
           [Final(Null, Some([cfg.read.buffer]), cfg.read.buffer)]
  {
    SynchronousRun(cfg, [], resolve);
  }

  /** Loader "a" whose pitch goes asynchronous. */
  function AsyncPitch(p: string): LoaderModule
  {
    LoaderModule(Prefixer("a:"), Some((args: seq<Value>) => GoAsync), false)
  }

  /** The asynchronous pitch callback is never marked done, so calling it twice resumes the
      walk twice and the resource is read twice. */
  lemma AsyncCallbackCalledTwiceReadsTwice()
    ensures
      var s0 := RunLoaders(SrcRun, ["a"], AsyncPitch);
      && s0.thrown == None
      && s0.engine.pendingReads == 0
      && |s0.engine.tokens| == 1
      && var s1 := InvokeCallback(SrcRun, s0.engine, 0, Null, []);
         && s1.thrown == None
         && s1.engine.pendingReads == 1
         && var s2 := InvokeCallback(SrcRun, s1.engine, 0, Null, []);
            && s2.thrown == None
            && s2.engine.pendingReads == 2
            && s2.engine.loaderIndex == |s2.engine.loaders| == 1
            && s2.engine.finals == []
            && !s2.engine.loaders[0].normalExecuted
            && s2.engine.loaders[0].normal == InitialEngine(["a"], AsyncPitch).loaders[0].normal
            && s2.engine.loaders[0].raw == InitialEngine(["a"], AsyncPitch).loaders[0].raw
  {
    var e0 := InitialEngine(["a"], AsyncPitch);
    EnterPitch(SrcRun, e0);
    var e2 := PitchEntered(e0);
    var s0 := RunLoaders(SrcRun, ["a"], AsyncPitch);
    assert s0 == RunSyncOrAsync(SrcRun, e2, GoAsync, PitchPhase);
    var e := s0.engine;
    assert e.loaderIndex == 0 && e.loaders[0].pitchExecuted && e.tokens == [Token(PitchPhase, false, false)];
    PitchCallbackResumes(SrcRun, e, Null);
    SkipPitch(SrcRun, e);
    var s1 := InvokeCallback(SrcRun, e, 0, Null, []);
    assert s1 == IteratePitchingLoaders(SrcRun, e.(loaderIndex := 1));
    assert s1.engine.pendingReads == 1 && s1.engine.loaderIndex == 1;
    var s2 := InvokeCallback(SrcRun, s1.engine, 0, Null, []);
    assert !s1.engine.tokens[0].isDone;
    assert s2 == IteratePitchingLoaders(SrcRun, s1.engine);
  }

  /** The two reads that the twice-called asynchronous pitch callback issued both arrive:
      the first runs a's normal function and reports its result, the second finds the walk
      over, drives the cursor to -2 and reports again, this time the bare buffer. */
  lemma AsyncCallbackCalledTwiceReportsTwice()
    ensures
      var s0 := RunLoaders(SrcRun, ["a"], AsyncPitch);
      && |s0.engine.tokens| == 1
      && var s1 := InvokeCallback(SrcRun, s0.engine, 0, Null, []);
      && |s1.engine.tokens| >= 1
      && var s2 := InvokeCallback(SrcRun, s1.engine, 0, Null, []);
      && s2.engine.pendingReads == 2
      && var r1 := ResourceRead(SrcRun, s2.engine);
         && r1.thrown == None
         && r1.engine.loaderIndex == -1
         && r1.engine.pendingReads == 1
         && var r2 := ResourceRead(SrcRun, r1.engine);
            && r2.thrown == None
            && r2.engine.loaderIndex == -2
            && r2.engine.finals ==
                 [Final(Null, Some([Str("a:src")]), Buf("src")), Final(Null, Some([Buf("src")]), Buf("src"))]
  {
    AsyncCallbackCalledTwiceReadsTwice();
    var s0 := RunLoaders(SrcRun, ["a"], AsyncPitch);
    var s1 := InvokeCallback(SrcRun, s0.engine, 0, Null, []);
    var e := InvokeCallback(SrcRun, s1.engine, 0, Null, []).engine;
    var ls := InitialEngine(["a"], AsyncPitch).loaders;
    OneLoaderChain();
    NormalChainFrame(ls, e.loaders, 0, [Buf("src")]);
    ReadStartsNormalWalk(SrcRun, e);
    var r1 := ResourceRead(SrcRun, e);
    LateReadFiresAgain(SrcRun, r1.engine);
  }

  /** Loader a's normal function turns the Buffer "src" into the string "a:src". */
  lemma OneLoaderChain()
    ensures NormalChain(InitialEngine(["a"], AsyncPitch).loaders, 0, [Buf("src")]) == Delivered([Str("a:src")])
  {
    var ls := InitialEngine(["a"], AsyncPitch).loaders;
    assert ls[0].normal == Prefixer("a:") && !ls[0].raw;
    assert [Buf("src")][0 := Str("src")] == [Str("src")];
    assert ConvertedArgs([Buf("src")], false) == Ok([Str("src")]);
    assert "a:" + "src" == "a:src";
    assert Prefixer("a:")([Str("src")]) == Return(Str("a:src"));
  }
}
