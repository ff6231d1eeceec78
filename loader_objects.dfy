/** Loader descriptors (`createLoaderObject`, loader-runner/loader-runner.js:5-21) and the
    request strings and data accessor that `runLoaders` defines on the loader context
    (loader-runner/loader-runner.js:204-247), as functions of the descriptor list and the
    cursor `loaderIndex`. */
module LoaderObjects {
  import opened LoaderValues
  import opened JsStrings

  /** What an opaque phase function does when it is applied to its arguments:
      - `Return(v)`: returns `v` without touching `this.async` or `this.callback`;
      - `Throw(x)`: throws `x`;
      - `CallbackThenReturn(err, vs, v)`: calls `this.callback(err, ...vs)` and then returns `v`;
      - `GoAsync`: calls `this.async()`, keeps the callback for later and returns. */
  datatype Behaviour =
    | Return(value: Value)
    | Throw(exception: Value)
    | CallbackThenReturn(err: Value, values: seq<Value>, value: Value)
    | GoAsync

  /** A `normal` or `pitch` function, applied to its positional arguments. */
  type PhaseFn = seq<Value> -> Behaviour

  /** What `require(path)` yields: the normal function, its optional `pitch` and the
      truthiness of its `raw` property. */
  datatype LoaderModule = LoaderModule(normal: PhaseFn, pitch: Option<PhaseFn>, raw: bool)

  /** One loader descriptor. `data` is the identity of the loader's own scratch object. */
  datatype Loader = Loader(
    path: string,
    normal: PhaseFn,
    pitch: Option<PhaseFn>,
    raw: bool,
    data: nat,
    pitchExecuted: bool,
    normalExecuted: bool)

  /** A descriptor exactly as `createLoaderObject` leaves it: neither phase has run. */
  predicate Unstarted(l: Loader)
  {
    !l.pitchExecuted && !l.normalExecuted
  }

  /** `createLoaderObject(path)`, with `require(path)` already resolved to `m` and `data`
      the identity of the fresh `{}`. */
  function CreateLoaderObject(path: string, m: LoaderModule, data: nat): Loader
  {
    Loader(path, m.normal, m.pitch, m.raw, data, false, false)
  }

  /** `loaders.map(createLoaderObject)`, each loader getting its own scratch object. */
  function CreateLoaderObjects(paths: seq<string>, resolve: string -> LoaderModule): (ls: seq<Loader>)
    ensures |ls| == |paths|
    ensures forall i :: 0 <= i < |ls| ==>
      && ls[i].path == paths[i]
      && Unstarted(ls[i])
      && ls[i].normal == resolve(paths[i]).normal
      && ls[i].pitch == resolve(paths[i]).pitch
      && ls[i].raw == resolve(paths[i]).raw
    ensures forall i, j :: 0 <= i < j < |ls| ==> ls[i].data != ls[j].data
  {
    seq(|paths|, i requires 0 <= i < |paths| => CreateLoaderObject(paths[i], resolve(paths[i]), i))
  }

  /** `loaders.map((loader) => loader.path)`. */
  function Paths(ls: seq<Loader>): (ps: seq<string>)
    ensures |ps| == |ls|
    ensures forall i :: 0 <= i < |ls| ==> ps[i] == ls[i].path
  {
    seq(|ls|, i requires 0 <= i < |ls| => ls[i].path)
  }

  /** What `.concat(loaderContext.source).join("!")` writes for `source`: the context is never
      given a `source`, and `join` writes `undefined` as the empty string. */
  function SourceText(source: Option<string>): string
  {
    match source
    case None => ""
    case Some(s) => s
  }

  /** The `request` getter: every loader path, then the resource, joined with "!". */
  function Request(ls: seq<Loader>, resource: string): string
  {
    Join(Paths(ls) + [resource], '!')
  }

  /** The `remainingRequest` getter: the paths after the cursor, then `source` (not `resource`). */
  function RemainingRequest(ls: seq<Loader>, index: int, source: Option<string>): string
  {
    Join(SliceFrom(Paths(ls), index + 1) + [SourceText(source)], '!')
  }

  /** The `currentRequest` getter: the paths from the cursor on, then `source` (not `resource`). */
  function CurrentRequest(ls: seq<Loader>, index: int, source: Option<string>): string
  {
    Join(SliceFrom(Paths(ls), index) + [SourceText(source)], '!')
  }

  /** The `previousRequest` getter: the paths before the cursor. */
  function PreviousRequest(ls: seq<Loader>, index: int): string
  {
    Join(SliceTo(Paths(ls), index), '!')
  }

  /** The `data` getter: the scratch object of the loader under the cursor; off the list,
      reading `.data` of `undefined` throws a TypeError. */
  function Data(ls: seq<Loader>, index: int): (r: Result<Value>)
    ensures r.Ok? <==> 0 <= index < |ls|
    ensures r.Ok? ==> r.value == Obj(ls[index].data)
    ensures !r.Ok? ==> r == Throws(Error(TypeError))
  {
    if 0 <= index < |ls| then Ok(Obj(ls[index].data)) else Throws(Error(TypeError))
  }

  predicate NoBang(s: string)
  {
    '!' !in s
  }

  /** With "!"-free paths and resource, `request` splits back into the paths and the resource. */
  lemma RequestSplitsBack(ls: seq<Loader>, resource: string)
    requires forall i :: 0 <= i < |ls| ==> NoBang(ls[i].path)
    requires NoBang(resource)
    ensures Split(Request(ls, resource), '!') == Paths(ls) + [resource]
  {
    var parts := Paths(ls) + [resource];
    assert forall i :: 0 <= i < |parts| ==> '!' !in parts[i];
    SplitJoin(parts, '!');
  }

  /** `currentRequest` is the current loader's path, "!", then `remainingRequest`. */
  lemma CurrentIsPathThenRemaining(ls: seq<Loader>, index: int, source: Option<string>)
    requires 0 <= index < |ls|
    ensures CurrentRequest(ls, index, source) ==
            ls[index].path + "!" + RemainingRequest(ls, index, source)
  {
    var ps := Paths(ls);
    var tail := SliceFrom(ps, index + 1) + [SourceText(source)];
    assert SliceFrom(ps, index) + [SourceText(source)] == [ps[index]] + tail;
    JoinAppend([ps[index]], tail, '!');
  }

  /** Were `source` the resource, `request` would be `previousRequest`, "!" and
      `currentRequest` for any cursor strictly inside the list (just `currentRequest` at 0). */
  lemma RequestSplitsAtCursor(ls: seq<Loader>, index: int, resource: string)
    requires 0 <= index < |ls|
    ensures index == 0 ==> Request(ls, resource) == CurrentRequest(ls, 0, Some(resource))
    ensures index > 0 ==>
      Request(ls, resource) == PreviousRequest(ls, index) + "!" + CurrentRequest(ls, index, Some(resource))
  {
    var ps := Paths(ls);
    if index == 0 {
      assert SliceFrom(ps, 0) == ps;
    } else {
      var after := SliceFrom(ps, index) + [resource];
      assert ps + [resource] == SliceTo(ps, index) + after;
      JoinAppend(SliceTo(ps, index), after, '!');
    }
  }

  /** As written, `remainingRequest` never names the resource: with no `source` on the
      context its last "!"-piece is empty. */
  lemma RemainingRequestOmitsResource(ls: seq<Loader>, index: int)
    requires forall i :: 0 <= i < |ls| ==> NoBang(ls[i].path)
    ensures Split(RemainingRequest(ls, index, None), '!') == SliceFrom(Paths(ls), index + 1) + [""]
  {
    var parts := SliceFrom(Paths(ls), index + 1) + [""];
    assert forall i :: 0 <= i < |parts| ==> '!' !in parts[i];
    SplitJoin(parts, '!');
  }

  /** A negative cursor counts from the end in `previousRequest` (`slice(0, -1)`). */
  lemma PreviousRequestAtMinusOne(ls: seq<Loader>)
    requires |ls| >= 1
    ensures PreviousRequest(ls, -1) == Join(Paths(ls)[..|ls| - 1], '!')
  {
  }
}
