/** JavaScript values as the loader runner sees them, JavaScript truthiness, and the
    coercion of a loader's first argument between string and Buffer
    (`convertArgs`, loader-runner/loader-runner.js:28-34). */
module LoaderValues {

  datatype Option<+T> = None | Some(value: T)

  /** The errors the runner itself raises: a TypeError from a bad `Buffer.from` argument or
      from reading a field of `undefined`, the ReferenceError of the undeclared `args`,
      and the "already called" error of a finished callback. */
  datatype ErrorKind = TypeError | ReferenceError | AlreadyCalled

  /** A JavaScript value. A Buffer carries the text its bytes decode to: byte encoding is
      not modelled, only the tag that tells a Buffer from a string. `Obj` is an object by
      identity; `UserError` is an error object made by a loader. */
  datatype Value =
    | Undefined
    | Null
    | Bool(b: bool)
    | Num(n: int)
    | Str(text: string)
    | Buf(content: string)
    | Obj(ref: nat)
    | Error(kind: ErrorKind)
    | UserError(message: string)

  /** A computation that either yields a value or throws. */
  datatype Result<+T> = Ok(value: T) | Throws(exception: Value)

  /** JavaScript's `if (v)`. Objects, Buffers and errors are always truthy. */
  predicate Truthy(v: Value)
  {
    match v
    case Undefined => false
    case Null => false
    case Bool(b) => b
    case Num(n) => n != 0
    case Str(s) => s != ""
    case _ => true
  }

  /** `vs.some((item) => item)`. */
  predicate AnyTruthy(vs: seq<Value>)
  {
    exists i :: 0 <= i < |vs| && Truthy(vs[i])
  }

  /** `args[0]`, which is `undefined` on an empty list. */
  function First(args: seq<Value>): Value
  {
    if |args| == 0 then Undefined else args[0]
  }

  /** `Buffer.from(v)`: a string becomes a Buffer with the same text; `undefined`, `null`,
      numbers, booleans and plain objects are refused with a TypeError. */
  function BufferFrom(v: Value): (r: Result<Value>)
    ensures r.Ok? <==> v.Str? || v.Buf?
    ensures r.Ok? ==> r.value.Buf? && r.value.content == (if v.Str? then v.text else v.content)
    ensures !r.Ok? ==> r == Throws(Error(TypeError))
  {
    match v
    case Str(s) => Ok(Buf(s))
    case Buf(c) => Ok(Buf(c))
    case _ => Throws(Error(TypeError))
  }

  /** `buffer.toString()`. */
  function BufferToString(v: Value): (r: Value)
    requires v.Buf?
    ensures r.Str? && r.text == v.content
  {
    Str(v.content)
  }

  /** The value of `args` after `convertArgs(args, raw)`, or the exception it throws. */
  function ConvertedArgs(args: seq<Value>, raw: bool): (r: Result<seq<Value>>)
    ensures r.Throws? <==> raw && !First(args).Str? && !First(args).Buf?
    ensures r.Throws? ==> r.exception == Error(TypeError)
    ensures r.Ok? ==> |r.value| == |args| && forall j :: 1 <= j < |args| ==> r.value[j] == args[j]
    ensures r.Ok? && |args| > 0 && raw ==> r.value[0] == Buf(if args[0].Str? then args[0].text else args[0].content)
    ensures r.Ok? && |args| > 0 && !raw ==> r.value[0] == (if args[0].Buf? then Str(args[0].content) else args[0])
  {
    if raw && !First(args).Buf? then
      match BufferFrom(First(args))
      case Ok(b) => Ok(args[0 := b])
      case Throws(x) => Throws(x)
    else if !raw && First(args).Buf? then
      Ok(args[0 := BufferToString(args[0])])
    else
      Ok(args)
  }

  /** `convertArgs` itself: overwrites `args[0]` in place, or throws before writing. */
  method ConvertArgs(args: array<Value>, raw: bool) returns (thrown: Option<Value>)
    modifies args
    ensures ConvertedArgs(old(args[..]), raw).Throws? ==>
      thrown == Some(ConvertedArgs(old(args[..]), raw).exception) && args[..] == old(args[..])
    ensures ConvertedArgs(old(args[..]), raw).Ok? ==>
      thrown == None && args[..] == ConvertedArgs(old(args[..]), raw).value
  {
    thrown := None;
    var first := if args.Length == 0 then Undefined else args[0];
    if raw && !first.Buf? {
      var b := BufferFrom(first);
      if b.Throws? {
        thrown := Some(b.exception);
      } else {
        args[0] := b.value;
      }
    } else if !raw && first.Buf? {
      args[0] := BufferToString(first);
    }
  }

  /** A second conversion with the same flag changes nothing. */
  lemma ConvertedArgsIdempotent(args: seq<Value>, raw: bool)
    requires ConvertedArgs(args, raw).Ok?
    ensures ConvertedArgs(ConvertedArgs(args, raw).value, raw) == ConvertedArgs(args, raw)
  {
  }

  /** Text handed to a raw loader as a Buffer and converted back for a non-raw one is the
      original string. */
  lemma ConvertedArgsRoundTrip(args: seq<Value>)
    requires |args| > 0 && args[0].Str?
    ensures ConvertedArgs(args, true).Ok?
    ensures ConvertedArgs(ConvertedArgs(args, true).value, false) == Ok(args)
  {
    var b := ConvertedArgs(args, true).value;
    assert ConvertedArgs(b, false).value == b[0 := Str(args[0].text)];
    assert b[0 := Str(args[0].text)] == args;
  }
}
