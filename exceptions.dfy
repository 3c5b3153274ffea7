/** The theme's two exception classes: how their messages are built. */
module Exceptions {
  import opened Php

  datatype ExceptionKind =
    | TemplateNotExist
    | UnsupportedRenderEngine
    | RuntimeError
    | TypeError
    /** Symfony's exception for an id the container does not know. */
    | ServiceNotFound

  /** A thrown exception: its class, message, code and previous exception. */
  datatype Exception = Exception(kind: ExceptionKind, message: string, code: int, previous: Option<Exception>)

  /** A `string|array` path argument. */
  datatype PathArg = Path(path: string) | Paths(paths: seq<string>)

  const TemplateNotExistPrefix := "Template file does not exist: "
  const UnsupportedEnginePrefix := "Unsupported render engine: "

  /** The path text of a `string|array` argument: an array is joined with ", ". */
  function PathText(p: PathArg): string {
    match p
    case Path(s) => s
    case Paths(ps) => Implode(ps, ", ")
  }

  /** `new TemplateNotExistException($path, $code, $previous)`. */
  function NewTemplateNotExist(path: PathArg, code: int, previous: Option<Exception>): (e: Exception)
    ensures e.kind == TemplateNotExist
    ensures StartsWith(e.message, TemplateNotExistPrefix)
    ensures e.message[|TemplateNotExistPrefix|..] == PathText(path)
    ensures e.code == code && e.previous == previous
  {
    Exception(TemplateNotExist, TemplateNotExistPrefix + PathText(path), code, previous)
  }

  /** A one-element array gives the same exception as that string. */
  lemma TemplateNotExistSingleton(p: string, code: int, previous: Option<Exception>)
    ensures NewTemplateNotExist(Paths([p]), code, previous) == NewTemplateNotExist(Path(p), code, previous)
  {
  }

  /** The message names every path of an array, in order, separated by ", ":
      when no path holds a comma the paths can be read back from it. */
  lemma {:induction false} TemplateNotExistListsPaths(ps: seq<string>, code: int, previous: Option<Exception>)
    requires |ps| >= 1
    requires forall k :: 0 <= k < |ps| ==> ',' !in ps[k]
    ensures var text := NewTemplateNotExist(Paths(ps), code, previous).message[|TemplateNotExistPrefix|..];
      Explode(text, ',') == CommaSpaced(ps)
  {
    SplitCommaSpace(ps);
  }

  /** The pieces of a ", "-joined list split at its commas: the first part,
      then every later part with its leading space. */
  function CommaSpaced(ps: seq<string>): seq<string>
    requires |ps| >= 1
  {
    [ps[0]] + seq(|ps| - 1, i requires 0 <= i < |ps| - 1 => " " + ps[i + 1])
  }

  /** Splitting a ", "-joined list of comma-free parts at its commas. */
  lemma {:induction false} SplitCommaSpace(ps: seq<string>)
    requires |ps| >= 1
    requires forall k :: 0 <= k < |ps| ==> ',' !in ps[k]
    ensures Explode(Implode(ps, ", "), ',') == CommaSpaced(ps)
  {
    var spaced := CommaSpaced(ps);
    JoinCommaSpace(ps);
    assert forall k :: 0 <= k < |spaced| ==> ',' !in spaced[k] by {
      forall k | 0 <= k < |spaced| ensures ',' !in spaced[k] {
        if k > 0 {
          assert spaced[k] == " " + ps[k];
        }
      }
    }
    ExplodeImplode(spaced, ',');
  }

  /** Joining with ", " is joining with "," after prefixing every later part
      with a space. */
  lemma {:induction false} JoinCommaSpace(ps: seq<string>)
    requires |ps| >= 1
    ensures Implode(ps, ", ") == Implode([ps[0]] + seq(|ps| - 1, i requires 0 <= i < |ps| - 1 => " " + ps[i + 1]), ",")
    decreases |ps|
  {
    var spaced := [ps[0]] + seq(|ps| - 1, i requires 0 <= i < |ps| - 1 => " " + ps[i + 1]);
    if |ps| > 1 {
      var tail := ps[1..];
      JoinCommaSpace(tail);
      var spacedTail := [tail[0]] + seq(|tail| - 1, i requires 0 <= i < |tail| - 1 => " " + tail[i + 1]);
      assert Implode(ps, ", ") == ps[0] + ", " + Implode(tail, ", ");
      assert Implode(spaced, ",") == ps[0] + "," + Implode(spaced[1..], ",");
      assert spaced[1..] == [" " + spacedTail[0]] + spacedTail[1..];
      ImplodeHeadPrefix(spacedTail, " ", ",");
    }
  }

  /** Prefixing the first part prefixes the join. */
  lemma ImplodeHeadPrefix(ps: seq<string>, pre: string, glue: string)
    requires |ps| >= 1
    ensures Implode([pre + ps[0]] + ps[1..], glue) == pre + Implode(ps, glue)
  {
    var qs := [pre + ps[0]] + ps[1..];
    if |ps| > 1 {
      assert qs[1..] == ps[1..];
    }
  }

  /** How the engine argument is shown: `$engine ?? 'null'`. */
  function EngineText(engine: Option<string>): string {
    match engine
    case None => "null"
    case Some(s) => s
  }

  /** `new UnsupportedRenderEngineException($engine, $message, $code, $previous)`. */
  function NewUnsupportedRenderEngine(engine: Option<string>, message: string, code: int, previous: Option<Exception>): (e: Exception)
    ensures e.kind == UnsupportedRenderEngine
    ensures StartsWith(e.message, UnsupportedEnginePrefix + EngineText(engine))
    ensures !Truthy(message) ==> e.message == UnsupportedEnginePrefix + EngineText(engine)
    ensures Truthy(message) ==> e.message == UnsupportedEnginePrefix + EngineText(engine) + ". " + message
    ensures e.code == code && e.previous == previous
  {
    var full := UnsupportedEnginePrefix + EngineText(engine);
    Exception(UnsupportedRenderEngine, if Truthy(message) then full + ". " + message else full, code, previous)
  }

  /** The engine an `UnsupportedRenderEngineException` without extra message
      reports can be read back from its message; a missing engine reads as
      "null". */
  lemma UnsupportedEngineReadBack(engine: Option<string>, message: string)
    requires !Truthy(message)
    ensures NewUnsupportedRenderEngine(engine, message, 0, None).message[|UnsupportedEnginePrefix|..] == EngineText(engine)
    ensures engine.None? ==> NewUnsupportedRenderEngine(engine, message, 0, None).message == "Unsupported render engine: null"
  {
  }

  /** `new \RuntimeException($message)`. */
  function NewRuntime(message: string): (e: Exception)
    ensures e.kind == RuntimeError && e.message == message && e.code == 0 && e.previous.None?
  {
    Exception(RuntimeError, message, 0, None)
  }

  /** What the container's `get` throws for an unknown id; the message
      names the id. */
  function NewServiceNotFound(id: string): (e: Exception)
    ensures e.kind == ServiceNotFound && e.message == id && e.code == 0 && e.previous.None?
  {
    Exception(ServiceNotFound, id, 0, None)
  }
}
