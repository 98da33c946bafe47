/** The values that cross evix's module boundaries: attribute paths, evaluation
    events and the JSON they carry. */
module Types {

  datatype Option<+T> = None | Some(value: T)

  datatype Result<+T> = Ok(value: T) | Err(error: string)

  type Path = seq<string>

  datatype Json =
    | JNull
    | JBool(b: bool)
    | JNumber(n: real)
    | JString(s: string)
    | JArray(items: seq<Json>)
    | JObject(fields: map<string, Json>)

  datatype Derivation = Derivation(
    attr: string,
    attrPath: Path,
    name: string,
    system: string,
    drvPath: string,
    outputs: map<string, Option<string>>,
    meta: Option<Json>,
    inputDrvs: map<string, seq<string>>,
    constituents: Option<seq<string>>,
    gcRootError: Option<string>)

  datatype EvalError = EvalError(attr: string, attrPath: Path, error: string, fatal: bool)

  datatype Event =
    | DerivationEvent(drv: Derivation)
    | AttrSet(attr: string, path: Path, attrs: seq<string>)
    | ErrorEvent(err: EvalError)
  {
    /** The attribute path the event reports on. */
    function At(): Path {
      match this
      case DerivationEvent(d) => d.attrPath
      case AttrSet(_, path, _) => path
      case ErrorEvent(e) => e.attrPath
    }

    /** The child names the event asks the scheduler to visit. */
    function Children(): seq<string> {
      if AttrSet? then attrs else []
    }
  }

  ghost predicate NoDuplicates<T>(s: seq<T>) {
    forall i, j :: 0 <= i < j < |s| ==> s[i] != s[j]
  }

  /** The attribute paths a log reports on, in order. */
  function Paths(log: seq<Event>): (ps: seq<Path>)
    ensures |ps| == |log| && forall i :: 0 <= i < |log| ==> ps[i] == log[i].At()
  {
    seq(|log|, i requires 0 <= i < |log| => log[i].At())
  }

  function Least(a: nat, b: nat): nat {
    if a < b then a else b
  }

  function JoinDots(path: Path): string {
    if path == [] then "" else if |path| == 1 then path[0] else path[0] + "." + JoinDots(path[1..])
  }

  /** A name is joined to the path before it by one dot. */
  lemma {:induction false} JoinDotsMore(path: Path, name: string)
    ensures JoinDots([]) == "" && JoinDots([name]) == name
    ensures path != [] ==> JoinDots(path + [name]) == JoinDots(path) + "." + name
    decreases |path|
  {
    if |path| == 1 {
      assert (path + [name])[1..] == [name];
    } else if path != [] {
      JoinDotsMore(path[1..], name);
      assert (path + [name])[1..] == path[1..] + [name];
    }
  }

  function DisplayAttr(path: Path): string {
    if path == [] then "<root>" else JoinDots(path)
  }

  function Digit(n: nat): char
    requires n < 10
  {
    "0123456789"[n]
  }

  function Decimal(n: nat): (s: string)
    ensures s != []
  {
    if n < 10 then [Digit(n)] else Decimal(n / 10) + [Digit(n % 10)]
  }

  function Parent(path: Path): Path
    requires path != []
  {
    path[..|path| - 1]
  }

  function LastName(path: Path): string
    requires path != []
  {
    path[|path| - 1]
  }

  /** The child paths an attribute set at `p` expands into. */
  function Extend(p: Path, names: seq<string>): seq<Path> {
    if names == [] then [] else [p + [names[0]]] + Extend(p, names[1..])
  }

  lemma {:induction false} ExtendAt(p: Path, names: seq<string>)
    ensures |Extend(p, names)| == |names|
    ensures forall i :: 0 <= i < |names| ==> Extend(p, names)[i] == p + [names[i]]
  {
    if names != [] {
      ExtendAt(p, names[1..]);
    }
  }

  lemma {:induction false} ExtendSnoc(p: Path, names: seq<string>, name: string)
    ensures Extend(p, names + [name]) == Extend(p, names) + [p + [name]]
  {
    if names != [] {
      assert (names + [name])[1..] == names[1..] + [name];
      ExtendSnoc(p, names[1..], name);
    }
  }
}
