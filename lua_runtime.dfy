/**
 * The script runtime: the single embedded interpreter's life cycle
 * (Init, Close, lazy initialisation by Load and Run), the output buffer
 * drained by GetOutput, and Call, which pushes typed arguments to a global
 * script function and pulls typed results back according to a compact
 * signature string such as "ds>i".
 *
 * The interpreter itself is abstract: whether it can be created, whether a
 * file loads and executes, and what a called function returns are given as
 * parameters.
 */
module LuaRuntime {
  import opened Outcomes
  import opened LuaValues

  /** The interpreter handle: none yet, open, or closed by Close (the handle is kept). */
  datatype Interpreter = NoInterpreter | Open | Closed

  /** The runtime's static state: the initialised flag and the interpreter handle. */
  datatype Runtime = Runtime(initialized: bool, vm: Interpreter)

  const START := Runtime(false, NoInterpreter)

  /** The flag says whether an interpreter was ever created: unset means there is none. */
  predicate Consistent(s: Runtime) {
    s.initialized <==> !s.vm.NoInterpreter?
  }

  /**
   * Init refuses when already initialised and then changes nothing; when the
   * interpreter cannot be created it fails without initialising; otherwise
   * the runtime is initialised with an open interpreter.
   */
  function InitStep(s: Runtime, vmCreated: bool): (r: (bool, Runtime))
    ensures s.initialized ==> r == (false, s)
    ensures !s.initialized ==> (r.0 <==> vmCreated)
    ensures r.0 <==> !s.initialized && r.1 == Runtime(true, Open)
    ensures !r.0 && !s.initialized ==> !r.1.initialized
  {
    if s.initialized then (false, s)
    else if !vmCreated then (false, Runtime(false, NoInterpreter))
    else (true, Runtime(true, Open))
  }

  /** Close fails when not initialised; otherwise it closes the interpreter but leaves the flag set. */
  function CloseStep(s: Runtime): (r: (bool, Runtime))
    ensures r.0 <==> s.initialized
    ensures !r.0 ==> r.1 == s
    ensures r.1.initialized == s.initialized
    ensures r.0 ==> r.1.vm == Closed
  {
    if s.initialized then (true, s.(vm := Closed)) else (false, s)
  }

  /**
   * Load initialises on demand and fails if that fails; it then succeeds
   * only when the file both loads and executes.
   */
  function LoadStep(s: Runtime, vmCreated: bool, loadOk: bool, execOk: bool): (r: (bool, Runtime))
    ensures r.0 <==> (s.initialized || vmCreated) && loadOk && execOk
    ensures s.initialized ==> r.1 == s
    ensures !s.initialized ==> r.1 == InitStep(s, vmCreated).1
  {
    var s1 := if s.initialized then s else InitStep(s, vmCreated).1;
    if !s.initialized && !vmCreated then (false, s1)
    else (loadOk && execOk, s1)
  }

  /** Run initialises on demand like Load and always reports false, whatever the line does. */
  function RunStep(s: Runtime, vmCreated: bool): (r: (bool, Runtime))
    ensures !r.0
    ensures r.1 == (if s.initialized then s else InitStep(s, vmCreated).1)
  {
    if s.initialized then (false, s)
    else (false, InitStep(s, vmCreated).1)
  }

  /** Every step keeps the flag and the interpreter handle in agreement. */
  lemma StepsKeepConsistent(s: Runtime, vmCreated: bool, loadOk: bool, execOk: bool)
    requires Consistent(s)
    ensures Consistent(InitStep(s, vmCreated).1)
    ensures Consistent(CloseStep(s).1)
    ensures Consistent(LoadStep(s, vmCreated, loadOk, execOk).1)
    ensures Consistent(RunStep(s, vmCreated).1)
  {
  }

  /** A second Init without a Close in between is refused and leaves the state as the first left it. */
  lemma InitTwice(s: Runtime, first: bool, second: bool)
    requires InitStep(s, first).0
    ensures InitStep(InitStep(s, first).1, second) == (false, InitStep(s, first).1)
  {
  }

  /** Close leaves the flag set, so an Init after a successful Init and Close is still refused. */
  lemma InitAfterClose(s: Runtime, first: bool, second: bool)
    requires InitStep(s, first).0
    ensures CloseStep(InitStep(s, first).1).0
    ensures !InitStep(CloseStep(InitStep(s, first).1).1, second).0
  {
  }

  /**
   * Close keeps the flag set, so a second Close passes the flag check again
   * although the interpreter is already closed: that is where the code closes
   * a freed interpreter a second time.
   */
  lemma SecondCloseReachesClosedInterpreter(s: Runtime)
    requires CloseStep(s).0
    ensures CloseStep(s).1.vm == Closed
    ensures CloseStep(CloseStep(s).1).0
  {
  }

  /** Load and Run initialise lazily: once either has succeeded in creating the interpreter, later calls do not initialise again. */
  lemma LazyInitialization(s: Runtime, vmCreated: bool, loadOk: bool, execOk: bool)
    ensures !s.initialized && vmCreated ==> LoadStep(s, vmCreated, loadOk, execOk).1 == Runtime(true, Open)
    ensures !s.initialized && vmCreated ==> RunStep(s, vmCreated).1 == Runtime(true, Open)
    ensures !s.initialized && !vmCreated ==> !LoadStep(s, vmCreated, loadOk, execOk).0
    ensures s.initialized ==> LoadStep(s, vmCreated, loadOk, execOk).1 == s && RunStep(s, vmCreated).1 == s
  {
  }

  /** A typed argument or result of Call: a number ('d' or 'i') or a string ('s'). */
  datatype Arg = ArgNum(n: int) | ArgStr(s: string)

  datatype CallError =
    | InvalidOption(option: char)
    | RunError(func: string, message: string)
    | WrongResultType

  predicate IsTypeLetter(c: char) {
    c == 'd' || c == 'i' || c == 's'
  }

  /** How many type letters the signature starts with: the arguments pushed before the first other character. */
  function ArgCount(sig: string): (n: nat)
    ensures n <= |sig|
    ensures forall i | 0 <= i < n :: IsTypeLetter(sig[i])
    ensures n < |sig| ==> !IsTypeLetter(sig[n])
  {
    if sig == [] || !IsTypeLetter(sig[0]) then 0 else 1 + ArgCount(sig[1..])
  }

  /**
   * Splits a signature into its argument letters and its result letters at
   * the first '>'; a signature without '>' expects no result. A character
   * among the arguments that is neither a type letter nor '>' is an invalid
   * option.
   */
  function SplitSig(sig: string): (r: Result<(string, string), CallError>)
    ensures r.Err? <==> ArgCount(sig) < |sig| && sig[ArgCount(sig)] != '>'
    ensures r.Err? ==> r.error == InvalidOption(sig[ArgCount(sig)])
    ensures r.Ok? ==> r.value.0 == sig[..ArgCount(sig)]
    ensures r.Ok? ==> r.value.1 == (if ArgCount(sig) < |sig| then sig[ArgCount(sig) + 1..] else [])
  {
    if sig == [] then Ok(([], []))
    else if sig[0] == '>' then Ok(([], sig[1..]))
    else if IsTypeLetter(sig[0]) then
      match SplitSig(sig[1..])
      case Ok(parts) => Ok(([sig[0]] + parts.0, parts.1))
      case Err(e) => Err(e)
    else Err(InvalidOption(sig[0]))
  }

  /** The caller's arguments match the argument letters in number and kind, as the C variadic list must. */
  predicate ArgsFit(sig: string, args: seq<Arg>) {
    && |args| == ArgCount(sig)
    && forall i | 0 <= i < |args| :: (sig[i] == 's' <==> args[i].ArgStr?)
  }

  /** The value an argument is pushed as. */
  function Push(a: Arg): LuaValue {
    match a
    case ArgNum(n) => LNumber(n)
    case ArgStr(s) => LString(s)
  }

  /** The values the arguments are pushed as, in order. */
  function Pushed(args: seq<Arg>): (vs: seq<LuaValue>)
    ensures |vs| == |args|
    ensures forall i | 0 <= i < |args| :: vs[i] == Push(args[i])
  {
    if args == [] then [] else Pushed(args[..|args| - 1]) + [Push(args[|args| - 1])]
  }

  /** The interpreter's adjustment of a function's results to the expected count: extra dropped, missing ones nil. */
  function Adjust(vals: seq<LuaValue>, n: nat): seq<LuaValue> {
    seq(n, i requires 0 <= i < n => if i < |vals| then vals[i] else LNil)
  }

  /** Retrieves one result: a number for 'd' or 'i', a string for 's', an invalid option for anything else. */
  function Convert(c: char, v: LuaValue): (r: Result<Arg, CallError>)
    ensures r.Ok? ==> IsTypeLetter(c) && (c == 's' <==> r.value.ArgStr?)
    ensures !IsTypeLetter(c) ==> r == Err(InvalidOption(c))
    ensures (c == 'd' || c == 'i') ==> (r.Ok? <==> ToNumber(v).Some?)
    ensures c == 's' ==> (r.Ok? <==> ToText(v).Some?)
  {
    if c == 'd' || c == 'i' then
      (match ToNumber(v) case Some(n) => Ok(ArgNum(n)) case None => Err(WrongResultType))
    else if c == 's' then
      (match ToText(v) case Some(s) => Ok(ArgStr(s)) case None => Err(WrongResultType))
    else Err(InvalidOption(c))
  }

  /** Retrieves the results in order, stopping at the first that fails. */
  function Collect(letters: string, vals: seq<LuaValue>): (r: Result<seq<Arg>, CallError>)
    requires |vals| == |letters|
    ensures r.Ok? <==> forall i | 0 <= i < |letters| :: Convert(letters[i], vals[i]).Ok?
    ensures r.Ok? ==> |r.value| == |letters|
    ensures r.Ok? ==> forall i | 0 <= i < |letters| :: r.value[i] == Convert(letters[i], vals[i]).value
    ensures r.Err? ==> exists i | 0 <= i < |letters| ::
      Convert(letters[i], vals[i]) == Err(r.error) && forall j | 0 <= j < i :: Convert(letters[j], vals[j]).Ok?
    decreases |letters|
  {
    if letters == [] then Ok([])
    else
      match Convert(letters[0], vals[0])
      case Err(e) => Err(e)
      case Ok(a) =>
        match Collect(letters[1..], vals[1..])
        case Ok(rest) => Ok([a] + rest)
        case Err(e) =>
          var i :| 0 <= i < |letters| - 1 && Convert(letters[1..][i], vals[1..][i]) == Err(e)
                   && forall j | 0 <= j < i :: Convert(letters[1..][j], vals[1..][j]).Ok?;
          assert Convert(letters[i + 1], vals[i + 1]) == Err(e);
          Err(e)
  }

  /**
   * A call as the signature protocol defines it: the argument letters are
   * checked and the arguments pushed, the function runs with as many results
   * expected as there are result letters, and each result is converted.
   */
  function CallSpec(func: string, sig: string, args: seq<Arg>, callee: seq<LuaValue> -> Result<seq<LuaValue>, string>)
    : Result<seq<Arg>, CallError>
    requires ArgsFit(sig, args)
  {
    match SplitSig(sig)
    case Err(e) => Err(e)
    case Ok(parts) =>
      match callee(Pushed(args))
      case Err(msg) => Err(RunError(func, msg))
      case Ok(vals) => Collect(parts.1, Adjust(vals, |parts.1|))
  }

  /** The function is called with exactly one value per argument letter, in order. */
  lemma CallArguments(sig: string, args: seq<Arg>)
    requires ArgsFit(sig, args)
    requires SplitSig(sig).Ok?
    ensures |args| == |SplitSig(sig).value.0|
    ensures forall i | 0 <= i < |args| :: (SplitSig(sig).value.0[i] == 's' <==> Push(args[i]).LString?)
  {
  }

  /** A successful call yields exactly one value per result letter, of the kind the letter names. */
  lemma CallResults(func: string, sig: string, args: seq<Arg>, callee: seq<LuaValue> -> Result<seq<LuaValue>, string>)
    requires ArgsFit(sig, args)
    requires CallSpec(func, sig, args, callee).Ok?
    ensures SplitSig(sig).Ok?
    ensures |CallSpec(func, sig, args, callee).value| == |SplitSig(sig).value.1|
    ensures forall i | 0 <= i < |SplitSig(sig).value.1| ::
      (SplitSig(sig).value.1[i] == 's' <==> CallSpec(func, sig, args, callee).value[i].ArgStr?)
  {
  }

  /** A result the function does not return is nil, so a signature asking for more results than returned fails. */
  lemma MissingResultIsWrongType(func: string, sig: string, args: seq<Arg>, callee: seq<LuaValue> -> Result<seq<LuaValue>, string>)
    requires ArgsFit(sig, args)
    requires SplitSig(sig).Ok?
    requires callee(Pushed(args)).Ok?
    requires |callee(Pushed(args)).value| < |SplitSig(sig).value.1|
    ensures CallSpec(func, sig, args, callee).Err?
  {
    var res := SplitSig(sig).value.1;
    var vals := callee(Pushed(args)).value;
    var adjusted := Adjust(vals, |res|);
    var k := |vals|;
    assert adjusted[k] == LNil;
    assert Convert(res[k], adjusted[k]).Err?;
  }

  /**
   * The argument half of the protocol: pushes one value per type letter,
   * stopping at '>' or at the end of the signature; any other character is
   * an invalid option. Returns the pushed values and the result letters.
   */
  method PushArguments(sig: string, args: seq<Arg>) returns (r: Result<(seq<LuaValue>, string), CallError>)
    requires ArgsFit(sig, args)
    ensures SplitSig(sig).Err? ==> r == Err(SplitSig(sig).error)
    ensures SplitSig(sig).Ok? ==> r == Ok((Pushed(args), SplitSig(sig).value.1))
  {
    var pushed: seq<LuaValue> := [];
    var narg := 0;
    while narg < |sig|
      invariant 0 <= narg <= ArgCount(sig)
      invariant pushed == Pushed(args[..narg])
    {
      var c := sig[narg];
      if c == 'd' || c == 'i' {
        pushed := pushed + [LNumber(args[narg].n)];
      } else if c == 's' {
        pushed := pushed + [LString(args[narg].s)];
      } else if c == '>' {
        assert args[..narg] == args;
        return Ok((pushed, sig[narg + 1..]));
      } else {
        return Err(InvalidOption(c));
      }
      assert args[..narg + 1] == args[..narg] + [args[narg]];
      narg := narg + 1;
    }
    assert args[..narg] == args;
    r := Ok((pushed, []));
  }

  /** The result half of the protocol: converts each result in turn, failing at the first that does not convert. */
  method RetrieveResults(letters: string, results: seq<LuaValue>) returns (r: Result<seq<Arg>, CallError>)
    requires |results| == |letters|
    ensures r == Collect(letters, results)
  {
    var outs: seq<Arg> := [];
    var nres := 0;
    while nres < |letters|
      invariant 0 <= nres <= |letters|
      invariant |outs| == nres
      invariant forall j | 0 <= j < nres :: Convert(letters[j], results[j]) == Ok(outs[j])
    {
      var converted := Convert(letters[nres], results[nres]);
      if converted.Err? {
        ghost var expected := Collect(letters, results);
        assert expected.Err?;
        ghost var first :| 0 <= first < |letters| && Convert(letters[first], results[first]) == Err(expected.error)
                           && forall j | 0 <= j < first :: Convert(letters[j], results[j]).Ok?;
        assert first == nres;
        return Err(converted.error);
      }
      outs := outs + [converted.value];
      nres := nres + 1;
    }
    assert forall j | 0 <= j < |letters| :: Convert(letters[j], results[j]).Ok?;
    assert Collect(letters, results).value == outs;
    r := Ok(outs);
  }

  /** Calls the global function named func with the arguments the signature describes and retrieves its results. */
  method Call(func: string, sig: string, args: seq<Arg>, callee: seq<LuaValue> -> Result<seq<LuaValue>, string>)
    returns (r: Result<seq<Arg>, CallError>)
    requires ArgsFit(sig, args)
    ensures r == CallSpec(func, sig, args, callee)
  {
    var prepared := PushArguments(sig, args);
    if prepared.Err? {
      return Err(prepared.error);
    }
    var letters := prepared.value.1;
    var outcome := callee(prepared.value.0);
    if outcome.Err? {
      return Err(RunError(func, outcome.error));
    }
    r := RetrieveResults(letters, Adjust(outcome.value, |letters|));
  }

  /** The runtime's static fields: the initialised flag, the interpreter handle and the output buffer. */
  class Lua {
    var luaInitialized: bool
    var vm: Interpreter
    var buffer: seq<string>

    function State(): Runtime
      reads this
    {
      Runtime(luaInitialized, vm)
    }

    constructor ()
      ensures State() == START && buffer == []
    {
      luaInitialized := false;
      vm := NoInterpreter;
      buffer := [];
    }

    /** vmCreated says whether the interpreter could be created. */
    method Init(vmCreated: bool) returns (ok: bool)
      modifies this`luaInitialized, this`vm
      ensures (ok, State()) == InitStep(old(State()), vmCreated)
    {
      if luaInitialized {
        return false;
      }
      if !vmCreated {
        vm := NoInterpreter;
        return false;
      }
      vm := Open;
      luaInitialized := true;
      ok := true;
    }

    method Close() returns (ok: bool)
      modifies this`vm
      ensures (ok, State()) == CloseStep(old(State()))
    {
      if luaInitialized {
        vm := Closed;
      } else {
        return false;
      }
      ok := true;
    }

    /** loadOk and execOk say whether the file parses and whether executing it succeeds. */
    method Load(filename: string, vmCreated: bool, loadOk: bool, execOk: bool) returns (ok: bool)
      modifies this`luaInitialized, this`vm
      ensures (ok, State()) == LoadStep(old(State()), vmCreated, loadOk, execOk)
    {
      if !luaInitialized {
        var initialized := Init(vmCreated);
        if !initialized {
          return false;
        }
      }
      if !loadOk {
        return false;
      }
      if !execOk {
        return false;
      }
      ok := true;
    }

    /** Runs a line of script; an error in it is reported and discarded, and the answer is always false. */
    method Run(line: string, vmCreated: bool) returns (ok: bool)
      modifies this`luaInitialized, this`vm
      ensures (ok, State()) == RunStep(old(State()), vmCreated)
    {
      if !luaInitialized {
        var initialized := Init(vmCreated);
        if !initialized {
          return false;
        }
      }
      ok := false;
    }

    /** Hands over the output collected so far and empties the buffer. */
    method GetOutput() returns (ret: seq<string>)
      modifies this`buffer
      ensures ret == old(buffer)
      ensures buffer == []
    {
      ret := buffer;
      buffer := [];
    }
  }
}
