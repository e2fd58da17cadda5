/** The scope chain of src/Lox/Environment.cs. Every `Environment` object
    ever created is a frame of one arena, named by its index; the frame holds
    the object's dictionary and the index of its enclosing scope. A scope is
    always created after the scope it encloses, so enclosing indices strictly
    decrease along a chain and following them always ends (`Acyclic`). */
module Environment {
  import opened Wrappers
  import opened Values
  import opened Tokens
  import opened Reporting

  /** One `Environment` object: `_values` and `_enclosing`. */
  datatype Frame = Frame(values: map<string, Value>, enclosing: Option<nat>)

  /** Each scope's enclosing scope is older than it. */
  ghost predicate Acyclic(frames: seq<Frame>)
  {
    forall i :: 0 <= i < |frames| && frames[i].enclosing.Some? ==> frames[i].enclosing.value < i
  }

  /** The enclosing scope of every scope, by index. */
  function Links(frames: seq<Frame>): (l: seq<Option<nat>>)
    ensures |l| == |frames|
  {
    seq(|frames|, i requires 0 <= i < |frames| => frames[i].enclosing)
  }

  /** The nearest scope, from `scope` outwards, that binds `name`. A link
      to a scope that is not older, which `Acyclic` rules out, would end the
      search. */
  function Nearest(frames: seq<Frame>, scope: nat, name: string): (k: Option<nat>)
    ensures k.Some? ==> k.value <= scope && k.value < |frames| && name in frames[k.value].values
    decreases scope
  {
    if |frames| <= scope then None
    else if name in frames[scope].values then Some(scope)
    else match frames[scope].enclosing
      case Some(p) => if p < scope then Nearest(frames, p, name) else None
      case None => None
  }

  /** The value of `name` as seen from `scope`: the one held by the nearest
      scope that binds it. */
  function Lookup(frames: seq<Frame>, scope: nat, name: string): Option<Value>
  {
    match Nearest(frames, scope, name)
    case None => None
    case Some(k) => Some(frames[k].values[name])
  }

  /** The arena after `_values[name] = value` in scope `k` (no change when
      there is no scope `k`). */
  function Assigned(frames: seq<Frame>, k: nat, name: string, value: Value): seq<Frame>
  {
    if k < |frames| then frames[k := frames[k].(values := frames[k].values[name := value])]
    else frames
  }

  /** The message of both exceptions for a name bound nowhere. */
  function UndefinedMessage(name: string): string
  {
    "Variable " + name + " has not been defined."
  }

  /** Every `Environment` object, as one arena. The Token overloads take the
      lexeme as the name; they fail with a `RuntimeError` (Lox's
      `RuntimeException`), the string overloads with the message of an
      `ApplicationException`. */
  class Environments {
    var frames: seq<Frame>

    ghost predicate Valid()
      reads this
    {
      Acyclic(frames)
    }

    constructor ()
      ensures Valid() && frames == []
    {
      frames := [];
    }

    /** `new Environment(enclosing)`: a fresh, empty scope. */
    method NewEnvironment(enclosing: Option<nat>) returns (scope: nat)
      requires Valid() && (enclosing.Some? ==> enclosing.value < |frames|)
      modifies this
      ensures Valid() && frames == old(frames) + [Frame(map[], enclosing)]
      ensures scope == |old(frames)|
    {
      scope := |frames|;
      frames := frames + [Frame(map[], enclosing)];
    }

    /** `IsDefined(string)`: bound here, or defined in the enclosing scope. */
    function IsDefined(scope: nat, name: string): (b: bool)
      reads this
      requires Valid() && scope < |frames|
      ensures b <==> Nearest(frames, scope, name).Some?
      decreases scope
    {
      name in frames[scope].values
      || (frames[scope].enclosing.Some? && IsDefined(frames[scope].enclosing.value, name))
    }

    /** `IsDefined(Token)`. */
    function IsDefinedToken(scope: nat, name: Token): (b: bool)
      reads this
      requires Valid() && scope < |frames|
      ensures b <==> Lookup(frames, scope, name.lexeme).Some?
    {
      IsDefined(scope, name.lexeme)
    }

    /** `Define(string, value)`: overwrites through `Set` when the name is
        bound here, adds a binding otherwise; no other scope changes. */
    method Define(scope: nat, name: string, value: Value)
      requires Valid() && scope < |frames|
      modifies this
      ensures Valid() && frames == Assigned(old(frames), scope, name, value)
    {
      if name in frames[scope].values {
        var _ := SetName(scope, name, value);
      } else {
        frames := frames[scope := frames[scope].(values := frames[scope].values[name := value])];
      }
    }

    /** `Define(Token, value)`. */
    method DefineToken(scope: nat, name: Token, value: Value)
      requires Valid() && scope < |frames|
      modifies this
      ensures Valid() && frames == Assigned(old(frames), scope, name.lexeme, value)
    {
      Define(scope, name.lexeme, value);
    }

    /** `Set(Token, value)`: assigns in the nearest scope binding the name,
        or fails and changes nothing. */
    method Set(scope: nat, name: Token, value: Value) returns (r: Outcome<RuntimeError>)
      requires Valid() && scope < |frames|
      modifies this
      ensures Valid()
      ensures match Nearest(old(frames), scope, name.lexeme)
        case Some(k) => r == Pass && frames == Assigned(old(frames), k, name.lexeme, value)
        case None => r == Fail(RuntimeError(name, UndefinedMessage(name.lexeme))) && frames == old(frames)
      decreases scope
    {
      if name.lexeme in frames[scope].values {
        frames := frames[scope := frames[scope].(values := frames[scope].values[name.lexeme := value])];
        r := Pass;
      } else if IsDefined(scope, name.lexeme) {
        r := Set(frames[scope].enclosing.value, name, value);
      } else {
        r := Fail(RuntimeError(name, UndefinedMessage(name.lexeme)));
      }
    }

    /** `Set(string, value)`: as `Set(Token, value)`, failing with the
        message of an `ApplicationException`. */
    method SetName(scope: nat, name: string, value: Value) returns (r: Outcome<string>)
      requires Valid() && scope < |frames|
      modifies this
      ensures Valid()
      ensures match Nearest(old(frames), scope, name)
        case Some(k) => r == Pass && frames == Assigned(old(frames), k, name, value)
        case None => r == Fail(UndefinedMessage(name)) && frames == old(frames)
      decreases scope
    {
      if name in frames[scope].values {
        frames := frames[scope := frames[scope].(values := frames[scope].values[name := value])];
        r := Pass;
      } else if IsDefined(scope, name) {
        r := SetName(frames[scope].enclosing.value, name, value);
      } else {
        r := Fail(UndefinedMessage(name));
      }
    }

    /** `Get(Token)`: the value in the nearest scope binding the name, or
        the undefined-variable error. */
    function Get(scope: nat, name: Token): (r: Result<Value, RuntimeError>)
      reads this
      requires Valid() && scope < |frames|
      ensures r == match Lookup(frames, scope, name.lexeme)
        case Some(v) => Success(v)
        case None => Failure(RuntimeError(name, UndefinedMessage(name.lexeme)))
      decreases scope
    {
      if name.lexeme in frames[scope].values then
        Success(frames[scope].values[name.lexeme])
      else if IsDefined(scope, name.lexeme) then
        Get(frames[scope].enclosing.value, name)
      else
        Failure(RuntimeError(name, UndefinedMessage(name.lexeme)))
    }

    /** `Get(string)`: as `Get(Token)`, failing with the message of an
        `ApplicationException`. */
    function GetName(scope: nat, name: string): (r: Result<Value, string>)
      reads this
      requires Valid() && scope < |frames|
      ensures r == match Lookup(frames, scope, name)
        case Some(v) => Success(v)
        case None => Failure(UndefinedMessage(name))
      decreases scope
    {
      if name in frames[scope].values then
        Success(frames[scope].values[name])
      else if IsDefined(scope, name) then
        GetName(frames[scope].enclosing.value, name)
      else
        Failure(UndefinedMessage(name))
    }
  }
}
