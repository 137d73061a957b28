/** The full checker (src/obj.ts): booleans, numbers, `if`, `add`, variables,
    functions, recursive functions, calls, sequencing, `const`, object
    literals and field access, with structural type equality and a width,
    depth and function subtyping relation.

    A function literal without a declared return type yields a function type
    whose return type is JavaScript `undefined`; a call of such a function
    returns `undefined`, and reading `.tag` of it throws. The model keeps that
    value as the type `Undefined`, and every place where the source reads
    `.tag` of a type fails on it with `UndefinedTag`.

    The source's `typecheck`, `typeEq` and `subtype` are given twice: as
    functions that state what they compute, and as methods that run the
    source's loops and early exits (`TypeCheckImpl`, `TypeEqImpl`,
    `SubtypeImpl`, `ExtendEnv`), each proved to return exactly what its
    function states. */
module Obj {
  import opened Results

  // ---------------------------------------------------------------------
  // Types, terms and environments

  datatype Type =
    | Undefined  // JavaScript `undefined` where a type is expected
    | Boolean
    | Number
    | Func(params: seq<Param>, retType: Type)
    | Object(props: seq<PropertyType>)

  datatype Param = Param(name: string, ty: Type)

  datatype PropertyType = PropertyType(name: string, ty: Type)

  datatype PropertyTerm = PropertyTerm(name: string, term: Term)

  datatype Term =
    | True
    | False
    | If(cond: Term, thn: Term, els: Term)
    | NumberLit(n: int)
    | Add(left: Term, right: Term)
    | Var(name: string)
      /** `retType` is `Undefined` when no return type is declared. */
    | FuncLit(params: seq<Param>, retType: Type, body: Term)
    | Call(func: Term, args: seq<Term>)
    | Seq(body: Term, rest: Term)
    | Const(name: string, init: Term, rest: Term)
    | ObjectNew(props: seq<PropertyTerm>)
    | ObjectGet(obj: Term, propName: string)
    | RecFunc(funcName: string, params: seq<Param>, retType: Type, body: Term, rest: Term)

  type TypeEnv = map<string, Type>

  /** The runtime error raised when the source reads `.tag` of `undefined`. */
  const UndefinedTag: string := "TypeError: cannot read properties of undefined (reading 'tag')"

  /** `props.find(p => p.name === name)`, as the position of the first
      property with that name, or -1 when there is none. */
  function FindIndex(props: seq<PropertyType>, name: string): (k: int)
    ensures -1 <= k < |props|
    ensures k >= 0 ==> props[k].name == name
    ensures forall j :: 0 <= j < |props| && (k < 0 || j < k) ==> props[j].name != name
    decreases |props|
  {
    if |props| == 0 then -1
    else if props[0].name == name then 0
    else
      var k := FindIndex(props[1..], name);
      assert forall j :: 1 <= j < |props| ==> props[j] == props[1..][j - 1];
      if k < 0 then -1 else k + 1
  }

  // ---------------------------------------------------------------------
  // Sizes, for the termination of `subtype`, which swaps its operands

  function Size(ty: Type): nat
    decreases ty
  {
    match ty
    case Func(params, ret) => 1 + ParamsSize(params) + Size(ret)
    case Object(props) => 1 + PropsSize(props)
    case _ => 1
  }

  function ParamsSize(params: seq<Param>): nat
    decreases params
  {
    if |params| == 0 then 0 else Size(params[0].ty) + ParamsSize(params[1..])
  }

  function PropsSize(props: seq<PropertyType>): nat
    decreases props
  {
    if |props| == 0 then 0 else Size(props[0].ty) + PropsSize(props[1..])
  }

  lemma {:induction false} ParamSizeBound(params: seq<Param>, i: nat)
    requires i < |params|
    ensures Size(params[i].ty) <= ParamsSize(params)
    decreases i
  {
    if i > 0 {
      ParamSizeBound(params[1..], i - 1);
    }
  }

  lemma {:induction false} PropSizeBound(props: seq<PropertyType>, i: nat)
    requires i < |props|
    ensures Size(props[i].ty) <= PropsSize(props)
    decreases i
  {
    if i > 0 {
      PropSizeBound(props[1..], i - 1);
    }
  }

  // ---------------------------------------------------------------------
  // Type equality

  /** `typeEq(ty1, ty2)`, dispatching on `ty2`. A thrown error (reading
      `.tag` of `undefined`) is `Err`. */
  function TypeEq(ty1: Type, ty2: Type): Result<bool, string>
    decreases ty2
  {
    match ty2
    case Undefined => Err(UndefinedTag)
    case Boolean => if ty1.Undefined? then Err(UndefinedTag) else Ok(ty1.Boolean?)
    case Number => if ty1.Undefined? then Err(UndefinedTag) else Ok(ty1.Number?)
    case Func(params2, ret2) =>
      if ty1.Undefined? then Err(UndefinedTag)
      else if !ty1.Func? then Ok(false)
      else if |ty1.params| != |params2| then Ok(false)
      else
        var paramsEq :- ParamsEq(ty1.params, params2, 0);
        if !paramsEq then Ok(false) else TypeEq(ty1.retType, ret2)
    case Object(props2) =>
      if ty1.Undefined? then Err(UndefinedTag)
      else if !ty1.Object? then Ok(false)
      else if |ty1.props| != |props2| then Ok(false)
      else PropsEq(ty1.props, props2, 0)
  }

  /** The parameter loop of `typeEq` from position `i` on. */
  function ParamsEq(params1: seq<Param>, params2: seq<Param>, i: nat): Result<bool, string>
    requires |params1| == |params2| && i <= |params2|
    decreases params2, |params2| - i
  {
    if i == |params2| then Ok(true)
    else
      var eq :- TypeEq(params1[i].ty, params2[i].ty);
      if !eq then Ok(false) else ParamsEq(params1, params2, i + 1)
  }

  /** The property loop of `typeEq` from position `i` of `props2` on: each
      property must be found by name in `props1` with an equal type. */
  function PropsEq(props1: seq<PropertyType>, props2: seq<PropertyType>, i: nat): Result<bool, string>
    requires i <= |props2|
    decreases props2, |props2| - i
  {
    if i == |props2| then Ok(true)
    else
      var k := FindIndex(props1, props2[i].name);
      if k < 0 then Ok(false)
      else
        var eq :- TypeEq(props1[k].ty, props2[i].ty);
        if !eq then Ok(false) else PropsEq(props1, props2, i + 1)
  }

  // ---------------------------------------------------------------------
  // Subtyping

  /** `subtype(ty1, ty2)`: `ty1` may be used where `ty2` is expected. */
  function Subtype(ty1: Type, ty2: Type): Result<bool, string>
    decreases Size(ty1) + Size(ty2), 0, 0
  {
    match ty2
    case Undefined => Err(UndefinedTag)
    case Boolean => if ty1.Undefined? then Err(UndefinedTag) else Ok(ty1.Boolean?)
    case Number => if ty1.Undefined? then Err(UndefinedTag) else Ok(ty1.Number?)
    case Object(props2) =>
      if ty1.Undefined? then Err(UndefinedTag)
      else if !ty1.Object? then Ok(false)
      else PropsSub(ty1.props, props2, 0)
    case Func(params2, ret2) =>
      if ty1.Undefined? then Err(UndefinedTag)
      else if !ty1.Func? then Ok(false)
      else if |ty1.params| != |params2| then Ok(false)
      else
        var paramsSub :- ParamsSub(ty1.params, params2, 0);
        if !paramsSub then Ok(false) else Subtype(ty1.retType, ret2)
  }

  /** The parameter loop of `subtype` from position `i` on; note the swapped
      operands: each expected parameter type must be a subtype of the
      offered one. */
  function ParamsSub(params1: seq<Param>, params2: seq<Param>, i: nat): Result<bool, string>
    requires |params1| == |params2| && i <= |params2|
    decreases ParamsSize(params1) + ParamsSize(params2), 1, |params2| - i
  {
    if i == |params2| then Ok(true)
    else
      ParamSizeBound(params1, i);
      ParamSizeBound(params2, i);
      var sub :- Subtype(params2[i].ty, params1[i].ty);
      if !sub then Ok(false) else ParamsSub(params1, params2, i + 1)
  }

  /** The property loop of `subtype` from position `i` of `props2` on: each
      required property must be found by name in `props1` with a subtype. */
  function PropsSub(props1: seq<PropertyType>, props2: seq<PropertyType>, i: nat): Result<bool, string>
    requires i <= |props2|
    decreases PropsSize(props1) + PropsSize(props2), 1, |props2| - i
  {
    if i == |props2| then Ok(true)
    else
      var k := FindIndex(props1, props2[i].name);
      if k < 0 then Ok(false)
      else
        PropSizeBound(props1, k);
        PropSizeBound(props2, i);
        var sub :- Subtype(props1[k].ty, props2[i].ty);
        if !sub then Ok(false) else PropsSub(props1, props2, i + 1)
  }

  // ---------------------------------------------------------------------
  // Environments

  /** The environment copied and then assigned each parameter in order, so a
      later parameter of the same name overwrites an earlier one. */
  function BindParams(env: TypeEnv, params: seq<Param>): TypeEnv
    decreases |params|
  {
    if |params| == 0 then env
    else
      var last := params[|params| - 1];
      BindParams(env, params[..|params| - 1])[last.name := last.ty]
  }

  /** The position of the last parameter called `name`, or -1 if there is
      none. */
  function LastIndex(params: seq<Param>, name: string): (k: int)
    ensures -1 <= k < |params|
    ensures k >= 0 ==> params[k].name == name
    ensures forall j :: k < j < |params| ==> params[j].name != name
    decreases |params|
  {
    if |params| == 0 then -1
    else if params[|params| - 1].name == name then |params| - 1
    else
      var k := LastIndex(params[..|params| - 1], name);
      assert forall j :: k < j < |params| - 1 ==> params[..|params| - 1][j] == params[j];
      k
  }

  // ---------------------------------------------------------------------
  // The checker

  /** `typecheck(t, tyEnv)`. */
  function TypeCheck(t: Term, env: TypeEnv): Result<Type, string>
    decreases t
  {
    match t
    case True => Ok(Boolean)
    case False => Ok(Boolean)
    case If(cond, thn, els) =>
      var condType :- TypeCheck(cond, env);
      if condType.Undefined? then Err(UndefinedTag)
      else if !condType.Boolean? then Err("boolean expected")
      else
        var thnType :- TypeCheck(thn, env);
        var elsType :- TypeCheck(els, env);
        var eq :- TypeEq(thnType, elsType);
        if !eq then Err("then and else must have the same type") else Ok(thnType)
    case NumberLit(_) => Ok(Number)
    case Add(left, right) =>
      var leftType :- TypeCheck(left, env);
      if leftType.Undefined? then Err(UndefinedTag)
      else if !leftType.Number? then Err("number expected")
      else
        var rightType :- TypeCheck(right, env);
        if rightType.Undefined? then Err(UndefinedTag)
        else if !rightType.Number? then Err("number expected")
        else Ok(Number)
    case Var(name) =>
      // A name bound to `undefined` counts as unbound.
      if name !in env || env[name].Undefined? then Err("undefined variable: " + name)
      else Ok(env[name])
    case FuncLit(params, retType, body) =>
      var retTy :- TypeCheck(body, BindParams(env, params));
      if retType.Undefined? then Ok(Func(params, retType))
      else
        var eq :- TypeEq(retTy, retType);
        // The result carries the declared return type, not the body's.
        if !eq then Err("return type mismatch") else Ok(Func(params, retType))
    case RecFunc(funcName, params, retType, body, rest) =>
      var funcTy := Func(params, retType);
      var bodyType :- TypeCheck(body, BindParams(env, params)[funcName := funcTy]);
      var eq :- TypeEq(retType, bodyType);
      if !eq then Err("wrong return type")
      else TypeCheck(rest, env[funcName := funcTy])
    case Call(func, args) =>
      var funcTy :- TypeCheck(func, env);
      if funcTy.Undefined? then Err(UndefinedTag)
      else if !funcTy.Func? then Err("function expected")
      else if |funcTy.params| != |args| then Err("wrong number of arguments")
      else
        var _ :- CheckArgs(funcTy.params, args, env, 0);
        Ok(funcTy.retType)
    case Seq(body, rest) =>
      var _ :- TypeCheck(body, env);
      TypeCheck(rest, env)
    case Const(name, init, rest) =>
      if init.FuncLit? then
        if init.retType.Undefined? then Err("return type is required for function")
        else
          // The function's body is never checked; `rest` is checked twice
          // under the new binding and compared with the declared return type.
          var funcTy := Func(init.params, init.retType);
          var restType :- TypeCheck(rest, env[name := funcTy]);
          var eq :- TypeEq(init.retType, restType);
          if !eq then Err("wrong return type") else TypeCheck(rest, env[name := funcTy])
      else
        var ty :- TypeCheck(init, env);
        TypeCheck(rest, env[name := ty])
    case ObjectNew(props) =>
      var types :- TypeProps(props, env, 0);
      Ok(Object(types))
    case ObjectGet(obj, propName) =>
      var objTy :- TypeCheck(obj, env);
      if objTy.Undefined? then Err(UndefinedTag)
      else if !objTy.Object? then Err("object type expected")
      else
        var k := FindIndex(objTy.props, propName);
        // The message is written with plain quotes and is not interpolated.
        if k < 0 then Err("unknown property name: ${t.propName}") else Ok(objTy.props[k].ty)
  }

  /** The argument loop of `call` from position `i` on: each argument is
      checked in turn and compared with its parameter, stopping at the first
      failure. */
  function CheckArgs(params: seq<Param>, args: seq<Term>, env: TypeEnv, i: nat): Result<(), string>
    requires |params| == |args| && i <= |args|
    decreases args, |args| - i
  {
    if i == |args| then Ok(())
    else
      var argTy :- TypeCheck(args[i], env);
      var eq :- TypeEq(params[i].ty, argTy);
      if !eq then Err("argument type mismatch") else CheckArgs(params, args, env, i + 1)
  }

  /** The `map` of `objectNew` from position `i` on: each property term is
      checked in the unchanged environment, in order. */
  function TypeProps(props: seq<PropertyTerm>, env: TypeEnv, i: nat): Result<seq<PropertyType>, string>
    requires i <= |props|
    decreases props, |props| - i
  {
    if i == |props| then Ok([])
    else
      var ty :- TypeCheck(props[i].term, env);
      var rest :- TypeProps(props, env, i + 1);
      Ok([PropertyType(props[i].name, ty)] + rest)
  }

  // ---------------------------------------------------------------------
  // The source's loops

  /** The source's `typeEq`, with its loops and early `return false`. */
  method TypeEqImpl(ty1: Type, ty2: Type) returns (r: Result<bool, string>)
    ensures r == TypeEq(ty1, ty2)
    decreases ty2
  {
    match ty2 {
      case Undefined =>
        return Err(UndefinedTag);
      case Boolean =>
        if ty1.Undefined? {
          return Err(UndefinedTag);
        }
        return Ok(ty1.Boolean?);
      case Number =>
        if ty1.Undefined? {
          return Err(UndefinedTag);
        }
        return Ok(ty1.Number?);
      case Func(params2, ret2) =>
        if ty1.Undefined? {
          return Err(UndefinedTag);
        }
        if !ty1.Func? || |ty1.params| != |params2| {
          return Ok(false);
        }
        for i := 0 to |ty1.params|
          invariant ParamsEq(ty1.params, params2, 0) == ParamsEq(ty1.params, params2, i)
        {
          var eq :- TypeEqImpl(ty1.params[i].ty, params2[i].ty);
          if !eq {
            return Ok(false);
          }
        }
        r := TypeEqImpl(ty1.retType, ret2);
      case Object(props2) =>
        if ty1.Undefined? {
          return Err(UndefinedTag);
        }
        if !ty1.Object? || |ty1.props| != |props2| {
          return Ok(false);
        }
        for i := 0 to |props2|
          invariant PropsEq(ty1.props, props2, 0) == PropsEq(ty1.props, props2, i)
        {
          var k := FindIndex(ty1.props, props2[i].name);
          if k < 0 {
            return Ok(false);
          }
          var eq :- TypeEqImpl(ty1.props[k].ty, props2[i].ty);
          if !eq {
            return Ok(false);
          }
        }
        return Ok(true);
    }
  }

  /** The source's `subtype`, with its loops and early `return false`. */
  method SubtypeImpl(ty1: Type, ty2: Type) returns (r: Result<bool, string>)
    ensures r == Subtype(ty1, ty2)
    decreases Size(ty1) + Size(ty2)
  {
    match ty2 {
      case Undefined =>
        return Err(UndefinedTag);
      case Boolean =>
        if ty1.Undefined? {
          return Err(UndefinedTag);
        }
        return Ok(ty1.Boolean?);
      case Number =>
        if ty1.Undefined? {
          return Err(UndefinedTag);
        }
        return Ok(ty1.Number?);
      case Object(props2) =>
        if ty1.Undefined? {
          return Err(UndefinedTag);
        }
        if !ty1.Object? {
          return Ok(false);
        }
        for i := 0 to |props2|
          invariant PropsSub(ty1.props, props2, 0) == PropsSub(ty1.props, props2, i)
        {
          var k := FindIndex(ty1.props, props2[i].name);
          if k < 0 {
            return Ok(false);
          }
          PropSizeBound(ty1.props, k);
          PropSizeBound(props2, i);
          var sub :- SubtypeImpl(ty1.props[k].ty, props2[i].ty);
          if !sub {
            return Ok(false);
          }
        }
        return Ok(true);
      case Func(params2, ret2) =>
        if ty1.Undefined? {
          return Err(UndefinedTag);
        }
        if !ty1.Func? || |ty1.params| != |params2| {
          return Ok(false);
        }
        for i := 0 to |ty1.params|
          invariant ParamsSub(ty1.params, params2, 0) == ParamsSub(ty1.params, params2, i)
        {
          ParamSizeBound(ty1.params, i);
          ParamSizeBound(params2, i);
          var sub :- SubtypeImpl(params2[i].ty, ty1.params[i].ty);
          if !sub {
            return Ok(false);
          }
        }
        r := SubtypeImpl(ty1.retType, ret2);
    }
  }

  /** The source's `{ ...tyEnv }` followed by its assignment loop. */
  method ExtendEnv(env: TypeEnv, params: seq<Param>) returns (newEnv: TypeEnv)
    ensures newEnv == BindParams(env, params)
  {
    newEnv := env;
    for i := 0 to |params|
      invariant newEnv == BindParams(env, params[..i])
    {
      assert params[..i + 1][..i] == params[..i];
      newEnv := newEnv[params[i].name := params[i].ty];
    }
    assert params[..|params|] == params;
  }

  /** `Ok(prefix + v)` for `Ok(v)`, a failure unchanged. */
  function Prepend(prefix: seq<PropertyType>, r: Result<seq<PropertyType>, string>): Result<seq<PropertyType>, string> {
    match r
    case Ok(v) => Ok(prefix + v)
    case Err(e) => Err(e)
  }

  /** The source's `typecheck`, with its early exits; the longer cases and
      the loops are the methods below. */
  method TypeCheckImpl(t: Term, env: TypeEnv) returns (r: Result<Type, string>)
    ensures r == TypeCheck(t, env)
    decreases t, 1
  {
    match t {
      case True =>
        return Ok(Boolean);
      case False =>
        return Ok(Boolean);
      case If(_, _, _) =>
        r := IfImpl(t, env);
      case NumberLit(_) =>
        return Ok(Number);
      case Add(left, right) =>
        var leftType :- TypeCheckImpl(left, env);
        if leftType.Undefined? {
          return Err(UndefinedTag);
        }
        if !leftType.Number? {
          return Err("number expected");
        }
        var rightType :- TypeCheckImpl(right, env);
        if rightType.Undefined? {
          return Err(UndefinedTag);
        }
        if !rightType.Number? {
          return Err("number expected");
        }
        return Ok(Number);
      case Var(name) =>
        if name !in env || env[name].Undefined? {
          return Err("undefined variable: " + name);
        }
        return Ok(env[name]);
      case FuncLit(params, retType, body) =>
        var newEnv := ExtendEnv(env, params);
        var retTy :- TypeCheckImpl(body, newEnv);
        if !retType.Undefined? {
          var eq :- TypeEqImpl(retTy, retType);
          if !eq {
            return Err("return type mismatch");
          }
        }
        return Ok(Func(params, retType));
      case RecFunc(_, _, _, _, _) =>
        r := RecFuncImpl(t, env);
      case Call(_, _) =>
        r := CallImpl(t, env);
      case Seq(body, rest) =>
        var _ :- TypeCheckImpl(body, env);
        r := TypeCheckImpl(rest, env);
      case Const(_, _, _) =>
        r := ConstImpl(t, env);
      case ObjectNew(props) =>
        var types :- TypePropsImpl(props, env);
        return Ok(Object(types));
      case ObjectGet(_, _) =>
        r := ObjectGetImpl(t, env);
    }
  }

  /** The `if` case of `typecheck`. */
  method IfImpl(t: Term, env: TypeEnv) returns (r: Result<Type, string>)
    requires t.If?
    ensures r == TypeCheck(t, env)
    decreases t, 0
  {
    var If(cond, thn, els) := t;
    var condType :- TypeCheckImpl(cond, env);
    if condType.Undefined? {
      return Err(UndefinedTag);
    }
    if !condType.Boolean? {
      return Err("boolean expected");
    }
    var thnType :- TypeCheckImpl(thn, env);
    var elsType :- TypeCheckImpl(els, env);
    var eq :- TypeEqImpl(thnType, elsType);
    if !eq {
      return Err("then and else must have the same type");
    }
    return Ok(thnType);
  }

  /** The `call` case of `typecheck`. */
  method CallImpl(t: Term, env: TypeEnv) returns (r: Result<Type, string>)
    requires t.Call?
    ensures r == TypeCheck(t, env)
    decreases t, 0
  {
    var Call(func, args) := t;
    var funcTy :- TypeCheckImpl(func, env);
    if funcTy.Undefined? {
      return Err(UndefinedTag);
    }
    if !funcTy.Func? {
      return Err("function expected");
    }
    if |funcTy.params| != |args| {
      return Err("wrong number of arguments");
    }
    var _ :- CheckArgsImpl(funcTy.params, args, env);
    return Ok(funcTy.retType);
  }

  /** The `objectGet` case of `typecheck`. */
  method ObjectGetImpl(t: Term, env: TypeEnv) returns (r: Result<Type, string>)
    requires t.ObjectGet?
    ensures r == TypeCheck(t, env)
    decreases t, 0
  {
    var ObjectGet(obj, propName) := t;
    var objTy :- TypeCheckImpl(obj, env);
    if objTy.Undefined? {
      return Err(UndefinedTag);
    }
    if !objTy.Object? {
      return Err("object type expected");
    }
    var k := FindIndex(objTy.props, propName);
    if k < 0 {
      return Err("unknown property name: ${t.propName}");
    }
    return Ok(objTy.props[k].ty);
  }

  /** The `recFunc` case of `typecheck`. */
  method RecFuncImpl(t: Term, env: TypeEnv) returns (r: Result<Type, string>)
    requires t.RecFunc?
    ensures r == TypeCheck(t, env)
    decreases t, 0
  {
    var RecFunc(funcName, params, retType, body, rest) := t;
    var funcTy := Func(params, retType);
    var newEnv := ExtendEnv(env, params);
    newEnv := newEnv[funcName := funcTy];
    var bodyType :- TypeCheckImpl(body, newEnv);
    var eq :- TypeEqImpl(retType, bodyType);
    if !eq {
      return Err("wrong return type");
    }
    r := TypeCheckImpl(rest, env[funcName := funcTy]);
  }

  /** The `const` case of `typecheck`. */
  method ConstImpl(t: Term, env: TypeEnv) returns (r: Result<Type, string>)
    requires t.Const?
    ensures r == TypeCheck(t, env)
    decreases t, 0
  {
    var Const(name, init, rest) := t;
    if init.FuncLit? {
      if init.retType.Undefined? {
        return Err("return type is required for function");
      }
      var funcTy := Func(init.params, init.retType);
      var restEnv := env[name := funcTy];
      var restType :- TypeCheckImpl(rest, restEnv);
      var eq :- TypeEqImpl(init.retType, restType);
      if !eq {
        return Err("wrong return type");
      }
      r := TypeCheckImpl(rest, restEnv);
    } else {
      var ty :- TypeCheckImpl(init, env);
      r := TypeCheckImpl(rest, env[name := ty]);
    }
  }

  /** The argument loop of `call`. */
  method CheckArgsImpl(params: seq<Param>, args: seq<Term>, env: TypeEnv) returns (r: Result<(), string>)
    requires |params| == |args|
    ensures r == CheckArgs(params, args, env, 0)
    decreases args, 0
  {
    for i := 0 to |args|
      invariant CheckArgs(params, args, env, 0) == CheckArgs(params, args, env, i)
    {
      var argTy :- TypeCheckImpl(args[i], env);
      var eq :- TypeEqImpl(params[i].ty, argTy);
      if !eq {
        return Err("argument type mismatch");
      }
    }
    return Ok(());
  }

  /** The `map` of `objectNew`, building the property types in order. */
  method TypePropsImpl(props: seq<PropertyTerm>, env: TypeEnv) returns (r: Result<seq<PropertyType>, string>)
    ensures r == TypeProps(props, env, 0)
    decreases props, 0
  {
    var types: seq<PropertyType> := [];
    assert TypeProps(props, env, 0).Ok? ==> [] + TypeProps(props, env, 0).value == TypeProps(props, env, 0).value;
    for i := 0 to |props|
      invariant TypeProps(props, env, 0) == Prepend(types, TypeProps(props, env, i))
    {
      var ty :- TypeCheckImpl(props[i].term, env);
      var prop := PropertyType(props[i].name, ty);
      ghost var rest := TypeProps(props, env, i + 1);
      assert rest.Ok? ==>
        TypeProps(props, env, i) == Ok([prop] + rest.value) &&
        types + ([prop] + rest.value) == (types + [prop]) + rest.value;
      types := types + [prop];
    }
    assert types + [] == types;
    return Ok(types);
  }

  // ---------------------------------------------------------------------
  // Well-formed types

  /** No `undefined` anywhere inside the type. */
  predicate Defined(ty: Type)
    decreases ty
  {
    match ty
    case Undefined => false
    case Boolean => true
    case Number => true
    case Func(params, ret) => (forall i :: 0 <= i < |params| ==> Defined(params[i].ty)) && Defined(ret)
    case Object(props) => forall i :: 0 <= i < |props| ==> Defined(props[i].ty)
  }

  predicate UniqueNames(props: seq<PropertyType>) {
    forall i, j :: 0 <= i < j < |props| ==> props[i].name != props[j].name
  }

  /** Defined, and the property names of every object type inside are
      distinct, so that each name denotes one property. */
  predicate WellFormed(ty: Type)
    decreases ty
  {
    match ty
    case Undefined => false
    case Boolean => true
    case Number => true
    case Func(params, ret) => (forall i :: 0 <= i < |params| ==> WellFormed(params[i].ty)) && WellFormed(ret)
    case Object(props) => UniqueNames(props) && forall i :: 0 <= i < |props| ==> WellFormed(props[i].ty)
  }

  lemma {:induction false} WellFormedIsDefined(ty: Type)
    requires WellFormed(ty)
    ensures Defined(ty)
    decreases ty
  {
    match ty
    case Func(params, ret) =>
      forall i | 0 <= i < |params| ensures Defined(params[i].ty) {
        WellFormedIsDefined(params[i].ty);
      }
      WellFormedIsDefined(ret);
    case Object(props) =>
      forall i | 0 <= i < |props| ensures Defined(props[i].ty) {
        WellFormedIsDefined(props[i].ty);
      }
    case _ =>
  }

  /** With distinct names, looking up a property's own name finds it. */
  lemma FindOwnName(props: seq<PropertyType>, m: nat)
    requires UniqueNames(props) && m < |props|
    ensures FindIndex(props, props[m].name) == m
  {
  }

  /** `props1` has a property named like `prop2`, and the first such one has
      a type that `typeEq` accepts. */
  predicate HasEqualProp(props1: seq<PropertyType>, prop2: PropertyType) {
    var k := FindIndex(props1, prop2.name);
    k >= 0 && TypeEq(props1[k].ty, prop2.ty) == Ok(true)
  }

  /** `props1` has a property named like `prop2`, and the first such one has
      a type that is a subtype of `prop2`'s. */
  predicate HasSubProp(props1: seq<PropertyType>, prop2: PropertyType) {
    var k := FindIndex(props1, prop2.name);
    k >= 0 && Subtype(props1[k].ty, prop2.ty) == Ok(true)
  }

  // ---------------------------------------------------------------------
  // The loops of typeEq and subtype as quantifiers

  /** On types without `undefined`, `typeEq` never throws. */
  lemma {:induction false} TypeEqDefined(ty1: Type, ty2: Type)
    requires Defined(ty1) && Defined(ty2)
    ensures TypeEq(ty1, ty2).Ok?
    decreases ty2, 1
  {
    match ty2
    case Func(params2, ret2) =>
      if ty1.Func? && |ty1.params| == |params2| {
        ParamsEqAll(ty1.params, params2, 0);
        TypeEqDefined(ty1.retType, ret2);
      }
    case Object(props2) =>
      if ty1.Object? {
        PropsEqAll(ty1.props, props2, 0);
      }
    case _ =>
  }

  lemma {:induction false} ParamsEqAll(params1: seq<Param>, params2: seq<Param>, i: nat)
    requires |params1| == |params2| && i <= |params2|
    requires forall j :: 0 <= j < |params1| ==> Defined(params1[j].ty) && Defined(params2[j].ty)
    ensures ParamsEq(params1, params2, i) ==
      Ok(forall j :: i <= j < |params2| ==> TypeEq(params1[j].ty, params2[j].ty) == Ok(true))
    decreases params2, |params2| - i
  {
    if i < |params2| {
      TypeEqDefined(params1[i].ty, params2[i].ty);
      ParamsEqAll(params1, params2, i + 1);
    }
  }

  lemma {:induction false} PropsEqAll(props1: seq<PropertyType>, props2: seq<PropertyType>, i: nat)
    requires i <= |props2|
    requires forall j :: 0 <= j < |props1| ==> Defined(props1[j].ty)
    requires forall j :: 0 <= j < |props2| ==> Defined(props2[j].ty)
    ensures PropsEq(props1, props2, i) == Ok(forall j :: i <= j < |props2| ==> HasEqualProp(props1, props2[j]))
    decreases props2, |props2| - i
  {
    if i < |props2| {
      var k := FindIndex(props1, props2[i].name);
      if k >= 0 {
        TypeEqDefined(props1[k].ty, props2[i].ty);
      }
      PropsEqAll(props1, props2, i + 1);
    }
  }

  /** On types without `undefined`, `subtype` never throws. */
  lemma {:induction false} SubtypeDefined(ty1: Type, ty2: Type)
    requires Defined(ty1) && Defined(ty2)
    ensures Subtype(ty1, ty2).Ok?
    decreases Size(ty1) + Size(ty2), 0, 0
  {
    match ty2
    case Func(params2, ret2) =>
      if ty1.Func? && |ty1.params| == |params2| {
        ParamsSubAll(ty1.params, params2, 0);
        SubtypeDefined(ty1.retType, ret2);
      }
    case Object(props2) =>
      if ty1.Object? {
        PropsSubAll(ty1.props, props2, 0);
      }
    case _ =>
  }

  lemma {:induction false} ParamsSubAll(params1: seq<Param>, params2: seq<Param>, i: nat)
    requires |params1| == |params2| && i <= |params2|
    requires forall j :: 0 <= j < |params1| ==> Defined(params1[j].ty) && Defined(params2[j].ty)
    ensures ParamsSub(params1, params2, i) ==
      Ok(forall j :: i <= j < |params2| ==> Subtype(params2[j].ty, params1[j].ty) == Ok(true))
    decreases ParamsSize(params1) + ParamsSize(params2), 1, |params2| - i
  {
    if i < |params2| {
      ParamSizeBound(params1, i);
      ParamSizeBound(params2, i);
      SubtypeDefined(params2[i].ty, params1[i].ty);
      ParamsSubAll(params1, params2, i + 1);
    }
  }

  lemma {:induction false} PropsSubAll(props1: seq<PropertyType>, props2: seq<PropertyType>, i: nat)
    requires i <= |props2|
    requires forall j :: 0 <= j < |props1| ==> Defined(props1[j].ty)
    requires forall j :: 0 <= j < |props2| ==> Defined(props2[j].ty)
    ensures PropsSub(props1, props2, i) == Ok(forall j :: i <= j < |props2| ==> HasSubProp(props1, props2[j]))
    decreases PropsSize(props1) + PropsSize(props2), 1, |props2| - i
  {
    if i < |props2| {
      var k := FindIndex(props1, props2[i].name);
      if k >= 0 {
        PropSizeBound(props1, k);
        PropSizeBound(props2, i);
        SubtypeDefined(props1[k].ty, props2[i].ty);
      }
      PropsSubAll(props1, props2, i + 1);
    }
  }

  // ---------------------------------------------------------------------
  // typeEq and subtype, case by case

  /** `typeEq` and `subtype` throw whenever the type they dispatch on, or the
      other operand, is `undefined`. */
  lemma UndefinedThrows(ty: Type)
    ensures TypeEq(ty, Undefined) == Err(UndefinedTag) && TypeEq(Undefined, ty) == Err(UndefinedTag)
    ensures Subtype(ty, Undefined) == Err(UndefinedTag) && Subtype(Undefined, ty) == Err(UndefinedTag)
  {
  }

  /** `typeEq` on object types: the same number of properties, and every
      property of `ty2` is found by name in `ty1` with an equal type. */
  lemma ObjectEqRule(props1: seq<PropertyType>, props2: seq<PropertyType>)
    requires Defined(Object(props1)) && Defined(Object(props2))
    ensures TypeEq(Object(props1), Object(props2)) ==
      Ok(|props1| == |props2| && forall j :: 0 <= j < |props2| ==> HasEqualProp(props1, props2[j]))
  {
    if |props1| == |props2| {
      PropsEqAll(props1, props2, 0);
    }
  }

  /** `typeEq` on function types: the same arity, equal parameter types
      position by position (names ignored), and equal return types. */
  lemma FuncEqRule(params1: seq<Param>, ret1: Type, params2: seq<Param>, ret2: Type)
    requires Defined(Func(params1, ret1)) && Defined(Func(params2, ret2))
    ensures TypeEq(Func(params1, ret1), Func(params2, ret2)) ==
      Ok(&& |params1| == |params2|
         && (forall j :: 0 <= j < |params2| ==> TypeEq(params1[j].ty, params2[j].ty) == Ok(true))
         && TypeEq(ret1, ret2) == Ok(true))
  {
    if |params1| == |params2| {
      ParamsEqAll(params1, params2, 0);
      TypeEqDefined(ret1, ret2);
      var v := TypeEq(ret1, ret2).value;
      assert v == (TypeEq(ret1, ret2) == Ok(true));
    }
  }

  /** `subtype` on object types: every property `ty2` requires is found by
      name in `ty1` with a subtype (depth); `ty1` may have more properties
      (width), as no count is compared. */
  lemma ObjectSubRule(props1: seq<PropertyType>, props2: seq<PropertyType>)
    requires Defined(Object(props1)) && Defined(Object(props2))
    ensures Subtype(Object(props1), Object(props2)) ==
      Ok(forall j :: 0 <= j < |props2| ==> HasSubProp(props1, props2[j]))
  {
    PropsSubAll(props1, props2, 0);
  }

  /** `subtype` on function types: the same arity, each parameter type of
      `ty2` a subtype of the one of `ty1` (contravariance), and the return
      type of `ty1` a subtype of the one of `ty2` (covariance). */
  lemma FuncSubRule(params1: seq<Param>, ret1: Type, params2: seq<Param>, ret2: Type)
    requires Defined(Func(params1, ret1)) && Defined(Func(params2, ret2))
    ensures Subtype(Func(params1, ret1), Func(params2, ret2)) ==
      Ok(&& |params1| == |params2|
         && (forall j :: 0 <= j < |params2| ==> Subtype(params2[j].ty, params1[j].ty) == Ok(true))
         && Subtype(ret1, ret2) == Ok(true))
  {
    if |params1| == |params2| {
      ParamsSubAll(params1, params2, 0);
      SubtypeDefined(ret1, ret2);
      var v := Subtype(ret1, ret2).value;
      assert v == (Subtype(ret1, ret2) == Ok(true));
    }
  }

  /** Primitive types are related, by `typeEq` and by `subtype`, only to
      the same primitive. */
  lemma PrimitiveRule(ty: Type)
    requires ty != Undefined
    ensures TypeEq(ty, Boolean) == Ok(ty == Boolean) && TypeEq(ty, Number) == Ok(ty == Number)
    ensures Subtype(ty, Boolean) == Ok(ty == Boolean) && Subtype(ty, Number) == Ok(ty == Number)
    ensures (ty == Boolean || ty == Number) ==> forall other :: other != Undefined && other != ty ==>
      TypeEq(other, ty) == Ok(false) && Subtype(other, ty) == Ok(false)
  {
  }

  // ---------------------------------------------------------------------
  // typeEq is an equivalence on well-formed types

  /** `typeEq` is reflexive on well-formed types. */
  lemma {:induction false} TypeEqReflexive(ty: Type)
    requires WellFormed(ty)
    ensures TypeEq(ty, ty) == Ok(true)
    decreases ty
  {
    WellFormedIsDefined(ty);
    match ty
    case Func(params, ret) =>
      forall j | 0 <= j < |params| ensures TypeEq(params[j].ty, params[j].ty) == Ok(true) {
        TypeEqReflexive(params[j].ty);
      }
      TypeEqReflexive(ret);
      FuncEqRule(params, ret, params, ret);
    case Object(props) =>
      forall j | 0 <= j < |props| ensures HasEqualProp(props, props[j]) {
        FindOwnName(props, j);
        TypeEqReflexive(props[j].ty);
      }
      ObjectEqRule(props, props);
    case _ =>
  }

  /** Without distinct property names reflexivity can fail, for `typeEq` and
      for `subtype`: every lookup finds the first property called "a". */
  lemma NotReflexiveOnDuplicateNames()
    ensures var dup := Object([PropertyType("a", Number), PropertyType("a", Boolean)]);
      TypeEq(dup, dup) == Ok(false) && Subtype(dup, dup) == Ok(false)
  {
    var props := [PropertyType("a", Number), PropertyType("a", Boolean)];
    assert FindIndex(props, "a") == 0;
    ObjectEqRule(props, props);
    assert !HasEqualProp(props, props[1]);
    ObjectSubRule(props, props);
    assert !HasSubProp(props, props[1]);
  }

  /** A repeated name does not always break reflexivity: when the copies
      share one type, the first-match lookup still finds a matching one. */
  lemma ReflexiveDespiteDuplicateNames()
    ensures var dup := Object([PropertyType("a", Number), PropertyType("a", Number)]);
      TypeEq(dup, dup) == Ok(true) && Subtype(dup, dup) == Ok(true)
  {
    var props := [PropertyType("a", Number), PropertyType("a", Number)];
    assert FindIndex(props, "a") == 0;
    ObjectEqRule(props, props);
    assert HasEqualProp(props, props[0]) && HasEqualProp(props, props[1]);
    ObjectSubRule(props, props);
    assert HasSubProp(props, props[0]) && HasSubProp(props, props[1]);
  }

  /** Nor is `typeEq` symmetric there: `{a: number, a: boolean}` is equal to
      `{a: number, a: number}` but not the other way round. */
  lemma NotSymmetricOnDuplicateNames()
    ensures var nb := Object([PropertyType("a", Number), PropertyType("a", Boolean)]);
      var nn := Object([PropertyType("a", Number), PropertyType("a", Number)]);
      TypeEq(nb, nn) == Ok(true) && TypeEq(nn, nb) == Ok(false)
  {
    var nb := [PropertyType("a", Number), PropertyType("a", Boolean)];
    var nn := [PropertyType("a", Number), PropertyType("a", Number)];
    assert FindIndex(nb, "a") == 0 && FindIndex(nn, "a") == 0;
    ObjectEqRule(nb, nn);
    ObjectEqRule(nn, nb);
    assert !HasEqualProp(nn, nb[1]);
  }

  /** With a repeated property name `typeEq` does not imply `subtype`: the
      parameter check of `subtype` runs in the other direction. */
  lemma EqualButNotSubtypeOnDuplicateNames()
    ensures var nb := Object([PropertyType("a", Number), PropertyType("a", Boolean)]);
      var nn := Object([PropertyType("a", Number), PropertyType("a", Number)]);
      && TypeEq(Func([Param("p", nb)], Number), Func([Param("p", nn)], Number)) == Ok(true)
      && Subtype(Func([Param("p", nb)], Number), Func([Param("p", nn)], Number)) == Ok(false)
  {
    var nb := [PropertyType("a", Number), PropertyType("a", Boolean)];
    var nn := [PropertyType("a", Number), PropertyType("a", Number)];
    NotSymmetricOnDuplicateNames();
    FuncEqRule([Param("p", Object(nb))], Number, [Param("p", Object(nn))], Number);
    assert FindIndex(nn, "a") == 0;
    ObjectSubRule(nn, nb);
    assert !HasSubProp(nn, nb[1]);
    FuncSubRule([Param("p", Object(nb))], Number, [Param("p", Object(nn))], Number);
  }

  function Names(props: seq<PropertyType>): set<string> {
    set j | 0 <= j < |props| :: props[j].name
  }

  lemma {:induction false} NamesCount(props: seq<PropertyType>)
    requires UniqueNames(props)
    ensures |Names(props)| == |props|
    decreases |props|
  {
    if |props| > 0 {
      var rest := props[1..];
      assert UniqueNames(rest) by {
        forall i, j | 0 <= i < j < |rest| ensures rest[i].name != rest[j].name {
          assert rest[i] == props[i + 1] && rest[j] == props[j + 1];
        }
      }
      NamesCount(rest);
      assert Names(props) == {props[0].name} + Names(rest) by {
        forall n | n in Names(props) ensures n in {props[0].name} + Names(rest) {
          var j :| 0 <= j < |props| && props[j].name == n;
          if j > 0 {
            assert rest[j - 1] == props[j];
          }
        }
        forall n | n in Names(rest) ensures n in Names(props) {
          var j :| 0 <= j < |rest| && rest[j].name == n;
          assert props[j + 1] == rest[j];
        }
      }
      assert props[0].name !in Names(rest) by {
        forall j | 0 <= j < |rest| ensures rest[j].name != props[0].name {
          assert rest[j] == props[j + 1];
        }
      }
    }
  }

  lemma SubsetOfSameSize<T>(a: set<T>, b: set<T>)
    requires a <= b && |a| == |b|
    ensures a == b
  {
    var rest := b - a;
    assert b == a + rest && a * rest == {};
    assert |b| == |a| + |rest|;
    assert rest == {};
  }

  /** If `typeEq` accepts two well-formed object property lists, every name
      of the first also occurs in the second: the counts are equal and the
      names distinct. */
  lemma SameNames(props1: seq<PropertyType>, props2: seq<PropertyType>)
    requires UniqueNames(props1) && UniqueNames(props2) && |props1| == |props2|
    requires forall j :: 0 <= j < |props2| ==> HasEqualProp(props1, props2[j])
    ensures Names(props1) == Names(props2)
  {
    forall n | n in Names(props2) ensures n in Names(props1) {
      var j :| 0 <= j < |props2| && props2[j].name == n;
      assert HasEqualProp(props1, props2[j]);
      var k := FindIndex(props1, n);
      assert props1[k].name == n;
    }
    NamesCount(props1);
    NamesCount(props2);
    SubsetOfSameSize(Names(props2), Names(props1));
  }

  lemma {:induction false} TypeEqTrueSymmetric(ty1: Type, ty2: Type)
    requires WellFormed(ty1) && WellFormed(ty2) && TypeEq(ty1, ty2) == Ok(true)
    ensures TypeEq(ty2, ty1) == Ok(true)
    decreases ty2
  {
    WellFormedIsDefined(ty1);
    WellFormedIsDefined(ty2);
    match ty2
    case Func(params2, ret2) =>
      var params1, ret1 := ty1.params, ty1.retType;
      FuncEqRule(params1, ret1, params2, ret2);
      forall j | 0 <= j < |params1| ensures TypeEq(params2[j].ty, params1[j].ty) == Ok(true) {
        TypeEqTrueSymmetric(params1[j].ty, params2[j].ty);
      }
      TypeEqTrueSymmetric(ret1, ret2);
      FuncEqRule(params2, ret2, params1, ret1);
    case Object(props2) =>
      var props1 := ty1.props;
      ObjectEqRule(props1, props2);
      SameNames(props1, props2);
      forall m | 0 <= m < |props1| ensures HasEqualProp(props2, props1[m]) {
        var n := props1[m].name;
        assert n in Names(props1);
        var j :| 0 <= j < |props2| && props2[j].name == n;
        var k := FindIndex(props2, n);
        assert HasEqualProp(props1, props2[k]);
        FindOwnName(props1, m);
        TypeEqTrueSymmetric(props1[m].ty, props2[k].ty);
      }
      ObjectEqRule(props2, props1);
    case _ =>
  }

  /** `typeEq` is symmetric on well-formed types, although it dispatches on
      its second operand and looks up the first. */
  lemma TypeEqSymmetric(ty1: Type, ty2: Type)
    requires WellFormed(ty1) && WellFormed(ty2)
    ensures TypeEq(ty1, ty2) == TypeEq(ty2, ty1)
  {
    WellFormedIsDefined(ty1);
    WellFormedIsDefined(ty2);
    TypeEqDefined(ty1, ty2);
    TypeEqDefined(ty2, ty1);
    if TypeEq(ty1, ty2) == Ok(true) {
      TypeEqTrueSymmetric(ty1, ty2);
    }
    if TypeEq(ty2, ty1) == Ok(true) {
      TypeEqTrueSymmetric(ty2, ty1);
    }
    var v1, v2 := TypeEq(ty1, ty2).value, TypeEq(ty2, ty1).value;
    assert v1 == (TypeEq(ty1, ty2) == Ok(true)) && v2 == (TypeEq(ty2, ty1) == Ok(true));
  }

  /** `typeEq` is transitive on types without `undefined`. */
  lemma {:induction false} TypeEqTransitive(ty1: Type, ty2: Type, ty3: Type)
    requires Defined(ty1) && Defined(ty2) && Defined(ty3)
    requires TypeEq(ty1, ty2) == Ok(true) && TypeEq(ty2, ty3) == Ok(true)
    ensures TypeEq(ty1, ty3) == Ok(true)
    decreases ty3
  {
    match ty3
    case Func(params3, ret3) =>
      assert ty2.Func? && ty1.Func?;
      FuncEqRule(ty2.params, ty2.retType, params3, ret3);
      FuncEqRule(ty1.params, ty1.retType, ty2.params, ty2.retType);
      forall j | 0 <= j < |params3| ensures TypeEq(ty1.params[j].ty, params3[j].ty) == Ok(true) {
        TypeEqTransitive(ty1.params[j].ty, ty2.params[j].ty, params3[j].ty);
      }
      TypeEqTransitive(ty1.retType, ty2.retType, ret3);
      FuncEqRule(ty1.params, ty1.retType, params3, ret3);
    case Object(props3) =>
      assert ty2.Object? && ty1.Object?;
      var props1, props2 := ty1.props, ty2.props;
      ObjectEqRule(props2, props3);
      ObjectEqRule(props1, props2);
      forall j | 0 <= j < |props3| ensures HasEqualProp(props1, props3[j]) {
        var k := FindIndex(props2, props3[j].name);
        assert HasEqualProp(props1, props2[k]);
        var m := FindIndex(props1, props2[k].name);
        TypeEqTransitive(props1[m].ty, props2[k].ty, props3[j].ty);
      }
      ObjectEqRule(props1, props3);
    case _ =>
  }

  /** Object equality ignores the order of the properties: a well-formed
      object type equals any rearrangement of its properties. */
  lemma PermutedObjectsEqual(props1: seq<PropertyType>, props2: seq<PropertyType>)
    requires WellFormed(Object(props1)) && |props1| == |props2|
    requires forall j :: 0 <= j < |props2| ==> props2[j] in props1
    ensures TypeEq(Object(props1), Object(props2)) == Ok(true)
  {
    WellFormedIsDefined(Object(props1));
    forall j | 0 <= j < |props2| ensures Defined(props2[j].ty) && HasEqualProp(props1, props2[j]) {
      var m :| 0 <= m < |props1| && props1[m] == props2[j];
      FindOwnName(props1, m);
      TypeEqReflexive(props1[m].ty);
    }
    ObjectEqRule(props1, props2);
  }

  /** With a repeated name the order of properties matters:
      `{a: number, a: boolean}` and `{a: boolean, a: number}` are not equal. */
  lemma OrderMattersOnDuplicateNames()
    ensures var nb := [PropertyType("a", Number)];
      var bn := [PropertyType("a", Boolean)];
      TypeEq(Object(nb + bn), Object(bn + nb)) == Ok(false)
  {
    var nb, bn := [PropertyType("a", Number)], [PropertyType("a", Boolean)];
    assert FindIndex(nb + bn, "a") == 0;
    ObjectEqRule(nb + bn, bn + nb);
    assert !HasEqualProp(nb + bn, (bn + nb)[0]);
  }

  /** In particular, swapping two groups of properties keeps the type equal. */
  lemma ObjectEqOrderInsensitive(props: seq<PropertyType>, more: seq<PropertyType>)
    requires WellFormed(Object(props + more))
    ensures TypeEq(Object(props + more), Object(more + props)) == Ok(true)
  {
    forall j | 0 <= j < |more + props| ensures (more + props)[j] in props + more {
      if j < |more| {
        assert (more + props)[j] == (props + more)[|props| + j];
      } else {
        assert (more + props)[j] == (props + more)[j - |more|];
      }
    }
    PermutedObjectsEqual(props + more, more + props);
  }

  // ---------------------------------------------------------------------
  // subtype is a preorder that contains typeEq

  /** `subtype` is reflexive on well-formed types. */
  lemma {:induction false} SubtypeReflexive(ty: Type)
    requires WellFormed(ty)
    ensures Subtype(ty, ty) == Ok(true)
    decreases ty
  {
    WellFormedIsDefined(ty);
    match ty
    case Func(params, ret) =>
      forall j | 0 <= j < |params| ensures Subtype(params[j].ty, params[j].ty) == Ok(true) {
        SubtypeReflexive(params[j].ty);
      }
      SubtypeReflexive(ret);
      FuncSubRule(params, ret, params, ret);
    case Object(props) =>
      forall j | 0 <= j < |props| ensures HasSubProp(props, props[j]) {
        FindOwnName(props, j);
        SubtypeReflexive(props[j].ty);
      }
      ObjectSubRule(props, props);
    case _ =>
  }

  /** `subtype` is transitive on types without `undefined`. */
  lemma {:induction false} SubtypeTransitive(ty1: Type, ty2: Type, ty3: Type)
    requires Defined(ty1) && Defined(ty2) && Defined(ty3)
    requires Subtype(ty1, ty2) == Ok(true) && Subtype(ty2, ty3) == Ok(true)
    ensures Subtype(ty1, ty3) == Ok(true)
    decreases Size(ty1) + Size(ty2) + Size(ty3)
  {
    match ty3
    case Func(params3, ret3) =>
      assert ty2.Func? && ty1.Func?;
      var params1, params2 := ty1.params, ty2.params;
      FuncSubRule(params2, ty2.retType, params3, ret3);
      FuncSubRule(params1, ty1.retType, params2, ty2.retType);
      forall j | 0 <= j < |params3| ensures Subtype(params3[j].ty, params1[j].ty) == Ok(true) {
        ParamSizeBound(params1, j);
        ParamSizeBound(params2, j);
        ParamSizeBound(params3, j);
        SubtypeTransitive(params3[j].ty, params2[j].ty, params1[j].ty);
      }
      SubtypeTransitive(ty1.retType, ty2.retType, ret3);
      FuncSubRule(params1, ty1.retType, params3, ret3);
    case Object(props3) =>
      assert ty2.Object? && ty1.Object?;
      var props1, props2 := ty1.props, ty2.props;
      ObjectSubRule(props2, props3);
      ObjectSubRule(props1, props2);
      forall j | 0 <= j < |props3| ensures HasSubProp(props1, props3[j]) {
        var k := FindIndex(props2, props3[j].name);
        assert HasSubProp(props1, props2[k]);
        var m := FindIndex(props1, props2[k].name);
        PropSizeBound(props1, m);
        PropSizeBound(props2, k);
        PropSizeBound(props3, j);
        SubtypeTransitive(props1[m].ty, props2[k].ty, props3[j].ty);
      }
      ObjectSubRule(props1, props3);
    case _ =>
  }

  /** Types that `typeEq` accepts are subtypes of each other. */
  lemma {:induction false} TypeEqImpliesSubtype(ty1: Type, ty2: Type)
    requires WellFormed(ty1) && WellFormed(ty2) && TypeEq(ty1, ty2) == Ok(true)
    ensures Subtype(ty1, ty2) == Ok(true)
    decreases Size(ty1) + Size(ty2)
  {
    WellFormedIsDefined(ty1);
    WellFormedIsDefined(ty2);
    match ty2
    case Func(params2, ret2) =>
      var params1, ret1 := ty1.params, ty1.retType;
      FuncEqRule(params1, ret1, params2, ret2);
      forall j | 0 <= j < |params2| ensures Subtype(params2[j].ty, params1[j].ty) == Ok(true) {
        ParamSizeBound(params1, j);
        ParamSizeBound(params2, j);
        TypeEqSymmetric(params1[j].ty, params2[j].ty);
        TypeEqImpliesSubtype(params2[j].ty, params1[j].ty);
      }
      TypeEqImpliesSubtype(ret1, ret2);
      FuncSubRule(params1, ret1, params2, ret2);
    case Object(props2) =>
      var props1 := ty1.props;
      ObjectEqRule(props1, props2);
      forall j | 0 <= j < |props2| ensures HasSubProp(props1, props2[j]) {
        assert HasEqualProp(props1, props2[j]);
        var k := FindIndex(props1, props2[j].name);
        PropSizeBound(props1, k);
        PropSizeBound(props2, j);
        TypeEqImpliesSubtype(props1[k].ty, props2[j].ty);
      }
      ObjectSubRule(props1, props2);
    case _ =>
  }

  /** Width subtyping: an object type with extra properties is a subtype of
      the one without them, but neither equal to it nor a supertype of it. */
  lemma WidthSubtyping(props: seq<PropertyType>, more: seq<PropertyType>)
    requires WellFormed(Object(props + more))
    ensures Subtype(Object(props + more), Object(props)) == Ok(true)
    ensures |more| > 0 ==> TypeEq(Object(props + more), Object(props)) == Ok(false)
    ensures |more| > 0 ==> Subtype(Object(props), Object(props + more)) == Ok(false)
  {
    var all := props + more;
    WellFormedIsDefined(Object(all));
    assert forall j :: 0 <= j < |props| ==> all[j] == props[j];
    forall j | 0 <= j < |props| ensures HasSubProp(all, props[j]) {
      FindOwnName(all, j);
      SubtypeReflexive(props[j].ty);
    }
    ObjectSubRule(all, props);
    if |more| > 0 {
      ObjectSubRule(props, all);
      assert !HasSubProp(props, all[|props|]);
    }
  }

  /** With a repeated name the second half of width subtyping fails: `{a}`
      is then also a subtype of its extension `{a, a}`. */
  lemma WidthFailsOnDuplicateNames()
    ensures var props := [PropertyType("a", Number)];
      Subtype(Object(props), Object(props + props)) == Ok(true)
  {
    var props := [PropertyType("a", Number)];
    assert FindIndex(props, "a") == 0;
    ObjectSubRule(props, props + props);
    assert HasSubProp(props, (props + props)[0]);
    assert HasSubProp(props, (props + props)[1]);
  }

  /** Depth subtyping: property by property subtypes, under the same names,
      make a subtype. */
  lemma DepthSubtyping(props1: seq<PropertyType>, props2: seq<PropertyType>)
    requires |props1| == |props2| && UniqueNames(props1)
    requires Defined(Object(props1)) && Defined(Object(props2))
    requires forall j :: 0 <= j < |props2| ==>
      props1[j].name == props2[j].name && Subtype(props1[j].ty, props2[j].ty) == Ok(true)
    ensures Subtype(Object(props1), Object(props2)) == Ok(true)
  {
    forall j | 0 <= j < |props2| ensures HasSubProp(props1, props2[j]) {
      FindOwnName(props1, j);
    }
    ObjectSubRule(props1, props2);
  }

  /** `{x: number, y: number}` is a subtype of `{x: number}`, and not the
      other way round. */
  lemma WidthExample()
    ensures var xy := Object([PropertyType("x", Number), PropertyType("y", Number)]);
      var x := Object([PropertyType("x", Number)]);
      Subtype(xy, x) == Ok(true) && Subtype(x, xy) == Ok(false)
  {
    var x, y := [PropertyType("x", Number)], [PropertyType("y", Number)];
    assert x + y == [PropertyType("x", Number), PropertyType("y", Number)];
    WidthSubtyping(x, y);
  }

  /** Function subtyping: `(p: {a: number}) => {a: number, b: number}` is a
      subtype of `(p: {a: number, b: number}) => {a: number}`: it asks less
      of its argument and promises more of its result. Swapping them gives no
      subtype, and neither does `(p: {a: number}) => {a: number}` against
      `(p: {a: number, b: number}) => {a: number, b: number}`, whose result
      it does not provide. */
  lemma FunctionVarianceExample()
    ensures var a := Object([PropertyType("a", Number)]);
      var ab := Object([PropertyType("a", Number), PropertyType("b", Number)]);
      && Subtype(Func([Param("p", a)], ab), Func([Param("p", ab)], a)) == Ok(true)
      && Subtype(Func([Param("p", ab)], a), Func([Param("p", a)], ab)) == Ok(false)
      && Subtype(Func([Param("p", a)], a), Func([Param("p", ab)], ab)) == Ok(false)
  {
    var a, b := [PropertyType("a", Number)], [PropertyType("b", Number)];
    assert a + b == [PropertyType("a", Number), PropertyType("b", Number)];
    WidthSubtyping(a, b);
    var ta, tab := Object(a), Object(a + b);
    FuncSubRule([Param("p", ta)], tab, [Param("p", tab)], ta);
    FuncSubRule([Param("p", tab)], ta, [Param("p", ta)], tab);
    FuncSubRule([Param("p", ta)], ta, [Param("p", tab)], tab);
  }

  /** Contravariance in the parameter: `(p: {a: number}) => number` is a
      subtype of `(p: {a: number, b: number}) => number`, and
      `(p: {a: number, b: number}) => number` is not a subtype of
      `(p: {a: number}) => number`. */
  lemma ContravarianceExample()
    ensures var a := Object([PropertyType("a", Number)]);
      var ab := Object([PropertyType("a", Number), PropertyType("b", Number)]);
      && Subtype(Func([Param("p", a)], Number), Func([Param("p", ab)], Number)) == Ok(true)
      && Subtype(Func([Param("p", ab)], Number), Func([Param("p", a)], Number)) == Ok(false)
  {
    var a, b := [PropertyType("a", Number)], [PropertyType("b", Number)];
    assert a + b == [PropertyType("a", Number), PropertyType("b", Number)];
    WidthSubtyping(a, b);
    var ta, tab := Object(a), Object(a + b);
    FuncSubRule([Param("p", ta)], Number, [Param("p", tab)], Number);
    FuncSubRule([Param("p", tab)], Number, [Param("p", ta)], Number);
  }

  // ---------------------------------------------------------------------
  // Environments

  /** A name is bound to the type of the last parameter with that name, and
      keeps its outer binding (or stays unbound) when no parameter has it. */
  lemma {:induction false} BindParamsLookup(env: TypeEnv, params: seq<Param>, name: string)
    ensures LastIndex(params, name) >= 0 ==>
      name in BindParams(env, params) && BindParams(env, params)[name] == params[LastIndex(params, name)].ty
    ensures LastIndex(params, name) == -1 ==>
      (name in BindParams(env, params) <==> name in env) &&
      (name in env ==> BindParams(env, params)[name] == env[name])
    decreases |params|
  {
    if |params| > 0 && params[|params| - 1].name != name {
      var init := params[..|params| - 1];
      BindParamsLookup(env, init, name);
      assert LastIndex(params, name) == LastIndex(init, name);
      if LastIndex(init, name) >= 0 {
        assert init[LastIndex(init, name)] == params[LastIndex(init, name)];
      }
    }
  }

  // ---------------------------------------------------------------------
  // The checker, term by term

  /** `true` and `false` give Boolean, a number literal gives Number. */
  lemma Literals(n: int, env: TypeEnv)
    ensures TypeCheck(True, env) == Ok(Boolean) && TypeCheck(False, env) == Ok(Boolean)
    ensures TypeCheck(NumberLit(n), env) == Ok(Number)
  {
  }

  /** `add` gives Number exactly when both operands give Number, and fails
      with "number expected" on an operand of another type. */
  lemma AddRule(left: Term, right: Term, env: TypeEnv)
    ensures TypeCheck(Add(left, right), env).Ok? <==>
      TypeCheck(left, env) == Ok(Number) && TypeCheck(right, env) == Ok(Number)
    ensures TypeCheck(Add(left, right), env).Ok? ==> TypeCheck(Add(left, right), env).value == Number
    ensures var l := TypeCheck(left, env);
      l.Ok? && l.value != Number && l.value != Undefined ==> TypeCheck(Add(left, right), env) == Err("number expected")
    ensures var r := TypeCheck(right, env);
      TypeCheck(left, env) == Ok(Number) && r.Ok? && r.value != Number && r.value != Undefined ==>
        TypeCheck(Add(left, right), env) == Err("number expected")
    ensures TypeCheck(left, env) == Ok(Undefined) ==> TypeCheck(Add(left, right), env) == Err(UndefinedTag)
    ensures TypeCheck(left, env) == Ok(Number) && TypeCheck(right, env) == Ok(Undefined) ==>
      TypeCheck(Add(left, right), env) == Err(UndefinedTag)
  {
  }

  /** A variable gives its bound type, and fails when it is unbound. */
  lemma VarRule(name: string, env: TypeEnv)
    ensures TypeCheck(Var(name), env).Ok? <==> name in env && env[name] != Undefined
    ensures TypeCheck(Var(name), env).Ok? ==> TypeCheck(Var(name), env).value == env[name]
    ensures TypeCheck(Var(name), env).Err? ==> TypeCheck(Var(name), env) == Err("undefined variable: " + name)
  {
  }

  /** `if` needs a Boolean condition and branch types equal under `typeEq`,
      and gives the then-branch type. */
  lemma IfRule(cond: Term, thn: Term, els: Term, env: TypeEnv)
    ensures var r, c := TypeCheck(If(cond, thn, els), env), TypeCheck(cond, env);
      var th, el := TypeCheck(thn, env), TypeCheck(els, env);
      r.Ok? <==> c == Ok(Boolean) && th.Ok? && el.Ok? && TypeEq(th.value, el.value) == Ok(true)
    ensures var r := TypeCheck(If(cond, thn, els), env);
      r.Ok? ==> r.value == TypeCheck(thn, env).value
  {
    var r := TypeCheck(If(cond, thn, els), env);
    var c, th, el := TypeCheck(cond, env), TypeCheck(thn, env), TypeCheck(els, env);
    if c == Ok(Boolean) && th.Ok? && el.Ok? {
      var eq := TypeEq(th.value, el.value);
      assert r == if eq.Err? then Err(eq.error) else if eq.value then Ok(th.value)
        else Err("then and else must have the same type");
    } else {
      assert r.Err?;
    }
  }

  /** `if` reports a defined non-Boolean condition, and branches whose types
      differ under `typeEq`. */
  lemma IfErrors(cond: Term, thn: Term, els: Term, env: TypeEnv)
    ensures var r, c := TypeCheck(If(cond, thn, els), env), TypeCheck(cond, env);
      c.Ok? && c.value != Boolean && c.value != Undefined ==> r == Err("boolean expected")
    ensures var r, c := TypeCheck(If(cond, thn, els), env), TypeCheck(cond, env);
      var th, el := TypeCheck(thn, env), TypeCheck(els, env);
      (c == Ok(Boolean) && th.Ok? && el.Ok? && TypeEq(th.value, el.value) == Ok(false)) ==>
        r == Err("then and else must have the same type")
  {
  }

  /** A function literal checks its body with the parameters bound over the
      environment; it fails only when a declared return type is not equal to
      the body's type. Its type carries the DECLARED return type, which is
      `Undefined` when none was declared, whatever the body's type. */
  lemma FuncRule(params: seq<Param>, retType: Type, body: Term, env: TypeEnv)
    ensures var b := TypeCheck(body, BindParams(env, params));
      TypeCheck(FuncLit(params, retType, body), env).Ok? <==>
        b.Ok? && (retType == Undefined || TypeEq(b.value, retType) == Ok(true))
    ensures TypeCheck(FuncLit(params, retType, body), env).Ok? ==>
      TypeCheck(FuncLit(params, retType, body), env).value == Func(params, retType)
    ensures var b := TypeCheck(body, BindParams(env, params));
      retType != Undefined && b.Ok? && TypeEq(b.value, retType) == Ok(false) ==>
        TypeCheck(FuncLit(params, retType, body), env) == Err("return type mismatch")
  {
  }

  /** A function without a declared return type gets type `(x) => undefined`;
      calling it gives `undefined`, and adding to that result throws. */
  lemma UnannotatedFunctionReturnsUndefined(env: TypeEnv)
    ensures var f := FuncLit([Param("x", Number)], Undefined, Var("x"));
      && TypeCheck(f, env) == Ok(Func([Param("x", Number)], Undefined))
      && TypeCheck(Call(f, [NumberLit(1)]), env) == Ok(Undefined)
      && TypeCheck(Add(Call(f, [NumberLit(1)]), NumberLit(1)), env) == Err(UndefinedTag)
  {
    var params := [Param("x", Number)];
    assert BindParams(env, params) == BindParams(env, [])["x" := Number];
  }

  /** A recursive function's body is checked with the parameters bound and
      the function's own name bound to its declared type; the body's type
      must equal the declared return type, and `rest` is then checked with
      only the function's name added to the outer environment. */
  lemma RecFuncRule(funcName: string, params: seq<Param>, retType: Type, body: Term, rest: Term, env: TypeEnv)
    ensures var funcTy := Func(params, retType);
      var b := TypeCheck(body, BindParams(env, params)[funcName := funcTy]);
      TypeCheck(RecFunc(funcName, params, retType, body, rest), env).Ok? <==>
        b.Ok? && TypeEq(retType, b.value) == Ok(true) && TypeCheck(rest, env[funcName := funcTy]).Ok?
    ensures var r := TypeCheck(RecFunc(funcName, params, retType, body, rest), env);
      r.Ok? ==> r == TypeCheck(rest, env[funcName := Func(params, retType)])
    ensures var funcTy := Func(params, retType);
      var b := TypeCheck(body, BindParams(env, params)[funcName := funcTy]);
      b.Ok? && TypeEq(retType, b.value) == Ok(false) ==>
        TypeCheck(RecFunc(funcName, params, retType, body, rest), env) == Err("wrong return type")
  {
  }

  /** The parameters of a recursive function are not visible in `rest`: a
      name that is neither bound outside nor the function's own name stays
      unbound there, even when a parameter carries it. When the body checks
      against the declared return type, the failure is exactly the unbound
      name. */
  lemma RecFuncParamsDoNotLeak(funcName: string, params: seq<Param>, retType: Type, body: Term, x: string, env: TypeEnv)
    requires x !in env && x != funcName
    ensures TypeCheck(RecFunc(funcName, params, retType, body, Var(x)), env).Err?
    ensures var b := TypeCheck(body, BindParams(env, params)[funcName := Func(params, retType)]);
      (b.Ok? && TypeEq(retType, b.value) == Ok(true)) ==>
        TypeCheck(RecFunc(funcName, params, retType, body, Var(x)), env) == Err("undefined variable: " + x)
  {
    var funcTy := Func(params, retType);
    assert TypeCheck(Var(x), env[funcName := funcTy]) == Err("undefined variable: " + x);
  }

  /** A recursive `sum(n: number): number` whose body calls itself is
      accepted, and a call of it in `rest` gives Number. */
  lemma RecursiveFunctionExample(env: TypeEnv)
    ensures var body := Add(Var("n"), Call(Var("sum"), [Var("n")]));
      TypeCheck(RecFunc("sum", [Param("n", Number)], Number, body, Call(Var("sum"), [NumberLit(1)])), env)
        == Ok(Number)
  {
    var params := [Param("n", Number)];
    var funcTy := Func(params, Number);
    var body := Add(Var("n"), Call(Var("sum"), [Var("n")]));
    var bodyEnv := BindParams(env, params)["sum" := funcTy];
    assert bodyEnv["n"] == Number by {
      assert BindParams(env, params) == BindParams(env, [])["n" := Number];
    }
    assert TypeCheck(body, bodyEnv) == Ok(Number) by {
      assert TypeCheck(Var("sum"), bodyEnv) == Ok(funcTy);
      assert CheckArgs(params, [Var("n")], bodyEnv, 0) == Ok(());
      assert TypeCheck(Call(Var("sum"), [Var("n")]), bodyEnv) == Ok(Number);
    }
    var restEnv := env["sum" := funcTy];
    assert TypeCheck(Call(Var("sum"), [NumberLit(1)]), restEnv) == Ok(Number) by {
      assert TypeCheck(Var("sum"), restEnv) == Ok(funcTy);
      assert CheckArgs(params, [NumberLit(1)], restEnv, 0) == Ok(());
    }
    RecFuncRule("sum", params, Number, body, Call(Var("sum"), [NumberLit(1)]), env);
  }

  /** The argument loop succeeds exactly when every argument type-checks and
      equals its parameter type under `typeEq`. */
  lemma {:induction false} CheckArgsAll(params: seq<Param>, args: seq<Term>, env: TypeEnv, i: nat)
    requires |params| == |args| && i <= |args|
    ensures CheckArgs(params, args, env, i).Ok? <==>
      forall j :: i <= j < |args| ==>
        TypeCheck(args[j], env).Ok? && TypeEq(params[j].ty, TypeCheck(args[j], env).value) == Ok(true)
    ensures ((forall j :: i <= j < |args| ==>
        TypeCheck(args[j], env).Ok? && TypeEq(params[j].ty, TypeCheck(args[j], env).value).Ok?) &&
      CheckArgs(params, args, env, i).Err?) ==>
        CheckArgs(params, args, env, i) == Err("argument type mismatch")
    decreases |args| - i
  {
    if i < |args| {
      CheckArgsAll(params, args, env, i + 1);
    }
  }

  /** `call` succeeds exactly when the callee is a function of the right
      arity whose parameter types are equal to the argument types, and then
      gives the callee's declared return type. */
  lemma CallRule(func: Term, args: seq<Term>, env: TypeEnv)
    ensures var f := TypeCheck(func, env);
      TypeCheck(Call(func, args), env).Ok? <==>
        && f.Ok? && f.value.Func? && |f.value.params| == |args|
        && forall j :: 0 <= j < |args| ==>
             TypeCheck(args[j], env).Ok? && TypeEq(f.value.params[j].ty, TypeCheck(args[j], env).value) == Ok(true)
    ensures var r := TypeCheck(Call(func, args), env);
      r.Ok? ==> r.value == TypeCheck(func, env).value.retType
  {
    var f := TypeCheck(func, env);
    if f.Ok? && f.value.Func? && |f.value.params| == |args| {
      CheckArgsAll(f.value.params, args, env, 0);
    }
  }

  /** `call` throws on an undefined callee type, and fails when the callee is
      not a function, when the arity differs, or when an argument is not
      equal to its positional parameter type. */
  lemma CallErrors(func: Term, args: seq<Term>, env: TypeEnv)
    ensures TypeCheck(func, env) == Ok(Undefined) ==> TypeCheck(Call(func, args), env) == Err(UndefinedTag)
    ensures var f := TypeCheck(func, env);
      f.Ok? && !f.value.Func? && !f.value.Undefined? ==> TypeCheck(Call(func, args), env) == Err("function expected")
    ensures var f := TypeCheck(func, env);
      f.Ok? && f.value.Func? && |f.value.params| != |args| ==>
        TypeCheck(Call(func, args), env) == Err("wrong number of arguments")
    ensures var f := TypeCheck(func, env);
      && f.Ok? && f.value.Func? && |f.value.params| == |args|
      && (forall j :: 0 <= j < |args| ==>
            TypeCheck(args[j], env).Ok? && TypeEq(f.value.params[j].ty, TypeCheck(args[j], env).value).Ok?)
      && (exists j :: 0 <= j < |args| && TypeEq(f.value.params[j].ty, TypeCheck(args[j], env).value) == Ok(false)) ==>
        TypeCheck(Call(func, args), env) == Err("argument type mismatch")
  {
    var f, r := TypeCheck(func, env), TypeCheck(Call(func, args), env);
    if f.Ok? && f.value.Func? && |f.value.params| == |args| {
      var c := CheckArgs(f.value.params, args, env, 0);
      assert r == if c.Ok? then Ok(f.value.retType) else Err(c.error);
      CheckArgsAll(f.value.params, args, env, 0);
    } else if f.Ok? && f.value.Undefined? {
      assert r == Err(UndefinedTag);
    } else if f.Ok? && !f.value.Func? {
      assert r == Err("function expected");
    }
  }


  /** `seq` needs its body to type-check, discards that type, and gives the
      type of `rest`. */
  lemma SeqRule(body: Term, rest: Term, env: TypeEnv)
    ensures TypeCheck(Seq(body, rest), env).Ok? <==> TypeCheck(body, env).Ok? && TypeCheck(rest, env).Ok?
    ensures TypeCheck(Seq(body, rest), env).Ok? ==> TypeCheck(Seq(body, rest), env) == TypeCheck(rest, env)
  {
  }

  /** `const` with an initializer that is not a function literal binds the
      initializer's type for `rest`. */
  lemma ConstRule(name: string, init: Term, rest: Term, env: TypeEnv)
    requires !init.FuncLit?
    ensures TypeCheck(Const(name, init, rest), env).Ok? <==>
      TypeCheck(init, env).Ok? && TypeCheck(rest, env[name := TypeCheck(init, env).value]).Ok?
    ensures var r := TypeCheck(Const(name, init, rest), env);
      r.Ok? ==> r == TypeCheck(rest, env[name := TypeCheck(init, env).value])
  {
  }

  /** `const` bound to a function literal needs a declared return type, and
      then requires the type of `rest`, under the function's binding, to
      equal that declared return type. */
  lemma ConstFuncRule(name: string, params: seq<Param>, retType: Type, body: Term, rest: Term, env: TypeEnv)
    ensures retType == Undefined ==>
      TypeCheck(Const(name, FuncLit(params, retType, body), rest), env) == Err("return type is required for function")
    ensures var r := TypeCheck(Const(name, FuncLit(params, retType, body), rest), env);
      var rt := TypeCheck(rest, env[name := Func(params, retType)]);
      retType != Undefined ==> (r.Ok? <==> rt.Ok? && TypeEq(retType, rt.value) == Ok(true))
    ensures var r := TypeCheck(Const(name, FuncLit(params, retType, body), rest), env);
      r.Ok? ==> r == TypeCheck(rest, env[name := Func(params, retType)])
    ensures var r := TypeCheck(Const(name, FuncLit(params, retType, body), rest), env);
      var rt := TypeCheck(rest, env[name := Func(params, retType)]);
      retType != Undefined && rt.Ok? && TypeEq(retType, rt.value) == Ok(false) ==> r == Err("wrong return type")
  {
  }

  /** `const` bound to a function literal never looks at the function's
      body: two literals that differ only in their bodies give the same
      result. */
  lemma ConstIgnoresFunctionBody(name: string, params: seq<Param>, retType: Type, body1: Term, body2: Term,
                                 rest: Term, env: TypeEnv)
    ensures TypeCheck(Const(name, FuncLit(params, retType, body1), rest), env) ==
      TypeCheck(Const(name, FuncLit(params, retType, body2), rest), env)
  {
  }

  /** A function whose body `true + true` fails on its own is accepted when
      bound by `const`: `const f = (): number => true + true; f()`. */
  lemma ConstAcceptsIllTypedBody(env: TypeEnv)
    ensures TypeCheck(FuncLit([], Number, Add(True, True)), env) == Err("number expected")
    ensures TypeCheck(Const("f", FuncLit([], Number, Add(True, True)), Call(Var("f"), [])), env) == Ok(Number)
  {
    assert TypeCheck(FuncLit([], Number, Add(True, True)), env) == Err("number expected") by {
      assert BindParams(env, []) == env;
    }
    var inner := env["f" := Func([], Number)];
    assert TypeCheck(Call(Var("f"), []), inner) == Ok(Number) by {
      assert TypeCheck(Var("f"), inner) == Ok(Func([], Number));
      assert CheckArgs([], [], inner, 0) == Ok(());
    }
    ConstFuncRule("f", [], Number, Add(True, True), Call(Var("f"), []), env);
  }

  /** The `map` over property terms succeeds exactly when every term
      type-checks, and then keeps each name, in order, with its term's type. */
  lemma {:induction false} TypePropsAll(props: seq<PropertyTerm>, env: TypeEnv, i: nat)
    requires i <= |props|
    ensures TypeProps(props, env, i).Ok? <==> forall j :: i <= j < |props| ==> TypeCheck(props[j].term, env).Ok?
    ensures var r := TypeProps(props, env, i);
      r.Ok? ==> (|r.value| == |props| - i &&
        forall j :: i <= j < |props| ==>
          r.value[j - i] == PropertyType(props[j].name, TypeCheck(props[j].term, env).value))
    decreases |props| - i
  {
    if i < |props| {
      TypePropsAll(props, env, i + 1);
    }
  }

  /** `objectNew` gives an object type with one property per term, in the
      same order and under the same names, duplicates included. */
  lemma ObjectNewRule(props: seq<PropertyTerm>, env: TypeEnv)
    ensures TypeCheck(ObjectNew(props), env).Ok? <==> forall j :: 0 <= j < |props| ==> TypeCheck(props[j].term, env).Ok?
    ensures var r := TypeCheck(ObjectNew(props), env);
      r.Ok? ==> (r.value.Object? && |r.value.props| == |props| &&
        forall j :: 0 <= j < |props| ==>
          r.value.props[j] == PropertyType(props[j].name, TypeCheck(props[j].term, env).value))
  {
    TypePropsAll(props, env, 0);
  }

  /** Duplicate property names are kept: `{a: 1, a: true}` has both. */
  lemma ObjectNewKeepsDuplicates(env: TypeEnv)
    ensures TypeCheck(ObjectNew([PropertyTerm("a", NumberLit(1)), PropertyTerm("a", True)]), env) ==
      Ok(Object([PropertyType("a", Number), PropertyType("a", Boolean)]))
  {
    var props := [PropertyTerm("a", NumberLit(1)), PropertyTerm("a", True)];
    assert TypeCheck(props[0].term, env) == Ok(Number) && TypeCheck(props[1].term, env) == Ok(Boolean);
    ObjectNewRule(props, env);
    var r := TypeCheck(ObjectNew(props), env);
    assert r.value.props == [PropertyType("a", Number), PropertyType("a", Boolean)];
  }

  /** `objectGet` throws on an undefined object type, fails on a non-object
      or a missing name, and otherwise gives the type of the FIRST property
      with that name. */
  lemma ObjectGetRule(obj: Term, propName: string, env: TypeEnv)
    ensures TypeCheck(obj, env) == Ok(Undefined) ==> TypeCheck(ObjectGet(obj, propName), env) == Err(UndefinedTag)
    ensures var o := TypeCheck(obj, env);
      o.Ok? && !o.value.Object? && !o.value.Undefined? ==>
        TypeCheck(ObjectGet(obj, propName), env) == Err("object type expected")
    ensures var o := TypeCheck(obj, env);
      TypeCheck(ObjectGet(obj, propName), env).Ok? <==>
        o.Ok? && o.value.Object? && exists j :: 0 <= j < |o.value.props| && o.value.props[j].name == propName
    ensures var o := TypeCheck(obj, env);
      o.Ok? && o.value.Object? && (forall j :: 0 <= j < |o.value.props| ==> o.value.props[j].name != propName) ==>
        TypeCheck(ObjectGet(obj, propName), env) == Err("unknown property name: ${t.propName}")
    ensures var o, r := TypeCheck(obj, env), TypeCheck(ObjectGet(obj, propName), env);
      r.Ok? ==> exists k :: (0 <= k < |o.value.props| && o.value.props[k].name == propName &&
        r.value == o.value.props[k].ty && forall j :: 0 <= j < k ==> o.value.props[j].name != propName)
  {
    var o, r := TypeCheck(obj, env), TypeCheck(ObjectGet(obj, propName), env);
    if o.Err? {
      assert r == Err(o.error);
    } else if o.value.Undefined? {
      assert r == Err(UndefinedTag);
    } else if !o.value.Object? {
      assert r == Err("object type expected");
    } else {
      var k := FindIndex(o.value.props, propName);
      if k < 0 {
        assert r == Err("unknown property name: ${t.propName}");
      } else {
        assert r == Ok(o.value.props[k].ty);
        assert o.value.props[k].name == propName;
      }
    }
  }

  /** `{x: 1, y: true}` has type `{x: number, y: boolean}`. */
  lemma ObjectLiteralExample(env: TypeEnv)
    ensures TypeCheck(ObjectNew([PropertyTerm("x", NumberLit(1)), PropertyTerm("y", True)]), env) ==
      Ok(Object([PropertyType("x", Number), PropertyType("y", Boolean)]))
  {
    var props := [PropertyTerm("x", NumberLit(1)), PropertyTerm("y", True)];
    assert TypeCheck(props[0].term, env) == Ok(Number) && TypeCheck(props[1].term, env) == Ok(Boolean);
    ObjectNewRule(props, env);
    assert TypeCheck(ObjectNew(props), env).value.props == [PropertyType("x", Number), PropertyType("y", Boolean)];
  }

  /** `{x: 1, y: true}.y` gives Boolean; `.z` is an unknown property. */
  lemma ObjectGetExample(env: TypeEnv)
    ensures var o := ObjectNew([PropertyTerm("x", NumberLit(1)), PropertyTerm("y", True)]);
      && TypeCheck(ObjectGet(o, "y"), env) == Ok(Boolean)
      && TypeCheck(ObjectGet(o, "z"), env) == Err("unknown property name: ${t.propName}")
  {
    ObjectLiteralExample(env);
    var ps := [PropertyType("x", Number), PropertyType("y", Boolean)];
    assert FindIndex(ps, "y") == 1;
    assert FindIndex(ps, "z") == -1;
  }

  /** Literals never get a type of the other primitive; function literals,
      object literals and `add` never get a type of another kind. */
  lemma PrimitiveSoundness(t: Term, env: TypeEnv)
    ensures TypeCheck(t, env) == Ok(Boolean) ==> !(t.NumberLit? || t.Add? || t.FuncLit? || t.ObjectNew?)
    ensures TypeCheck(t, env) == Ok(Number) ==> !(t.True? || t.False? || t.FuncLit? || t.ObjectNew?)
    ensures TypeCheck(t, env).Ok? && t.FuncLit? ==> TypeCheck(t, env).value.Func?
    ensures TypeCheck(t, env).Ok? && t.ObjectNew? ==> TypeCheck(t, env).value.Object?
  {
  }
}
