/** The function-only draft of the checker (src/basic.ts): literals, `if`,
    `add`, variables, functions whose return type is inferred, calls and
    sequencing, against a type environment.

    The draft's `typecheck` and `typeEq` are given twice: as functions that
    state what they compute (`TypeCheck`, `TypeEq`), and as methods that run
    the draft's loops and early exits (`TypeCheckImpl`, `TypeEqImpl`,
    `ExtendEnv`), each proved to return exactly what its function states. */
module Basic {
  import opened Results

  datatype Type =
    | Boolean
    | Number
    | Func(params: seq<Param>, retType: Type)

  datatype Param = Param(name: string, ty: Type)

  datatype Term =
    | True
    | False
    | If(cond: Term, thn: Term, els: Term)
    | NumberLit(n: int)
    | Add(left: Term, right: Term)
    | Var(name: string)
    | FuncLit(params: seq<Param>, body: Term)
    | Call(func: Term, args: seq<Term>)
    | Seq(body: Term, rest: Term)
    | Const(name: string, init: Term, rest: Term)

  type TypeEnv = map<string, Type>

  // ---------------------------------------------------------------------
  // Type equality

  /** `typeEq(ty1, ty2)`, dispatching on `ty2`: primitives by tag, functions
      by arity, positional parameter types (names ignored) and return type. */
  function TypeEq(ty1: Type, ty2: Type): bool
    decreases ty2
  {
    match ty2
    case Boolean => ty1.Boolean?
    case Number => ty1.Number?
    case Func(params2, ret2) =>
      && ty1.Func?
      && |ty1.params| == |params2|
      && (forall i :: 0 <= i < |params2| ==> TypeEq(ty1.params[i].ty, params2[i].ty))
      && TypeEq(ty1.retType, ret2)
  }

  /** A type with its parameter names forgotten: the independent reference
      for what `typeEq` compares. */
  datatype Shape = BooleanShape | NumberShape | FuncShape(params: seq<Shape>, ret: Shape)

  function Erase(ty: Type): Shape
    decreases ty
  {
    match ty
    case Boolean => BooleanShape
    case Number => NumberShape
    case Func(params, ret) =>
      FuncShape(seq(|params|, i requires 0 <= i < |params| => Erase(params[i].ty)), Erase(ret))
  }

  /** `typeEq` is exactly equality of shapes: the same tags, the same arity
      and the same types in every position, parameter names aside. */
  lemma {:induction false} TypeEqIsShapeEquality(ty1: Type, ty2: Type)
    ensures TypeEq(ty1, ty2) <==> Erase(ty1) == Erase(ty2)
    decreases ty2
  {
    match ty2
    case Boolean =>
    case Number =>
    case Func(params2, ret2) =>
      if ty1.Func? {
        TypeEqIsShapeEquality(ty1.retType, ret2);
        if |ty1.params| == |params2| {
          forall i | 0 <= i < |params2|
            ensures TypeEq(ty1.params[i].ty, params2[i].ty) <==> Erase(ty1.params[i].ty) == Erase(params2[i].ty)
          {
            TypeEqIsShapeEquality(ty1.params[i].ty, params2[i].ty);
          }
          if Erase(ty1) == Erase(ty2) {
            forall i | 0 <= i < |params2|
              ensures Erase(ty1.params[i].ty) == Erase(params2[i].ty)
            {
              assert Erase(ty1).params[i] == Erase(ty2).params[i];
            }
          }
        } else {
          assert |Erase(ty1).params| != |Erase(ty2).params|;
        }
      }
  }

  /** `typeEq` is reflexive. */
  lemma {:induction false} TypeEqReflexive(ty: Type)
    ensures TypeEq(ty, ty)
  {
    TypeEqIsShapeEquality(ty, ty);
  }

  /** `typeEq` is symmetric, although it dispatches on its second operand. */
  lemma {:induction false} TypeEqSymmetric(ty1: Type, ty2: Type)
    ensures TypeEq(ty1, ty2) == TypeEq(ty2, ty1)
  {
    TypeEqIsShapeEquality(ty1, ty2);
    TypeEqIsShapeEquality(ty2, ty1);
  }

  /** `typeEq` is transitive. */
  lemma {:induction false} TypeEqTransitive(ty1: Type, ty2: Type, ty3: Type)
    requires TypeEq(ty1, ty2) && TypeEq(ty2, ty3)
    ensures TypeEq(ty1, ty3)
  {
    TypeEqIsShapeEquality(ty1, ty2);
    TypeEqIsShapeEquality(ty2, ty3);
    TypeEqIsShapeEquality(ty1, ty3);
  }

  /** Renaming the parameters of a function type keeps it equal to the
      original. */
  lemma {:induction false} ParamNamesIgnored(params: seq<Param>, names: seq<string>, ret: Type)
    requires |names| == |params|
    ensures TypeEq(Func(seq(|params|, i requires 0 <= i < |params| => Param(names[i], params[i].ty)), ret), Func(params, ret))
  {
    var renamed := seq(|params|, i requires 0 <= i < |params| => Param(names[i], params[i].ty));
    forall i | 0 <= i < |params|
      ensures TypeEq(renamed[i].ty, params[i].ty)
    {
      TypeEqReflexive(params[i].ty);
    }
    TypeEqReflexive(ret);
  }

  /** The draft's `typeEq`, with its parameter loop and early `return false`. */
  method TypeEqImpl(ty1: Type, ty2: Type) returns (r: bool)
    ensures r == TypeEq(ty1, ty2)
    decreases ty2
  {
    match ty2 {
      case Boolean =>
        return ty1.Boolean?;
      case Number =>
        return ty1.Number?;
      case Func(params2, ret2) =>
        if !ty1.Func? {
          return false;
        }
        if |ty1.params| != |params2| {
          return false;
        }
        var i := 0;
        while i < |ty1.params|
          invariant 0 <= i <= |ty1.params|
          invariant forall j :: 0 <= j < i ==> TypeEq(ty1.params[j].ty, params2[j].ty)
        {
          var eq := TypeEqImpl(ty1.params[i].ty, params2[i].ty);
          if !eq {
            return false;
          }
          i := i + 1;
        }
        r := TypeEqImpl(ty1.retType, ret2);
    }
  }

  // ---------------------------------------------------------------------
  // Environments

  /** The environment copied and then assigned each parameter in order, so a
      later parameter of the same name overwrites an earlier one. */
  function BindParams(env: TypeEnv, params: seq<Param>): TypeEnv
    decreases |params|
  {
    if |params| == 0 then env
    else
      var last := params[|params| - 1];
      BindParams(env, params[..|params| - 1])[last.name := last.ty]
  }

  /** The position of the last parameter called `name`, or -1 if there is
      none. */
  function LastIndex(params: seq<Param>, name: string): (k: int)
    ensures -1 <= k < |params|
    ensures k >= 0 ==> params[k].name == name
    ensures forall j :: k < j < |params| ==> params[j].name != name
    decreases |params|
  {
    if |params| == 0 then -1
    else if params[|params| - 1].name == name then |params| - 1
    else
      var k := LastIndex(params[..|params| - 1], name);
      assert forall j :: k < j < |params| - 1 ==> params[..|params| - 1][j] == params[j];
      k
  }

  /** A name is bound to the type of the last parameter with that name, and
      keeps its outer binding (or stays unbound) when no parameter has it. */
  lemma {:induction false} BindParamsLookup(env: TypeEnv, params: seq<Param>, name: string)
    ensures LastIndex(params, name) >= 0 ==>
      name in BindParams(env, params) && BindParams(env, params)[name] == params[LastIndex(params, name)].ty
    ensures LastIndex(params, name) == -1 ==>
      (name in BindParams(env, params) <==> name in env) &&
      (name in env ==> BindParams(env, params)[name] == env[name])
    decreases |params|
  {
    if |params| > 0 && params[|params| - 1].name != name {
      var init := params[..|params| - 1];
      BindParamsLookup(env, init, name);
      assert LastIndex(params, name) == LastIndex(init, name);
      if LastIndex(init, name) >= 0 {
        assert init[LastIndex(init, name)] == params[LastIndex(init, name)];
      }
    }
  }

  /** The draft's `{ ...tyEnv }` followed by its assignment loop. */
  method ExtendEnv(env: TypeEnv, params: seq<Param>) returns (newEnv: TypeEnv)
    ensures newEnv == BindParams(env, params)
  {
    newEnv := env;
    var i := 0;
    while i < |params|
      invariant 0 <= i <= |params|
      invariant newEnv == BindParams(env, params[..i])
    {
      assert params[..i + 1][..i] == params[..i];
      newEnv := newEnv[params[i].name := params[i].ty];
      i := i + 1;
    }
    assert params[..|params|] == params;
  }

  // ---------------------------------------------------------------------
  // The checker

  /** `typecheck(t, tyEnv)`. */
  function TypeCheck(t: Term, env: TypeEnv): Result<Type, string>
    decreases t
  {
    match t
    case True => Ok(Boolean)
    case False => Ok(Boolean)
    case If(cond, thn, els) =>
      var condType :- TypeCheck(cond, env);
      if !condType.Boolean? then Err("boolean expected")
      else
        var thnType :- TypeCheck(thn, env);
        var elsType :- TypeCheck(els, env);
        if !TypeEq(thnType, elsType) then Err("then and else must have the same type")
        else Ok(thnType)
    case NumberLit(_) => Ok(Number)
    case Add(left, right) =>
      var leftType :- TypeCheck(left, env);
      if !leftType.Number? then Err("number expected")
      else
        var rightType :- TypeCheck(right, env);
        if !rightType.Number? then Err("number expected")
        else Ok(Number)
    case Var(name) =>
      if name !in env then Err("undefined variable: " + name) else Ok(env[name])
    case FuncLit(params, body) =>
      var retType :- TypeCheck(body, BindParams(env, params));
      Ok(Func(params, retType))
    case Call(func, args) =>
      var funcTy :- TypeCheck(func, env);
      if !funcTy.Func? then Err("function expected")
      else if |funcTy.params| != |args| then Err("wrong number of arguments")
      else
        var _ :- CheckArgs(funcTy.params, args, env, 0);
        Ok(funcTy.retType)
    case Seq(body, rest) =>
      var _ :- TypeCheck(body, env);
      TypeCheck(rest, env)
    case Const(_, _, _) =>
      // `const` is part of the term language but has no `case`.
      Err("not implemented yet")
  }

  /** The argument loop of `call` from position `i` on: each argument is
      checked in turn and compared with its parameter, stopping at the first
      failure. */
  function CheckArgs(params: seq<Param>, args: seq<Term>, env: TypeEnv, i: nat): Result<(), string>
    requires |params| == |args| && i <= |args|
    decreases args, |args| - i
  {
    if i == |args| then Ok(())
    else
      var argTy :- TypeCheck(args[i], env);
      if !TypeEq(params[i].ty, argTy) then Err("argument type mismatch")
      else CheckArgs(params, args, env, i + 1)
  }

  /** The draft's `typecheck`, with its loops and early exits. */
  method TypeCheckImpl(t: Term, env: TypeEnv) returns (r: Result<Type, string>)
    ensures r == TypeCheck(t, env)
    decreases t, 1
  {
    match t {
      case True =>
        return Ok(Boolean);
      case False =>
        return Ok(Boolean);
      case If(cond, thn, els) =>
        var condType :- TypeCheckImpl(cond, env);
        if !condType.Boolean? {
          return Err("boolean expected");
        }
        var thnType :- TypeCheckImpl(thn, env);
        var elsType :- TypeCheckImpl(els, env);
        var eq := TypeEqImpl(thnType, elsType);
        if !eq {
          return Err("then and else must have the same type");
        }
        return Ok(thnType);
      case NumberLit(_) =>
        return Ok(Number);
      case Add(left, right) =>
        var leftType :- TypeCheckImpl(left, env);
        if !leftType.Number? {
          return Err("number expected");
        }
        var rightType :- TypeCheckImpl(right, env);
        if !rightType.Number? {
          return Err("number expected");
        }
        return Ok(Number);
      case Var(name) =>
        if name !in env {
          return Err("undefined variable: " + name);
        }
        return Ok(env[name]);
      case FuncLit(params, body) =>
        var newEnv := ExtendEnv(env, params);
        var retType :- TypeCheckImpl(body, newEnv);
        return Ok(Func(params, retType));
      case Call(func, args) =>
        var funcTy :- TypeCheckImpl(func, env);
        if !funcTy.Func? {
          return Err("function expected");
        }
        if |funcTy.params| != |args| {
          return Err("wrong number of arguments");
        }
        var _ :- CheckArgsImpl(funcTy.params, args, env);
        return Ok(funcTy.retType);
      case Seq(body, rest) =>
        var _ :- TypeCheckImpl(body, env);
        r := TypeCheckImpl(rest, env);
      case Const(_, _, _) =>
        return Err("not implemented yet");
    }
  }

  /** The argument loop of `call`. */
  method CheckArgsImpl(params: seq<Param>, args: seq<Term>, env: TypeEnv) returns (r: Result<(), string>)
    requires |params| == |args|
    ensures r == CheckArgs(params, args, env, 0)
    decreases args, 0
  {
    var i := 0;
    while i < |args|
      invariant 0 <= i <= |args|
      invariant CheckArgs(params, args, env, 0) == CheckArgs(params, args, env, i)
    {
      var argTy :- TypeCheckImpl(args[i], env);
      var eq := TypeEqImpl(params[i].ty, argTy);
      if !eq {
        return Err("argument type mismatch");
      }
      i := i + 1;
    }
    return Ok(());
  }

  // ---------------------------------------------------------------------
  // Properties of the checker

  /** `true` and `false` give Boolean, a number literal gives Number. */
  lemma Literals(n: int, env: TypeEnv)
    ensures TypeCheck(True, env) == Ok(Boolean) && TypeCheck(False, env) == Ok(Boolean)
    ensures TypeCheck(NumberLit(n), env) == Ok(Number)
  {
  }

  /** `add` gives Number exactly when both operands give Number, and fails
      with "number expected" when an operand gives another type. */
  lemma AddRule(left: Term, right: Term, env: TypeEnv)
    ensures TypeCheck(Add(left, right), env).Ok? <==>
      TypeCheck(left, env) == Ok(Number) && TypeCheck(right, env) == Ok(Number)
    ensures TypeCheck(Add(left, right), env).Ok? ==> TypeCheck(Add(left, right), env).value == Number
    ensures TypeCheck(left, env).Ok? && TypeCheck(left, env).value != Number ==>
      TypeCheck(Add(left, right), env) == Err("number expected")
    ensures TypeCheck(left, env) == Ok(Number) && TypeCheck(right, env).Ok? && TypeCheck(right, env).value != Number ==>
      TypeCheck(Add(left, right), env) == Err("number expected")
  {
  }

  /** A variable gives its bound type and fails when it is unbound. */
  lemma VarRule(name: string, env: TypeEnv)
    ensures TypeCheck(Var(name), env).Ok? <==> name in env
    ensures name in env ==> TypeCheck(Var(name), env).value == env[name]
  {
  }

  /** `if` needs a Boolean condition and branches equal under `typeEq`, and
      gives the then-branch type (which by symmetry also equals the
      else-branch type). */
  lemma {:induction false} IfRule(cond: Term, thn: Term, els: Term, env: TypeEnv)
    ensures TypeCheck(If(cond, thn, els), env).Ok? <==>
      && TypeCheck(cond, env) == Ok(Boolean)
      && TypeCheck(thn, env).Ok? && TypeCheck(els, env).Ok?
      && TypeEq(TypeCheck(thn, env).value, TypeCheck(els, env).value)
    ensures TypeCheck(If(cond, thn, els), env).Ok? ==>
      && TypeCheck(If(cond, thn, els), env).value == TypeCheck(thn, env).value
      && TypeEq(TypeCheck(els, env).value, TypeCheck(If(cond, thn, els), env).value)
    ensures TypeCheck(cond, env).Ok? && !TypeCheck(cond, env).value.Boolean? ==>
      TypeCheck(If(cond, thn, els), env) == Err("boolean expected")
  {
    if TypeCheck(If(cond, thn, els), env).Ok? {
      TypeEqSymmetric(TypeCheck(thn, env).value, TypeCheck(els, env).value);
    }
  }

  /** A function literal's type has the declared parameters and, as return
      type, the type its body is given under those parameters. */
  lemma FuncRule(params: seq<Param>, body: Term, env: TypeEnv)
    ensures TypeCheck(FuncLit(params, body), env).Ok? <==> TypeCheck(body, BindParams(env, params)).Ok?
    ensures TypeCheck(FuncLit(params, body), env).Ok? ==>
      TypeCheck(FuncLit(params, body), env).value == Func(params, TypeCheck(body, BindParams(env, params)).value)
  {
  }

  /** A function that returns its parameter `name` has, as return type, the
      type of the LAST parameter called `name`; with no such parameter the
      name refers to the enclosing environment. */
  lemma {:induction false} ParameterShadowing(params: seq<Param>, name: string, env: TypeEnv)
    ensures LastIndex(params, name) >= 0 ==>
      TypeCheck(FuncLit(params, Var(name)), env) == Ok(Func(params, params[LastIndex(params, name)].ty))
    ensures LastIndex(params, name) == -1 ==>
      TypeCheck(FuncLit(params, Var(name)), env) ==
        if name in env then Ok(Func(params, env[name])) else Err("undefined variable: " + name)
  {
    BindParamsLookup(env, params, name);
  }

  /** The argument loop succeeds exactly when every argument from `i` on
      type-checks and equals its parameter's type; when every argument
      type-checks its only failure is "argument type mismatch". */
  lemma {:induction false} CheckArgsAll(params: seq<Param>, args: seq<Term>, env: TypeEnv, i: nat)
    requires |params| == |args| && i <= |args|
    ensures CheckArgs(params, args, env, i).Ok? <==>
      forall j :: i <= j < |args| ==>
        TypeCheck(args[j], env).Ok? && TypeEq(params[j].ty, TypeCheck(args[j], env).value)
    ensures (forall j :: i <= j < |args| ==> TypeCheck(args[j], env).Ok?) && CheckArgs(params, args, env, i).Err? ==>
      CheckArgs(params, args, env, i) == Err("argument type mismatch")
    decreases |args| - i
  {
    if i < |args| {
      CheckArgsAll(params, args, env, i + 1);
    }
  }

  /** `call` fails when the callee is not a function, when the arity differs,
      or when an argument is not equal to its positional parameter type;
      otherwise it gives the callee's return type. */
  lemma {:induction false} CallRule(func: Term, args: seq<Term>, env: TypeEnv)
    ensures var f := TypeCheck(func, env);
      TypeCheck(Call(func, args), env).Ok? <==>
        && f.Ok? && f.value.Func? && |f.value.params| == |args|
        && forall j :: 0 <= j < |args| ==>
             TypeCheck(args[j], env).Ok? && TypeEq(f.value.params[j].ty, TypeCheck(args[j], env).value)
    ensures TypeCheck(Call(func, args), env).Ok? ==>
      TypeCheck(Call(func, args), env).value == TypeCheck(func, env).value.retType
    ensures var f := TypeCheck(func, env);
      f.Ok? && !f.value.Func? ==> TypeCheck(Call(func, args), env) == Err("function expected")
    ensures var f := TypeCheck(func, env);
      f.Ok? && f.value.Func? && |f.value.params| != |args| ==>
        TypeCheck(Call(func, args), env) == Err("wrong number of arguments")
    ensures var f := TypeCheck(func, env);
      && f.Ok? && f.value.Func? && |f.value.params| == |args|
      && (forall j :: 0 <= j < |args| ==> TypeCheck(args[j], env).Ok?)
      && (exists j :: 0 <= j < |args| && !TypeEq(f.value.params[j].ty, TypeCheck(args[j], env).value)) ==>
        TypeCheck(Call(func, args), env) == Err("argument type mismatch")
  {
    var f := TypeCheck(func, env);
    if f.Ok? && f.value.Func? && |f.value.params| == |args| {
      CheckArgsAll(f.value.params, args, env, 0);
    }
  }

  /** `seq` needs its body to type-check, discards that type, and gives the
      type of `rest`. */
  lemma SeqRule(body: Term, rest: Term, env: TypeEnv)
    ensures TypeCheck(Seq(body, rest), env).Ok? <==> TypeCheck(body, env).Ok? && TypeCheck(rest, env).Ok?
    ensures TypeCheck(Seq(body, rest), env).Ok? ==> TypeCheck(Seq(body, rest), env) == TypeCheck(rest, env)
  {
  }

  /** `const` has no case in this draft and always fails. */
  lemma ConstNotImplemented(name: string, init: Term, rest: Term, env: TypeEnv)
    ensures TypeCheck(Const(name, init, rest), env) == Err("not implemented yet")
  {
  }

  /** Literals and `add` never get a type of the other primitive, and a
      function literal never gets a primitive type. */
  lemma PrimitiveSoundness(t: Term, env: TypeEnv)
    ensures TypeCheck(t, env) == Ok(Boolean) ==> !(t.NumberLit? || t.Add? || t.FuncLit? || t.Const?)
    ensures TypeCheck(t, env) == Ok(Number) ==> !(t.True? || t.False? || t.FuncLit? || t.Const?)
  {
  }
}
