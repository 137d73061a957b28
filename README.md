# ts-tapl type checkers in Dafny

This project models the three type checkers of the ts-tapl repository. They are
successive drafts of one static checker for a small TypeScript-like expression
language, in the style of *Types and Programming Languages*. Each draft maps a
syntax tree (and, from the second draft on, a type environment) to a type, or
fails with an error. Each draft is its own Dafny module with its own `Type` and
`Term` datatypes:

- `Arith` (`arith.dfy`, src/arith.ts): literals, `add` and `if`, with no
  environment.
- `Basic` (`basic.dfy`, src/basic.ts): adds variables, functions with an
  inferred return type, calls and `seq`, plus `typeEq` over Boolean, Number and
  function types.
- `Obj` (`obj.dfy`, src/obj.ts): the full checker. It adds declared return
  types, recursive functions, `const`, object literals and field access,
  structural `typeEq`, and a `subtype` relation with width and depth subtyping
  on objects, contravariant parameters and a covariant return.
- `Results` (`results.dfy`): the `Result` datatype shared by all three.

A thrown exception, whether a thrown string, `new Error(...)` or the `error(...)`
helper, becomes `Err(message)`.

Each checker is given as pure functions (`TypeCheck`, `TypeEq`, `Subtype`) that
state what it computes. Where the source works by loops, the model also has
methods that run those loops:

- `ExtendEnv` copies the environment and assigns each parameter in order.
- The argument and property loops exit early on failure.
- `typeEq` and `subtype` use `for` loops with an early `return false`.

Each such method is proved to return exactly what its function states. Lemmas
then state each rule of the checker and the algebra of the type relations.

JavaScript details that the checkers' behaviour depends on are modelled
explicitly:

- In src/arith.ts, `if` compares two freshly built type objects with `!==`,
  which is reference identity. The model threads an allocation counter through
  the checker, so each type object has an address.
  - Every `if` whose branch yields a type fails.
  - The tags without a `case` (`var`, `func`, `call`, `seq`, `const`) fall off
    the `switch` and return `undefined`.
  - `Arith.Behaviour` restates the draft without addresses, and
    `Arith.BehaviourMatches` proves the two agree.
- In src/obj.ts, a function literal without a declared return type gets a
  function type whose return type is `undefined`. A call of it returns
  `undefined`, and any later read of `.tag` on that value throws a
  `TypeError`.
  - The model keeps that value as the type `Obj.Undefined`.
  - Every read of `.tag` on it fails with `Obj.UndefinedTag`.
  - `Obj.TypeEq` and `Obj.Subtype` therefore return `Result<bool, string>`.
- In src/obj.ts, a `const` bound to a function literal never checks the
  function's body. It checks `rest` twice and compares that type with the
  declared return type. This is reproduced as written.
- The message at src/obj.ts:136 is written with plain quotes, so it is the
  literal text `unknown property name: ${t.propName}`. The model keeps that
  text.

Function parameters are compared contravariantly, as is standard: `subtype`
checks each expected parameter type against the offered one (src/obj.ts:192),
so a function that asks less of its argument may stand where one that asks
more is expected. `(p: {a}) => number` is a subtype of `(p: {a, b}) => number`,
and the reversed pair, which one might mistakenly expect, is not
(`Obj.ContravarianceExample`).

Where the code does not do what one might expect, the model follows the code:

- One might expect `typeEq` and `subtype` to be reflexive on all types.
  The code instead can fail on object types with a repeated property name:
  `{a: number, a: boolean}` is neither equal to nor a subtype of itself
  (`Obj.NotReflexiveOnDuplicateNames`), while `{a: number, a: number}` is both
  (`Obj.ReflexiveDespiteDuplicateNames`). It also throws on `undefined`
  (`Obj.UndefinedThrows`). The reflexivity lemmas are therefore stated for
  well-formed types.
- One might expect object property names to be unique. `objectNew` does not
  enforce this (`Obj.ObjectNewKeepsDuplicates`), and with a repeated name
  `typeEq` no longer implies `subtype`
  (`Obj.EqualButNotSubtypeOnDuplicateNames`).

## Model

| member | source | states |
|---|---|---|
| Arith.AllocatesFresh | src/arith.ts:21-45 | every type object a call returns is built during that call: its address lies between the counter before and after the call, and the counter never goes back |
| Arith.BranchIdentity | src/arith.ts:29-31 | the two branch types of an `if` are the same reference exactly when both are `undefined` |
| Arith.BehaviourMatches | src/arith.ts:21-45 | from any starting address, what a caller observes (failure, no result, or a type) equals the address-free reference `Behaviour` |
| Arith.Literals | src/arith.ts:23-36 | `true`/`false` give a new Boolean object, a number literal a new Number object |
| Arith.AddRule | src/arith.ts:37-43 | `add` succeeds exactly when the left and then the right operand give Number; a Boolean left operand, or a Boolean right operand after a Number left one, fails with "number expected", and an `undefined` operand in either place throws |
| Arith.IfRule | src/arith.ts:27-33 | `if` succeeds exactly when the condition checks and both branches return `undefined`, and then returns `undefined` |
| Arith.IfOverTypedBranchesFails | src/arith.ts:31 | for any allocation counter, an `if` whose subterms check and one of whose branches has a type fails with "then and else must have the same type", even when both branches have the same type |
| Arith.NumberConditionAccepted | src/arith.ts:28-31 | for any allocation counter, a condition that checks to Number is not rejected: with branches that have no `case` the `if` returns `undefined` and allocates nothing beyond the condition |
| Arith.UnhandledFallThrough | src/arith.ts:21-45 | `var`, `func`, `call`, `seq` and `const` return `undefined` (no result) and allocate nothing |
| Arith.PrimitiveSoundness | src/arith.ts:21-45 | only `true`/`false` get Boolean and only number literals and `add` get Number |
| Basic.TypeEqIsShapeEquality | src/basic.ts:78-94 | `typeEq` holds exactly when the two types have the same shape (tags, arity, parameter and return shapes), an independent definition that forgets parameter names |
| Basic.TypeEqReflexive | src/basic.ts:78-94 | `typeEq(ty, ty)` for every type |
| Basic.TypeEqSymmetric | src/basic.ts:78-94 | `typeEq(ty1, ty2) == typeEq(ty2, ty1)`, although it dispatches on `ty2` |
| Basic.TypeEqTransitive | src/basic.ts:78-94 | `typeEq` is transitive |
| Basic.ParamNamesIgnored | src/basic.ts:84-92 | renaming the parameters of a function type keeps it equal |
| Basic.TypeEqImpl | src/basic.ts:78-94 | the loop with early `return false` computes `typeEq` |
| Basic.LastIndex | src/basic.ts:53-55 | the position of the last parameter with a given name, or -1 when there is none |
| Basic.BindParamsLookup | src/basic.ts:52-55 | after binding the parameters, a name has the type of its last parameter, and otherwise keeps its outer binding or stays unbound |
| Basic.ExtendEnv | src/basic.ts:52-55 | copying the environment and assigning each parameter in order gives `BindParams` |
| Basic.TypeCheckImpl | src/basic.ts:23-76 | the draft's `typecheck`, with its early exits, returns exactly `TypeCheck` |
| Basic.CheckArgsImpl | src/basic.ts:63-66 | the argument loop with its early exit returns exactly `CheckArgs` |
| Basic.Literals | src/basic.ts:25-39 | `true`/`false` give Boolean, `number` gives Number |
| Basic.AddRule | src/basic.ts:40-46 | `add` gives Number exactly when both operands give Number, and fails with "number expected" when the left operand is typed and not Number, or the left is Number and the right is typed and not Number |
| Basic.VarRule | src/basic.ts:47-50 | a variable gives its bound type, and fails exactly when unbound |
| Basic.IfRule | src/basic.ts:29-36 | `if` succeeds exactly with a Boolean condition and `typeEq` branches, gives the then-branch type, and fails with "boolean expected" on another condition type |
| Basic.FuncRule | src/basic.ts:51-58 | a function literal succeeds exactly when its body checks under the bound parameters, and its return type is the inferred body type |
| Basic.ParameterShadowing | src/basic.ts:51-58 | a function returning parameter `x` has the type of the last parameter called `x` as return type, or the outer binding when no parameter has that name |
| Basic.CheckArgsAll | src/basic.ts:63-66 | the argument loop succeeds exactly when every argument checks and is `typeEq` to its parameter |
| Basic.CallRule | src/basic.ts:59-68 | `call` gives the callee's return type, and fails with "function expected", "wrong number of arguments" or "argument type mismatch" in exactly those cases |
| Basic.SeqRule | src/basic.ts:69-72 | `seq` needs its body to check, discards that type and gives `rest`'s |
| Basic.ConstNotImplemented | src/basic.ts:73-74 | `const` has no case and fails with "not implemented yet" |
| Basic.PrimitiveSoundness | src/basic.ts:23-76 | literals and `add` never get a type of the other primitive, and function literals and `const` never get a primitive type |
| Obj.FindIndex | src/obj.ts:135 | `find` by name: the first property with that name, or -1 when no property has it |
| Obj.LastIndex | src/obj.ts:65-68 | the position of the last parameter with a given name, or -1 when there is none |
| Obj.BindParamsLookup | src/obj.ts:65-68 | after binding the parameters, a name has the type of its last parameter, and otherwise keeps its outer binding or stays unbound |
| Obj.ExtendEnv | src/obj.ts:65-68 | copying the environment and assigning each parameter in order gives `BindParams` |
| Obj.TypeEqImpl | src/obj.ts:145-171 | the loops of `typeEq` with early `return false` compute `TypeEq`, including its throws on `undefined` |
| Obj.SubtypeImpl | src/obj.ts:173-197 | the loops of `subtype` with early `return false` compute `Subtype` |
| Obj.TypeCheckImpl | src/obj.ts:36-143 | `typecheck`, with its early exits, returns exactly `TypeCheck` |
| Obj.IfImpl | src/obj.ts:42-49 | the `if` case returns exactly `TypeCheck` |
| Obj.CallImpl | src/obj.ts:91-100 | the `call` case returns exactly `TypeCheck` |
| Obj.ObjectGetImpl | src/obj.ts:132-138 | the `objectGet` case returns exactly `TypeCheck` |
| Obj.RecFuncImpl | src/obj.ts:75-90 | the `recFunc` case, with its environment copy and assignment loop, returns exactly `TypeCheck` |
| Obj.ConstImpl | src/obj.ts:105-125 | the `const` case returns exactly `TypeCheck` |
| Obj.CheckArgsImpl | src/obj.ts:95-98 | the argument loop with its early exit returns exactly `CheckArgs` |
| Obj.TypePropsImpl | src/obj.ts:127-129 | the property `map` returns exactly `TypeProps` |
| Obj.TypeEqDefined | src/obj.ts:145-171 | `typeEq` never throws on types without `undefined` |
| Obj.ParamsEqAll | src/obj.ts:154-156 | the parameter loop of `typeEq` returns true exactly when every parameter type pair is equal |
| Obj.PropsEqAll | src/obj.ts:163-167 | the property loop of `typeEq` returns true exactly when, for every property of `ty2`, the first property of `ty1` with that name exists and has an equal type |
| Obj.SubtypeDefined | src/obj.ts:173-197 | `subtype` never throws on types without `undefined` |
| Obj.ParamsSubAll | src/obj.ts:191-193 | the parameter loop of `subtype` returns true exactly when each parameter type of `ty2` is a subtype of the one in `ty1` |
| Obj.PropsSubAll | src/obj.ts:181-185 | the property loop of `subtype` returns true exactly when, for every property of `ty2`, the first property of `ty1` with that name exists and has a subtype |
| Obj.UndefinedThrows | src/obj.ts:145-197 | `typeEq` and `subtype` throw when either operand is `undefined` |
| Obj.ObjectEqRule | src/obj.ts:160-169 | on object types without `undefined` inside, `typeEq` is: the same number of properties, and every property of `ty2` found by name in `ty1` with an equal type |
| Obj.FuncEqRule | src/obj.ts:151-159 | on function types without `undefined` inside, `typeEq` is: the same arity, pairwise equal parameter types (names ignored) and equal return types |
| Obj.ObjectSubRule | src/obj.ts:179-187 | on object types without `undefined` inside, `subtype` is: every property of `ty2` found by name in `ty1` with a subtype, with no count check |
| Obj.FuncSubRule | src/obj.ts:188-195 | on function types without `undefined` inside, `subtype` is: the same arity, each parameter type of `ty2` a subtype of `ty1`'s, and `ty1`'s return type a subtype of `ty2`'s |
| Obj.PrimitiveRule | src/obj.ts:146-150 | Boolean and Number are related, by `typeEq` and `subtype`, only to themselves |
| Obj.TypeEqReflexive | src/obj.ts:145-171 | `typeEq(ty, ty)` holds for well-formed types |
| Obj.NotReflexiveOnDuplicateNames | src/obj.ts:163-167 | an object type with a repeated property name can be neither `typeEq` to nor a `subtype` of itself: `{a: number, a: boolean}` is neither |
| Obj.ReflexiveDespiteDuplicateNames | src/obj.ts:160-187 | a repeated property name does not always break reflexivity: `{a: number, a: number}` is both `typeEq` to and a `subtype` of itself |
| Obj.NotSymmetricOnDuplicateNames | src/obj.ts:163-167 | with a repeated property name `typeEq` can hold in one direction only |
| Obj.EqualButNotSubtypeOnDuplicateNames | src/obj.ts:151-195 | with a repeated property name inside a parameter type, `typeEq` accepts two function types that `subtype` rejects, because `subtype` compares parameters in the other direction |
| Obj.TypeEqSymmetric | src/obj.ts:145-171 | `typeEq` is symmetric on well-formed types, although it dispatches on `ty2` |
| Obj.TypeEqTransitive | src/obj.ts:145-171 | `typeEq` is transitive on types without `undefined` |
| Obj.PermutedObjectsEqual | src/obj.ts:160-169 | a well-formed object type equals any reordering of its properties |
| Obj.OrderMattersOnDuplicateNames | src/obj.ts:160-169 | with a repeated property name the order of properties matters: `{a: number, a: boolean}` is not `typeEq` to `{a: boolean, a: number}` |
| Obj.ObjectEqOrderInsensitive | src/obj.ts:160-169 | for a well-formed object type (no `undefined`, distinct property names), swapping two groups of properties keeps it equal |
| Obj.SubtypeReflexive | src/obj.ts:173-197 | `subtype(ty, ty)` holds for well-formed types |
| Obj.SubtypeTransitive | src/obj.ts:173-197 | `subtype` is transitive on types without `undefined` |
| Obj.TypeEqImpliesSubtype | src/obj.ts:173-197 | for well-formed types (no `undefined`, distinct property names in every object type), types that `typeEq` accepts are subtypes |
| Obj.WidthSubtyping | src/obj.ts:179-187 | when the extended object type is well-formed (no `undefined`, distinct property names), it is a subtype of the one without the extra properties, but neither equal to it nor its supertype |
| Obj.WidthFailsOnDuplicateNames | src/obj.ts:179-187 | with a repeated property name an object type can also be a subtype of its extension: `{a: number}` is a subtype of `{a: number, a: number}`, so width subtyping needs distinct names |
| Obj.DepthSubtyping | src/obj.ts:179-187 | when the subtype's property names are distinct and neither type contains `undefined`, the same names in the same positions with pointwise subtypes give a subtype |
| Obj.WidthExample | src/obj.ts:179-187 | `{x, y}` is a subtype of `{x}` and not the other way round |
| Obj.FunctionVarianceExample | src/obj.ts:188-195 | `(p: {a}) => {a, b}` is a subtype of `(p: {a, b}) => {a}`, and neither the swap nor `(p: {a}) => {a}` against `(p: {a, b}) => {a, b}` is |
| Obj.ContravarianceExample | src/obj.ts:191-193 | `(p: {a}) => number` is a subtype of `(p: {a, b}) => number`, and not the other way round |
| Obj.Literals | src/obj.ts:38-52 | `true`/`false` give Boolean, `number` gives Number |
| Obj.AddRule | src/obj.ts:53-59 | `add` gives Number exactly when both operands give Number; a defined non-Number operand fails with "number expected", an `undefined` one throws |
| Obj.VarRule | src/obj.ts:60-63 | a variable gives its bound type, and fails with "undefined variable: name" exactly when unbound or bound to `undefined` |
| Obj.IfRule | src/obj.ts:42-49 | `if` succeeds exactly with a Boolean condition and `typeEq` branch types, and gives the then-branch type |
| Obj.IfErrors | src/obj.ts:44-47 | `if` fails with "boolean expected" on another defined condition type, and with "then and else must have the same type" on unequal branches |
| Obj.FuncRule | src/obj.ts:64-74 | a function literal checks its body under the bound parameters, fails with "return type mismatch" only when a declared return type differs from the body's, and its type carries the declared return type (`undefined` when none) |
| Obj.UnannotatedFunctionReturnsUndefined | src/obj.ts:70-73 | a function without a declared return type has return type `undefined`; a call of it gives `undefined` and adding to that throws |
| Obj.RecFuncRule | src/obj.ts:75-90 | `recFunc` checks its body with the parameters and its own name bound, fails with "wrong return type" when that type differs from the declared one, and otherwise gives `rest`'s type under only the function's name |
| Obj.RecFuncParamsDoNotLeak | src/obj.ts:88-89 | a name unbound outside and different from the function's name stays unbound in `rest`, even when a parameter has it; when the body checks and `typeEq` accepts the declared return type, the result is exactly "undefined variable: " with that name |
| Obj.RecursiveFunctionExample | src/obj.ts:75-90 | a self-calling `sum(n: number): number` is accepted and a call of it gives Number |
| Obj.CheckArgsAll | src/obj.ts:95-98 | the argument loop succeeds exactly when every argument checks and its parameter type is `typeEq` to it |
| Obj.CallRule | src/obj.ts:91-100 | `call` succeeds exactly when the callee is a function of the right arity whose parameter types are `typeEq` to the argument types, and gives the callee's declared return type |
| Obj.CallErrors | src/obj.ts:92-97 | `call` throws on an `undefined` callee and fails with "function expected", "wrong number of arguments" or "argument type mismatch" in those cases |
| Obj.SeqRule | src/obj.ts:101-104 | `seq` needs its body to check, discards that type and gives `rest`'s |
| Obj.ConstRule | src/obj.ts:120-124 | `const` with a non-function initializer checks `rest` with the name bound to the initializer's type |
| Obj.ConstFuncRule | src/obj.ts:106-119 | `const` with a function literal fails without a declared return type, and otherwise succeeds exactly when `rest`, under the function's binding, is `typeEq` to that return type, giving `rest`'s type |
| Obj.ConstIgnoresFunctionBody | src/obj.ts:106-119 | the result does not depend on the function literal's body |
| Obj.ConstAcceptsIllTypedBody | src/obj.ts:106-119 | `const f = (): number => true + true; f()` is accepted with type Number although the literal alone fails |
| Obj.TypePropsAll | src/obj.ts:127-129 | the property `map` succeeds exactly when every term checks, keeping each name in order with its term's type |
| Obj.ObjectNewRule | src/obj.ts:126-131 | `objectNew` gives an object type with one property per term, in order, checked in the unchanged environment |
| Obj.ObjectNewKeepsDuplicates | src/obj.ts:126-131 | `{a: 1, a: true}` gets both properties called `a` |
| Obj.ObjectGetRule | src/obj.ts:132-138 | `objectGet` throws on `undefined`, fails with "object type expected" on another non-object, fails with the literal message `unknown property name: ${t.propName}` when no property has the name, and otherwise gives the type of the first property with that name |
| Obj.ObjectLiteralExample | src/obj.ts:126-131 | `{x: 1, y: true}` has type `{x: number, y: boolean}` |
| Obj.ObjectGetExample | src/obj.ts:132-138 | `{x: 1, y: true}.y` gives Boolean and `.z` fails as an unknown property |
| Obj.PrimitiveSoundness | src/obj.ts:36-143 | literals never get the other primitive; function and object literals only get function and object types |

## Left out

- The parsers (`parseArith`, `parseBasic`, `parseObj`, `parseRecFunc`) and the `error` helper from `tiny-ts-parser.ts`: that module is not part of this model. The model assumes `error(...)` throws, as its use as a guard implies.
- The numeric payload of `number` terms is an `int`. The checkers never inspect it, so JavaScript floating point plays no part.
- Environment lookup is a finite map. JavaScript `Record` prototype-chain lookups, such as an inherited `toString` counting as bound, are not modelled.
- Exception kinds are not modelled: a thrown string, `new Error`, `error(msg, term)` and a runtime `TypeError` are all just `Err(message)`, and the term carried in a diagnostic is dropped.
- The environment built at src/obj.ts:113-116 is never used, so it is not modelled.
- In src/arith.ts, only the relative identity of type objects is modelled, through an allocation counter. Their actual heap addresses are not.
- Obj.TypeEqReflexive: stated only for well-formed types (no `undefined`, distinct property names), because on the others the code need not be reflexive (Obj.NotReflexiveOnDuplicateNames) and throws on `undefined` (Obj.UndefinedThrows).
- Obj.SubtypeReflexive: stated only for well-formed types, for the same reason.
- Obj.ObjectEqOrderInsensitive: stated only for well-formed types. With a repeated property name the first-match lookup makes order matter (Obj.OrderMattersOnDuplicateNames), and on `undefined` `typeEq` throws.
- Obj.TypeEqSymmetric: stated only for well-formed types. With a repeated property name, the first-match lookup can make `typeEq` hold in one direction only (Obj.NotSymmetricOnDuplicateNames).
- Obj.TypeEqTransitive and Obj.SubtypeTransitive: stated only for types without `undefined`, on which `typeEq` and `subtype` throw.
- Obj.TypeEqImpliesSubtype: stated only for well-formed types. With a repeated property name the implication fails (Obj.EqualButNotSubtypeOnDuplicateNames), and on `undefined` both functions throw.
- Obj.WidthSubtyping: stated only for a well-formed extended type. With a repeated name the "neither equal nor supertype" half fails: `{a: number}` is a subtype of its extension `{a: number, a: number}` (Obj.WidthFailsOnDuplicateNames).
- Obj.DepthSubtyping: requires distinct property names in the subtype, because the first-match lookup would otherwise compare a later duplicate against the wrong property; both types must be free of `undefined`, on which `subtype` throws.
- Obj.ObjectEqRule: stated only for types without `undefined`, because reading the tag of `undefined` anywhere inside throws a TypeError in `typeEq` rather than giving a boolean.
- Obj.FuncEqRule: stated only for types without `undefined`, for the same reason.
- Obj.ObjectSubRule: stated only for types without `undefined`, because reading the tag of `undefined` anywhere inside throws a TypeError in `subtype` rather than giving a boolean.
- Obj.FuncSubRule: stated only for types without `undefined`, for the same reason.
