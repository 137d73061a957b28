/** The first draft of the checker (src/arith.ts): literals, `add` and `if`, no
    environment.

    The draft compares the two branch types of an `if` with JavaScript's `!==`,
    which on objects is reference identity, and every case builds a fresh type
    object. To make that comparison meaningful the model threads an allocation
    counter through the checker: every type object the draft creates gets the
    next address. Term shapes that the draft's `switch` does not mention fall
    off its end, so the JavaScript function returns `undefined`. */
module Arith {
  import opened Results

  datatype Type = Boolean | Number

  datatype Param = Param(name: string, ty: Type)

  datatype Term =
    | True
    | False
    | If(cond: Term, thn: Term, els: Term)
    | NumberLit(n: int)
    | Add(left: Term, right: Term)
    | Var(name: string)
    | FuncLit(params: seq<Param>, body: Term)
    | Call(func: Term, args: seq<Term>)
    | Seq(body: Term, rest: Term)
    | Const(name: string, init: Term, rest: Term)

  /** What the JavaScript `typecheck` returns: `undefined`, or a reference to
      the type object allocated at `addr`. */
  datatype Value = Undefined | Ref(addr: nat, ty: Type)

  /** A value together with the next free address after the call. */
  datatype Checked = Checked(v: Value, next: nat)

  /** JavaScript `a === b` on the checker's values: two `undefined`s are
      identical, two references are identical when they point to the same
      object, and nothing else is. */
  predicate SameRef(a: Value, b: Value) {
    match (a, b)
    case (Undefined, Undefined) => true
    case (Ref(x, _), Ref(y, _)) => x == y
    case _ => false
  }

  /** The runtime error raised when the draft reads `.tag` of `undefined`. */
  const UndefinedTag: string := "TypeError: cannot read properties of undefined (reading 'tag')"

  /** `typecheck(t)` started with `next` as the first free address. */
  function TypeCheck(t: Term, next: nat): Result<Checked, string> {
    match t
    case True => Ok(Checked(Ref(next, Boolean), next + 1))
    case False => Ok(Checked(Ref(next, Boolean), next + 1))
    case If(cond, thn, els) =>
      // The condition's type is computed and then ignored.
      var c :- TypeCheck(cond, next);
      var th :- TypeCheck(thn, c.next);
      var el :- TypeCheck(els, th.next);
      if !SameRef(th.v, el.v) then Err("then and else must have the same type")
      else Ok(Checked(th.v, el.next))
    case NumberLit(_) => Ok(Checked(Ref(next, Number), next + 1))
    case Add(left, right) =>
      var l :- TypeCheck(left, next);
      if l.v.Undefined? then Err(UndefinedTag)
      else if l.v.ty != Number then Err("number expected")
      else
        var r :- TypeCheck(right, l.next);
        if r.v.Undefined? then Err(UndefinedTag)
        else if r.v.ty != Number then Err("number expected")
        else Ok(Checked(Ref(r.next, Number), r.next + 1))
    // No `case` and no `default` for these tags: control leaves the switch
    // and the function returns `undefined`.
    case Var(_) => Ok(Checked(Undefined, next))
    case FuncLit(_, _) => Ok(Checked(Undefined, next))
    case Call(_, _) => Ok(Checked(Undefined, next))
    case Seq(_, _) => Ok(Checked(Undefined, next))
    case Const(_, _, _) => Ok(Checked(Undefined, next))
  }

  /** What a caller of the draft can observe: a failure, no result, or a type. */
  datatype Outcome = NoResult | Typed(ty: Type)

  function Observe(r: Result<Checked, string>): Result<Outcome, string> {
    match r
    case Err(e) => Err(e)
    case Ok(Checked(Undefined, _)) => Ok(NoResult)
    case Ok(Checked(Ref(_, ty), _)) => Ok(Typed(ty))
  }

  /** The draft's behaviour stated without addresses: an `if` goes through
      only when neither branch produced a type object. */
  function Behaviour(t: Term): Result<Outcome, string> {
    match t
    case True => Ok(Typed(Boolean))
    case False => Ok(Typed(Boolean))
    case If(cond, thn, els) =>
      var c :- Behaviour(cond);
      var th :- Behaviour(thn);
      var el :- Behaviour(els);
      if th.NoResult? && el.NoResult? then Ok(NoResult)
      else Err("then and else must have the same type")
    case NumberLit(_) => Ok(Typed(Number))
    case Add(left, right) =>
      var l :- Behaviour(left);
      if l.NoResult? then Err(UndefinedTag)
      else if l.ty != Number then Err("number expected")
      else
        var r :- Behaviour(right);
        if r.NoResult? then Err(UndefinedTag)
        else if r.ty != Number then Err("number expected")
        else Ok(Typed(Number))
    case Var(_) => Ok(NoResult)
    case FuncLit(_, _) => Ok(NoResult)
    case Call(_, _) => Ok(NoResult)
    case Seq(_, _) => Ok(NoResult)
    case Const(_, _, _) => Ok(NoResult)
  }

  /** Every type object a call returns was allocated during that call, and the
      counter never goes back. */
  lemma {:induction false} AllocatesFresh(t: Term, next: nat)
    ensures TypeCheck(t, next).Ok? ==> next <= TypeCheck(t, next).value.next
    ensures TypeCheck(t, next).Ok? && TypeCheck(t, next).value.v.Ref? ==>
      next <= TypeCheck(t, next).value.v.addr < TypeCheck(t, next).value.next
  {
    match t
    case If(cond, thn, els) =>
      AllocatesFresh(cond, next);
      var c := TypeCheck(cond, next);
      if c.Ok? {
        AllocatesFresh(thn, c.value.next);
        var th := TypeCheck(thn, c.value.next);
        if th.Ok? {
          AllocatesFresh(els, th.value.next);
        }
      }
    case Add(left, right) =>
      AllocatesFresh(left, next);
      var l := TypeCheck(left, next);
      if l.Ok? {
        AllocatesFresh(right, l.value.next);
      }
    case _ =>
  }

  /** Reference identity between the branch types holds exactly when both
      branches returned `undefined`: two type objects from separate calls are
      never the same object. */
  lemma BranchIdentity(thn: Term, els: Term, n: nat)
    requires TypeCheck(thn, n).Ok?
    requires TypeCheck(els, TypeCheck(thn, n).value.next).Ok?
    ensures SameRef(TypeCheck(thn, n).value.v, TypeCheck(els, TypeCheck(thn, n).value.next).value.v)
      <==> TypeCheck(thn, n).value.v.Undefined? && TypeCheck(els, TypeCheck(thn, n).value.next).value.v.Undefined?
  {
    AllocatesFresh(thn, n);
    AllocatesFresh(els, TypeCheck(thn, n).value.next);
  }

  /** The addresses are unobservable: from any starting address the checker
      fails, returns nothing or returns a type exactly as `Behaviour` says. */
  lemma {:induction false} BehaviourMatches(t: Term, next: nat)
    ensures Observe(TypeCheck(t, next)) == Behaviour(t)
  {
    match t
    case If(cond, thn, els) =>
      BehaviourMatches(cond, next);
      var c := TypeCheck(cond, next);
      if c.Ok? {
        BehaviourMatches(thn, c.value.next);
        var th := TypeCheck(thn, c.value.next);
        if th.Ok? {
          BehaviourMatches(els, th.value.next);
          if TypeCheck(els, th.value.next).Ok? {
            BranchIdentity(thn, els, c.value.next);
          }
        }
      }
    case Add(left, right) =>
      BehaviourMatches(left, next);
      var l := TypeCheck(left, next);
      if l.Ok? {
        BehaviourMatches(right, l.value.next);
      }
    case _ =>
  }

  /** `true` and `false` give Boolean, a number literal gives Number. */
  lemma Literals(n: int, next: nat)
    ensures TypeCheck(True, next) == Ok(Checked(Ref(next, Boolean), next + 1))
    ensures TypeCheck(False, next) == Ok(Checked(Ref(next, Boolean), next + 1))
    ensures TypeCheck(NumberLit(n), next) == Ok(Checked(Ref(next, Number), next + 1))
  {
  }

  /** `add` gives Number exactly when both operands give Number; the left
      operand is examined first, then the right one: a Boolean operand fails
      with "number expected", and an operand that gives `undefined` makes the
      draft read `.tag` of `undefined`. */
  lemma AddRule(left: Term, right: Term, next: nat)
    ensures var l := TypeCheck(left, next);
      TypeCheck(Add(left, right), next).Ok? <==>
        && l.Ok? && l.value.v.Ref? && l.value.v.ty == Number
        && TypeCheck(right, l.value.next).Ok?
        && TypeCheck(right, l.value.next).value.v.Ref?
        && TypeCheck(right, l.value.next).value.v.ty == Number
    ensures var r := TypeCheck(Add(left, right), next);
      r.Ok? ==> r.value.v.Ref? && r.value.v.ty == Number
    ensures var l := TypeCheck(left, next);
      l.Ok? && l.value.v.Ref? && l.value.v.ty == Boolean ==> TypeCheck(Add(left, right), next) == Err("number expected")
    ensures var l := TypeCheck(left, next);
      l.Ok? && l.value.v.Undefined? ==> TypeCheck(Add(left, right), next) == Err(UndefinedTag)
    ensures var l := TypeCheck(left, next);
      var r := if l.Ok? then TypeCheck(right, l.value.next) else l;
      (l.Ok? && l.value.v.Ref? && l.value.v.ty == Number && r.Ok? && r.value.v.Ref? && r.value.v.ty == Boolean) ==>
        TypeCheck(Add(left, right), next) == Err("number expected")
    ensures var l := TypeCheck(left, next);
      var r := if l.Ok? then TypeCheck(right, l.value.next) else l;
      (l.Ok? && l.value.v.Ref? && l.value.v.ty == Number && r.Ok? && r.value.v.Undefined?) ==>
        TypeCheck(Add(left, right), next) == Err(UndefinedTag)
  {
  }

  /** The `if` rule as the draft runs it: the condition only has to be
      checked (any type, even no result, will do), and because of reference
      identity the whole `if` goes through only when both branches returned
      `undefined`. An `if` whose branch produced a type always fails. */
  lemma {:induction false} IfRule(cond: Term, thn: Term, els: Term, next: nat)
    ensures var c := TypeCheck(cond, next);
      TypeCheck(If(cond, thn, els), next).Ok? <==>
        c.Ok? &&
        var th := TypeCheck(thn, c.value.next);
        th.Ok? && th.value.v.Undefined? &&
        var el := TypeCheck(els, th.value.next);
        el.Ok? && el.value.v.Undefined?
    ensures var r := TypeCheck(If(cond, thn, els), next);
      r.Ok? ==> r.value.v.Undefined?
  {
    var c := TypeCheck(cond, next);
    if c.Ok? {
      var th := TypeCheck(thn, c.value.next);
      if th.Ok? && TypeCheck(els, th.value.next).Ok? {
        BranchIdentity(thn, els, c.value.next);
      }
    }
  }

  /** An `if` over two well-typed branches is rejected even when both
      branches have the same type. */
  lemma IfOverTypedBranchesFails(cond: Term, thn: Term, els: Term, next: nat)
    requires Behaviour(cond).Ok? && Behaviour(thn).Ok? && Behaviour(els).Ok?
    requires Behaviour(thn).value.Typed? || Behaviour(els).value.Typed?
    ensures TypeCheck(If(cond, thn, els), next) == Err("then and else must have the same type")
  {
    BehaviourMatches(If(cond, thn, els), next);
  }

  /** A Number condition is not rejected: whatever checks to Number may stand
      as the condition, and with branches that fall off the switch the `if`
      goes through with no result. */
  lemma NumberConditionAccepted(cond: Term, thn: Term, els: Term, next: nat)
    requires TypeCheck(cond, next).Ok? && TypeCheck(cond, next).value.v.Ref? && TypeCheck(cond, next).value.v.ty == Number
    requires thn.Var? || thn.FuncLit? || thn.Call? || thn.Seq? || thn.Const?
    requires els.Var? || els.FuncLit? || els.Call? || els.Seq? || els.Const?
    ensures TypeCheck(If(cond, thn, els), next) == Ok(Checked(Undefined, TypeCheck(cond, next).value.next))
  {
    var c := TypeCheck(cond, next).value;
    UnhandledFallThrough(thn, c.next);
    UnhandledFallThrough(els, c.next);
  }

  /** The tags without a `case` produce `undefined` and allocate nothing. */
  lemma UnhandledFallThrough(t: Term, next: nat)
    requires t.Var? || t.FuncLit? || t.Call? || t.Seq? || t.Const?
    ensures TypeCheck(t, next) == Ok(Checked(Undefined, next))
  {
  }

  /** Only the literals `true` and `false` are given Boolean, and only number
      literals and `add` are given Number. */
  lemma {:induction false} PrimitiveSoundness(t: Term, next: nat)
    ensures TypeCheck(t, next).Ok? && TypeCheck(t, next).value.v.Ref? ==>
      if TypeCheck(t, next).value.v.ty == Boolean then t.True? || t.False? else t.NumberLit? || t.Add?
  {
    if t.If? {
      IfRule(t.cond, t.thn, t.els, next);
    }
  }
}
