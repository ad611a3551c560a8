/** Truth values of formulas under an assignment, and the theorem that an
    operator substitution whose templates mean what their symbols mean keeps
    the truth value of every formula. */
module Semantics {
  import opened Wrappers
  import opened Syntax

  /** A truth value for every variable name. */
  type Assignment = string -> bool

  function ConstantValue(c: Constant): bool
  {
    match c
    case T => true
    case F => false
  }

  /** The truth function of each binary operator. */
  function BinaryValue(op: BinaryOperator, a: bool, b: bool): bool
  {
    match op
    case And => a && b
    case Or => a || b
    case Implies => !a || b
    case Iff => a == b
    case Xor => a != b
    case Nand => !(a && b)
    case Nor => !(a || b)
  }

  function Eval(f: Formula, v: Assignment): bool
  {
    match f
    case Var(x) => v(x)
    case Lit(c) => ConstantValue(c)
    case Not(a) => !Eval(a, v)
    case Bin(op, a, b) => BinaryValue(op, Eval(a, v), Eval(b, v))
  }

  /** The assignment giving `p` and `q` the values `a` and `b` and every
      other variable false. */
  function PQ(a: bool, b: bool): Assignment
  {
    (x: string) => if x == "p" then a else if x == "q" then b else false
  }

  /** The assignment that gives each key of `m` the value of its image under
      `v`, and every other variable its value under `v`. */
  function Extend(m: map<string, Formula>, v: Assignment): Assignment
  {
    (x: string) => if x in m then Eval(m[x], v) else v(x)
  }

  /** `t` is a correct template for `s`: under every assignment it has the
      truth value of `s` applied to `p` and `q`. */
  ghost predicate Agrees(s: Symbol, t: Formula)
  {
    forall v :: Eval(t, v) == Eval(Canonical(s), v)
  }

  /** Every template of the table is correct for its key. */
  ghost predicate Sound(table: SubstitutionMap)
  {
    forall s :: table(s).Some? ==> Agrees(s, table(s).value)
  }

  /** The truth value of a formula depends only on its own variables. */
  lemma {:induction false} EvalDependsOnVariables(f: Formula, v: Assignment, w: Assignment)
    requires forall x :: x in Variables(f) ==> v(x) == w(x)
    ensures Eval(f, v) == Eval(f, w)
  {
    match f
    case Var(x) =>
    case Lit(_) =>
    case Not(a) =>
      EvalDependsOnVariables(a, v, w);
    case Bin(_, a, b) =>
      EvalDependsOnVariables(a, v, w);
      EvalDependsOnVariables(b, v, w);
  }

  /** Substituting formulas for variables and then evaluating is evaluating
      under the assignment that gives each replaced variable the value of its
      image. */
  lemma {:induction false} EvalSubstituteVariables(f: Formula, m: map<string, Formula>, v: Assignment)
    ensures Eval(SubstituteVariables(f, m), v) == Eval(f, Extend(m, v))
  {
    match f
    case Var(x) =>
    case Lit(_) =>
    case Not(a) =>
      EvalSubstituteVariables(a, m, v);
    case Bin(_, a, b) =>
      EvalSubstituteVariables(a, m, v);
      EvalSubstituteVariables(b, m, v);
  }

  /** The four rows of the truth table over `p` and `q` on which a template
      and its symbol must agree. */
  predicate TruthTableAgrees(s: Symbol, t: Formula)
  {
    && Eval(t, PQ(false, false)) == Eval(Canonical(s), PQ(false, false))
    && Eval(t, PQ(false, true)) == Eval(Canonical(s), PQ(false, true))
    && Eval(t, PQ(true, false)) == Eval(Canonical(s), PQ(true, false))
    && Eval(t, PQ(true, true)) == Eval(Canonical(s), PQ(true, true))
  }

  /** A template over `p` and `q` only is correct as soon as it agrees with
      its symbol on the four rows of the truth table. */
  lemma AgreesFromTruthTable(s: Symbol, t: Formula)
    requires Variables(t) <= {"p", "q"}
    requires TruthTableAgrees(s, t)
    ensures Agrees(s, t)
  {
    forall v ensures Eval(t, v) == Eval(Canonical(s), v) {
      var w := PQ(v("p"), v("q"));
      EvalDependsOnVariables(t, v, w);
      EvalDependsOnVariables(Canonical(s), v, w);
    }
  }

  /** A single pass with correct templates keeps the truth value of every
      formula under every assignment. */
  lemma {:induction false} SubstituteOperatorsPreservesEval(f: Formula, table: SubstitutionMap, v: Assignment)
    requires Sound(table)
    ensures Eval(SubstituteOperators(f, table), v) == Eval(f, v)
  {
    match f
    case Var(_) =>
    case Lit(c) =>
      if table(ConstantSymbol(c)).Some? {
        assert Eval(table(ConstantSymbol(c)).value, v) == Eval(Canonical(ConstantSymbol(c)), v);
      }
    case Not(a) =>
      SubstituteOperatorsPreservesEval(a, table, v);
      var a' := SubstituteOperators(a, table);
      if table(NotSymbol).Some? {
        var t, m := table(NotSymbol).value, map["p" := a'];
        EvalSubstituteVariables(t, m, v);
        assert Eval(t, Extend(m, v)) == Eval(Canonical(NotSymbol), Extend(m, v));
      }
    case Bin(op, a, b) =>
      SubstituteOperatorsPreservesEval(a, table, v);
      SubstituteOperatorsPreservesEval(b, table, v);
      var a', b' := SubstituteOperators(a, table), SubstituteOperators(b, table);
      if table(BinarySymbol(op)).Some? {
        var t, m := table(BinarySymbol(op)).value, map["p" := a', "q" := b'];
        EvalSubstituteVariables(t, m, v);
        assert Eval(t, Extend(m, v)) == Eval(Canonical(BinarySymbol(op)), Extend(m, v));
      }
  }

  /** Correct templates are exactly what makes a single pass keep the truth
      value of every formula under every assignment. */
  lemma SoundIff(table: SubstitutionMap)
    ensures Sound(table) <==> forall f, v :: Eval(SubstituteOperators(f, table), v) == Eval(f, v)
  {
    if Sound(table) {
      forall f, v ensures Eval(SubstituteOperators(f, table), v) == Eval(f, v) {
        SubstituteOperatorsPreservesEval(f, table, v);
      }
    } else {
      var s :| table(s).Some? && !Agrees(s, table(s).value);
      var v :| Eval(table(s).value, v) != Eval(Canonical(s), v);
      SubstituteOperatorsCanonical(s, table);
      assert Eval(SubstituteOperators(Canonical(s), table), v) != Eval(Canonical(s), v);
    }
  }
}
