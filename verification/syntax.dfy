/** Propositional formulas as trees, and the two syntactic substitutions the
    basis conversions are built on: replacing variables by formulas, and
    replacing operators and constants by templates over `p` and `q`. */
module Syntax {
  import opened Wrappers

  /** The constants `T` and `F`. */
  datatype Constant = T | F

  /** The binary operators `&`, `|`, `->`, `<->`, `+` (exclusive or),
      `-&` (nand) and `-|` (nor). */
  datatype BinaryOperator = And | Or | Implies | Iff | Xor | Nand | Nor

  /** Every constant or operator a node of a formula can carry: these are the
      possible keys of a substitution map. */
  datatype Symbol = ConstantSymbol(c: Constant) | NotSymbol | BinarySymbol(op: BinaryOperator)

  /** A formula tree. The arity of every operator is fixed by its constructor. */
  datatype Formula =
    | Var(name: string)
    | Lit(c: Constant)
    | Not(operand: Formula)
    | Bin(op: BinaryOperator, first: Formula, second: Formula)

  /** A substitution map: for each symbol, `Some(template)` if it is a key
      and `None` otherwise. */
  type SubstitutionMap = Symbol -> Option<Formula>

  /** The variables occurring in a formula. */
  function Variables(f: Formula): set<string>
  {
    match f
    case Var(x) => {x}
    case Lit(_) => {}
    case Not(a) => Variables(a)
    case Bin(_, a, b) => Variables(a) + Variables(b)
  }

  /** The constants and operators occurring in a formula. */
  function Operators(f: Formula): set<Symbol>
  {
    match f
    case Var(_) => {}
    case Lit(c) => {ConstantSymbol(c)}
    case Not(a) => {NotSymbol} + Operators(a)
    case Bin(op, a, b) => {BinarySymbol(op)} + Operators(a) + Operators(b)
  }

  /** The symbol applied to the placeholders it has operands for: `c`, `~p`
      or `(p op q)`. Its template must mean the same as this formula. */
  function Canonical(s: Symbol): (f: Formula)
    ensures Operators(f) == {s}
    ensures Variables(f) <= {"p", "q"}
  {
    match s
    case ConstantSymbol(c) => Lit(c)
    case NotSymbol => Not(Var("p"))
    case BinarySymbol(op) => Bin(op, Var("p"), Var("q"))
  }

  /** The placeholders an instantiation of a template for `s` replaces. */
  function Placeholders(s: Symbol): set<string>
  {
    Variables(Canonical(s))
  }

  /** Simultaneous replacement of every variable that is a key of `m` by its
      image; other variables are kept. */
  function SubstituteVariables(f: Formula, m: map<string, Formula>): Formula
  {
    match f
    case Var(x) => if x in m then m[x] else f
    case Lit(_) => f
    case Not(a) => Not(SubstituteVariables(a, m))
    case Bin(op, a, b) => Bin(op, SubstituteVariables(a, m), SubstituteVariables(b, m))
  }

  /** One bottom-up pass: the operands are converted first; a node whose
      symbol is a key becomes its template with `p` (and `q`) replaced by the
      converted operands, and the instantiated template is not converted
      again. A constant that is a key becomes its template unchanged. */
  function SubstituteOperators(f: Formula, table: SubstitutionMap): Formula
  {
    match f
    case Var(_) => f
    case Lit(c) =>
      if table(ConstantSymbol(c)).Some? then table(ConstantSymbol(c)).value else f
    case Not(a) =>
      var a' := SubstituteOperators(a, table);
      if table(NotSymbol).Some? then SubstituteVariables(table(NotSymbol).value, map["p" := a'])
      else Not(a')
    case Bin(op, a, b) =>
      var a', b' := SubstituteOperators(a, table), SubstituteOperators(b, table);
      if table(BinarySymbol(op)).Some? then
        SubstituteVariables(table(BinarySymbol(op)).value, map["p" := a', "q" := b'])
      else Bin(op, a', b')
  }

  /* ---------------------------------------------------------------------
     Variable substitution
     --------------------------------------------------------------------- */

  /** Substitution keeps every operator of `f` and adds only the operators of
      the images. */
  lemma {:induction false} SubstituteVariablesOperators(f: Formula, m: map<string, Formula>, extra: set<Symbol>)
    requires forall x :: x in m ==> Operators(m[x]) <= extra
    ensures Operators(f) <= Operators(SubstituteVariables(f, m)) <= Operators(f) + extra
  {
    match f
    case Var(x) =>
    case Lit(_) =>
    case Not(a) =>
      SubstituteVariablesOperators(a, m, extra);
    case Bin(_, a, b) =>
      SubstituteVariablesOperators(a, m, extra);
      SubstituteVariablesOperators(b, m, extra);
  }

  /** Substitution keeps every unreplaced variable and every variable of
      the image of a replaced one, and adds nothing beyond the images. */
  lemma {:induction false} SubstituteVariablesVariables(f: Formula, m: map<string, Formula>, images: set<string>)
    requires forall x :: x in m ==> Variables(m[x]) <= images
    ensures Variables(f) - m.Keys <= Variables(SubstituteVariables(f, m)) <= (Variables(f) - m.Keys) + images
    ensures forall x :: x in m && x in Variables(f) ==> Variables(m[x]) <= Variables(SubstituteVariables(f, m))
  {
    match f
    case Var(x) =>
    case Lit(_) =>
    case Not(a) =>
      SubstituteVariablesVariables(a, m, images);
    case Bin(_, a, b) =>
      SubstituteVariablesVariables(a, m, images);
      SubstituteVariablesVariables(b, m, images);
  }

  /** Replacing variables by themselves changes nothing. */
  lemma {:induction false} SubstituteVariablesIdentity(f: Formula, m: map<string, Formula>)
    requires forall x :: x in m ==> m[x] == Var(x)
    ensures SubstituteVariables(f, m) == f
  {
    match f
    case Var(x) =>
    case Lit(_) =>
    case Not(a) =>
      SubstituteVariablesIdentity(a, m);
    case Bin(_, a, b) =>
      SubstituteVariablesIdentity(a, m);
      SubstituteVariablesIdentity(b, m);
  }

  /* ---------------------------------------------------------------------
     Operator substitution
     --------------------------------------------------------------------- */

  /** Converting a symbol applied to its placeholders yields exactly the
      symbol's template, or the symbol itself when it is not a key. */
  lemma SubstituteOperatorsCanonical(s: Symbol, table: SubstitutionMap)
    ensures SubstituteOperators(Canonical(s), table)
         == if table(s).Some? then table(s).value else Canonical(s)
  {
    match s
    case ConstantSymbol(_) =>
    case NotSymbol =>
      if table(s).Some? {
        SubstituteVariablesIdentity(table(s).value, map["p" := Var("p")]);
      }
    case BinarySymbol(_) =>
      if table(s).Some? {
        SubstituteVariablesIdentity(table(s).value, map["p" := Var("p"), "q" := Var("q")]);
      }
  }

  /** Every symbol outside `basis` is a key of the table. */
  ghost predicate CoversOutside(table: SubstitutionMap, basis: set<Symbol>)
  {
    forall s :: s !in basis ==> table(s).Some?
  }

  /** Every template of the table is written with symbols of `basis` only. */
  ghost predicate TemplatesWithin(table: SubstitutionMap, basis: set<Symbol>)
  {
    forall s :: table(s).Some? ==> Operators(table(s).value) <= basis
  }

  /** A single pass lands in `basis` when the keys cover every symbol outside
      it and every template is written in it. */
  lemma {:induction false} SubstituteOperatorsWithinBasis(f: Formula, table: SubstitutionMap, basis: set<Symbol>)
    requires CoversOutside(table, basis)
    requires TemplatesWithin(table, basis)
    ensures Operators(SubstituteOperators(f, table)) <= basis
  {
    match f
    case Var(_) =>
    case Lit(c) =>
    case Not(a) =>
      SubstituteOperatorsWithinBasis(a, table, basis);
      var a' := SubstituteOperators(a, table);
      if table(NotSymbol).Some? {
        SubstituteVariablesOperators(table(NotSymbol).value, map["p" := a'], basis);
      }
    case Bin(op, a, b) =>
      SubstituteOperatorsWithinBasis(a, table, basis);
      SubstituteOperatorsWithinBasis(b, table, basis);
      var a', b' := SubstituteOperators(a, table), SubstituteOperators(b, table);
      if table(BinarySymbol(op)).Some? {
        SubstituteVariablesOperators(table(BinarySymbol(op)).value, map["p" := a', "q" := b'], basis);
      }
  }

  /** The two conditions on the table are exactly what makes every output of
      the pass lie in `basis`. */
  lemma WithinBasisIff(table: SubstitutionMap, basis: set<Symbol>)
    ensures (CoversOutside(table, basis) && TemplatesWithin(table, basis))
        <==> (forall f :: Operators(SubstituteOperators(f, table)) <= basis)
  {
    if CoversOutside(table, basis) && TemplatesWithin(table, basis) {
      forall f ensures Operators(SubstituteOperators(f, table)) <= basis {
        SubstituteOperatorsWithinBasis(f, table, basis);
      }
    } else if !CoversOutside(table, basis) {
      var s :| s !in basis && table(s).None?;
      SubstituteOperatorsCanonical(s, table);
      assert s in Operators(SubstituteOperators(Canonical(s), table));
    } else {
      var s :| table(s).Some? && !(Operators(table(s).value) <= basis);
      SubstituteOperatorsCanonical(s, table);
      assert !(Operators(SubstituteOperators(Canonical(s), table)) <= basis);
    }
  }

  /** Every symbol of `basis` is either not a key or an identity entry, which
      maps it to itself applied to `p` and `q`. */
  predicate KeepsBasis(table: SubstitutionMap, basis: set<Symbol>)
  {
    forall s :: s in basis ==> table(s).None? || table(s) == Some(Canonical(s))
  }

  /** An identity entry rebuilds its node with only the operands converted. */
  lemma IdentityEntryRebuilds(f: Formula, table: SubstitutionMap)
    requires f.Lit? ==> table(ConstantSymbol(f.c)) == Some(f)
    requires f.Not? ==> table(NotSymbol) == Some(Canonical(NotSymbol))
    requires f.Bin? ==> table(BinarySymbol(f.op)) == Some(Canonical(BinarySymbol(f.op)))
    ensures f.Lit? ==> SubstituteOperators(f, table) == f
    ensures f.Not? ==> SubstituteOperators(f, table) == Not(SubstituteOperators(f.operand, table))
    ensures f.Bin? ==>
      SubstituteOperators(f, table) == Bin(f.op, SubstituteOperators(f.first, table), SubstituteOperators(f.second, table))
  {
    match f
    case Var(_) =>
    case Lit(_) =>
    case Not(a) =>
      var a' := SubstituteOperators(a, table);
      assert SubstituteVariables(Var("p"), map["p" := a']) == a';
    case Bin(op, a, b) =>
      var a', b' := SubstituteOperators(a, table), SubstituteOperators(b, table);
      var m := map["p" := a', "q" := b'];
      assert SubstituteVariables(Var("p"), m) == a';
      assert SubstituteVariables(Var("q"), m) == b';
  }

  /** A formula already written in `basis` passes through unchanged when the
      table keeps the basis. */
  lemma {:induction false} SubstituteOperatorsFixesBasis(f: Formula, table: SubstitutionMap, basis: set<Symbol>)
    requires KeepsBasis(table, basis)
    requires Operators(f) <= basis
    ensures SubstituteOperators(f, table) == f
  {
    match f
    case Var(_) =>
    case Lit(c) =>
      assert ConstantSymbol(c) in basis;
    case Not(a) =>
      assert NotSymbol in basis;
      SubstituteOperatorsFixesBasis(a, table, basis);
      if table(NotSymbol).Some? {
        IdentityEntryRebuilds(f, table);
      }
    case Bin(op, a, b) =>
      assert BinarySymbol(op) in basis;
      SubstituteOperatorsFixesBasis(a, table, basis);
      SubstituteOperatorsFixesBasis(b, table, basis);
      if table(BinarySymbol(op)).Some? {
        IdentityEntryRebuilds(f, table);
      }
  }

  /** Keeping the basis is exactly what makes the pass leave every formula
      already written in it unchanged. */
  lemma FixesBasisIff(table: SubstitutionMap, basis: set<Symbol>)
    ensures KeepsBasis(table, basis)
        <==> (forall f :: Operators(f) <= basis ==> SubstituteOperators(f, table) == f)
  {
    if KeepsBasis(table, basis) {
      forall f | Operators(f) <= basis ensures SubstituteOperators(f, table) == f {
        SubstituteOperatorsFixesBasis(f, table, basis);
      }
    } else {
      var s :| s in basis && !(table(s).None? || table(s) == Some(Canonical(s)));
      SubstituteOperatorsCanonical(s, table);
      assert Operators(Canonical(s)) <= basis;
      assert SubstituteOperators(Canonical(s), table) != Canonical(s);
    }
  }

  /** Every template uses all the placeholders its instantiation replaces,
      and no variable beyond them except those in `extra`. */
  ghost predicate UsesPlaceholders(table: SubstitutionMap, extra: set<string>)
  {
    forall s :: table(s).Some? ==>
      Placeholders(s) <= Variables(table(s).value) <= Placeholders(s) + extra
  }

  /** A pass loses no variable of its input and adds only those in `extra`. */
  lemma {:induction false} SubstituteOperatorsVariables(f: Formula, table: SubstitutionMap, extra: set<string>)
    requires UsesPlaceholders(table, extra)
    ensures Variables(f) <= Variables(SubstituteOperators(f, table)) <= Variables(f) + extra
  {
    match f
    case Var(_) =>
    case Lit(c) =>
      assert Placeholders(ConstantSymbol(c)) == {};
    case Not(a) =>
      SubstituteOperatorsVariables(a, table, extra);
      var a' := SubstituteOperators(a, table);
      if table(NotSymbol).Some? {
        var t, m := table(NotSymbol).value, map["p" := a'];
        assert Placeholders(NotSymbol) == {"p"};
        assert m.Keys == {"p"};
        SubstituteVariablesVariables(t, m, Variables(a'));
      }
    case Bin(op, a, b) =>
      SubstituteOperatorsVariables(a, table, extra);
      SubstituteOperatorsVariables(b, table, extra);
      var a', b' := SubstituteOperators(a, table), SubstituteOperators(b, table);
      if table(BinarySymbol(op)).Some? {
        var t, m := table(BinarySymbol(op)).value, map["p" := a', "q" := b'];
        assert Variables(Canonical(BinarySymbol(op))) == {"p", "q"};
        assert m.Keys == {"p", "q"};
        SubstituteVariablesVariables(t, m, Variables(a') + Variables(b'));
      }
  }
}
