/** The five basis conversions: each is one operator-substitution pass with a
    fixed table whose templates are written over the placeholders `p` and `q`. */
module Conversions {
  import opened Wrappers
  import opened Syntax
  import opened Semantics

  const P := Var("p")
  const Q := Var("q")

  /* ---------------------------------------------------------------------
     What a conversion table must satisfy
     --------------------------------------------------------------------- */

  /** A table converts into `basis`: its templates are correct, it has a
      template for every symbol outside the basis, its templates use the basis
      only, symbols of the basis are kept, and its templates use their
      placeholders and no variable beyond them except those in `extra`. */
  ghost predicate ValidTable(table: SubstitutionMap, basis: set<Symbol>, extra: set<string>)
  {
    && Sound(table)
    && CoversOutside(table, basis)
    && TemplatesWithin(table, basis)
    && KeepsBasis(table, basis)
    && UsesPlaceholders(table, extra)
  }

  /** The finite check of one entry of a table: coverage, basis and
      placeholder conditions on the template, and its four truth-table rows. */
  predicate EntryChecked(table: SubstitutionMap, basis: set<Symbol>, extra: set<string>, s: Symbol)
  {
    && (s !in basis ==> table(s).Some?)
    && (s in basis ==> table(s).None? || table(s) == Some(Canonical(s)))
    && (table(s).Some? ==>
          && Variables(table(s).value) <= {"p", "q"}
          && TruthTableAgrees(s, table(s).value)
          && Operators(table(s).value) <= basis
          && Placeholders(s) <= Variables(table(s).value) <= Placeholders(s) + extra)
  }

  /** Checking every entry of a table establishes that it is valid. */
  lemma ValidFromEntries(table: SubstitutionMap, basis: set<Symbol>, extra: set<string>)
    requires forall s :: EntryChecked(table, basis, extra, s)
    ensures ValidTable(table, basis, extra)
  {
    forall s | table(s).Some? ensures Agrees(s, table(s).value) {
      assert EntryChecked(table, basis, extra, s);
      AgreesFromTruthTable(s, table(s).value);
    }
    forall s ensures (s !in basis ==> table(s).Some?) && (s in basis ==> table(s).None? || table(s) == Some(Canonical(s))) {
      assert EntryChecked(table, basis, extra, s);
    }
    forall s | table(s).Some?
      ensures Operators(table(s).value) <= basis
      ensures Placeholders(s) <= Variables(table(s).value) <= Placeholders(s) + extra
    {
      assert EntryChecked(table, basis, extra, s);
    }
  }

  /** A single pass with a valid table: the result has the truth value of the
      input under every assignment, uses the basis only, keeps the input's
      variables and adds only those in `extra`, and leaves an input already
      written in the basis unchanged. */
  lemma ConvertWithValidTable(f: Formula, table: SubstitutionMap, basis: set<Symbol>, extra: set<string>)
    requires ValidTable(table, basis, extra)
    ensures forall v :: Eval(SubstituteOperators(f, table), v) == Eval(f, v)
    ensures Operators(SubstituteOperators(f, table)) <= basis
    ensures Variables(f) <= Variables(SubstituteOperators(f, table)) <= Variables(f) + extra
    ensures Operators(f) <= basis ==> SubstituteOperators(f, table) == f
  {
    forall v ensures Eval(SubstituteOperators(f, table), v) == Eval(f, v) {
      SubstituteOperatorsPreservesEval(f, table, v);
    }
    SubstituteOperatorsWithinBasis(f, table, basis);
    SubstituteOperatorsVariables(f, table, extra);
    if Operators(f) <= basis {
      SubstituteOperatorsFixesBasis(f, table, basis);
    }
  }

  /* ---------------------------------------------------------------------
     Basis {~, &, |}
     --------------------------------------------------------------------- */

  const NotAndOrBasis: set<Symbol> := {NotSymbol, BinarySymbol(And), BinarySymbol(Or)}

  function NotAndOrTable(s: Symbol): Option<Formula>
  {
    match s
    case BinarySymbol(Xor) => Some(Bin(Or, Bin(And, P, Not(Q)), Bin(And, Not(P), Q)))
    case BinarySymbol(Implies) => Some(Bin(Or, Not(P), Q))
    case BinarySymbol(Iff) => Some(Bin(Or, Bin(And, P, Q), Bin(And, Not(P), Not(Q))))
    case BinarySymbol(Nand) => Some(Not(Bin(And, P, Q)))
    case BinarySymbol(Nor) => Some(Not(Bin(Or, P, Q)))
    case ConstantSymbol(T) => Some(Bin(Or, P, Not(P)))
    case ConstantSymbol(F) => Some(Bin(And, P, Not(P)))
    case _ => None
  }

  /** Each of the ten entries, checked on its four truth-table rows. */
  lemma NotAndOrTableEntry(s: Symbol)
    ensures EntryChecked(NotAndOrTable, NotAndOrBasis, {"p"}, s)
  {
    match s
    case ConstantSymbol(T) =>
    case ConstantSymbol(F) =>
    case NotSymbol =>
    case BinarySymbol(And) =>
    case BinarySymbol(Or) =>
    case BinarySymbol(Implies) =>
    case BinarySymbol(Iff) =>
    case BinarySymbol(Xor) =>
    case BinarySymbol(Nand) =>
    case BinarySymbol(Nor) =>
  }

  lemma NotAndOrTableValid()
    ensures ValidTable(NotAndOrTable, NotAndOrBasis, {"p"})
  {
    forall s ensures EntryChecked(NotAndOrTable, NotAndOrBasis, {"p"}, s) {
      NotAndOrTableEntry(s);
    }
    ValidFromEntries(NotAndOrTable, NotAndOrBasis, {"p"});
  }

  function ToNotAndOr(f: Formula): (r: Formula)
    ensures forall v :: Eval(r, v) == Eval(f, v)
    ensures Operators(r) <= NotAndOrBasis
    ensures Variables(f) <= Variables(r) <= Variables(f) + {"p"}
    ensures Operators(f) <= NotAndOrBasis ==> r == f
  {
    NotAndOrTableValid();
    ConvertWithValidTable(f, NotAndOrTable, NotAndOrBasis, {"p"});
    SubstituteOperators(f, NotAndOrTable)
  }

  /* ---------------------------------------------------------------------
     Basis {~, &}
     --------------------------------------------------------------------- */

  const NotAndBasis: set<Symbol> := {NotSymbol, BinarySymbol(And)}

  function NotAndTable(s: Symbol): Option<Formula>
  {
    match s
    case BinarySymbol(Or) => Some(Not(Bin(And, Not(P), Not(Q))))
    case BinarySymbol(Implies) => Some(Not(Bin(And, P, Not(Q))))
    case BinarySymbol(Xor) => Some(Not(Bin(And, Not(Bin(And, P, Not(Q))), Not(Bin(And, Not(P), Q)))))
    case BinarySymbol(Iff) => Some(Bin(And, Not(Bin(And, P, Not(Q))), Not(Bin(And, Not(P), Q))))
    case BinarySymbol(Nand) => Some(Not(Bin(And, P, Q)))
    case BinarySymbol(Nor) => Some(Bin(And, Not(P), Not(Q)))
    case ConstantSymbol(T) => Some(Not(Bin(And, P, Not(P))))
    case ConstantSymbol(F) => Some(Bin(And, P, Not(P)))
    case _ => None
  }

  /** Each of the ten entries, checked on its four truth-table rows. */
  lemma NotAndTableEntry(s: Symbol)
    ensures EntryChecked(NotAndTable, NotAndBasis, {"p"}, s)
  {
    match s
    case ConstantSymbol(T) =>
    case ConstantSymbol(F) =>
    case NotSymbol =>
    case BinarySymbol(And) =>
    case BinarySymbol(Or) =>
    case BinarySymbol(Implies) =>
    case BinarySymbol(Iff) =>
    case BinarySymbol(Xor) =>
    case BinarySymbol(Nand) =>
    case BinarySymbol(Nor) =>
  }

  lemma NotAndTableValid()
    ensures ValidTable(NotAndTable, NotAndBasis, {"p"})
  {
    forall s ensures EntryChecked(NotAndTable, NotAndBasis, {"p"}, s) {
      NotAndTableEntry(s);
    }
    ValidFromEntries(NotAndTable, NotAndBasis, {"p"});
  }

  function ToNotAnd(f: Formula): (r: Formula)
    ensures forall v :: Eval(r, v) == Eval(f, v)
    ensures Operators(r) <= NotAndBasis
    ensures Variables(f) <= Variables(r) <= Variables(f) + {"p"}
    ensures Operators(f) <= NotAndBasis ==> r == f
  {
    NotAndTableValid();
    ConvertWithValidTable(f, NotAndTable, NotAndBasis, {"p"});
    SubstituteOperators(f, NotAndTable)
  }

  /* ---------------------------------------------------------------------
     Basis {-&}
     --------------------------------------------------------------------- */

  const NandBasis: set<Symbol> := {BinarySymbol(Nand)}

  /** `~p`, `~q` and `(p&q)` written with nand alone, the building blocks of
      the nand templates. */
  const NandNotP := Bin(Nand, P, P)
  const NandNotQ := Bin(Nand, Q, Q)
  const NandPAndQ := Bin(Nand, Bin(Nand, P, Q), Bin(Nand, P, Q))

  /** The building blocks mean negation of `p`, negation of `q` and
      conjunction of `p` and `q`. */
  lemma NandBuildingBlocks()
    ensures Agrees(NotSymbol, NandNotP)
    ensures Agrees(BinarySymbol(And), NandPAndQ)
    ensures forall v :: Eval(NandNotQ, v) == !v("q")
  {
  }

  function NandTable(s: Symbol): Option<Formula>
  {
    match s
    case NotSymbol => Some(NandNotP)
    case BinarySymbol(And) => Some(NandPAndQ)
    case BinarySymbol(Or) => Some(Bin(Nand, NandNotP, NandNotQ))
    case BinarySymbol(Implies) => Some(Bin(Nand, P, NandNotQ))
    case ConstantSymbol(T) => Some(Bin(Nand, NandNotP, P))
    case ConstantSymbol(F) => Some(Bin(Nand, Bin(Nand, NandNotP, P), Bin(Nand, NandNotP, P)))
    case BinarySymbol(Xor) => Some(Bin(Nand, Bin(Nand, NandNotP, Q), Bin(Nand, P, NandNotQ)))
    case BinarySymbol(Iff) => Some(Bin(Nand, Bin(Nand, P, Q), Bin(Nand, NandNotP, NandNotQ)))
    case BinarySymbol(Nand) => Some(Bin(Nand, P, Q))
    case BinarySymbol(Nor) => Some(Bin(Nand, Bin(Nand, NandNotP, NandNotQ), Bin(Nand, NandNotP, NandNotQ)))
  }

  /** Each of the ten entries, checked on its four truth-table rows. */
  lemma NandTableEntry(s: Symbol)
    ensures EntryChecked(NandTable, NandBasis, {"p"}, s)
  {
    match s
    case ConstantSymbol(T) =>
    case ConstantSymbol(F) =>
    case NotSymbol =>
    case BinarySymbol(And) =>
    case BinarySymbol(Or) =>
    case BinarySymbol(Implies) =>
    case BinarySymbol(Iff) =>
    case BinarySymbol(Xor) =>
    case BinarySymbol(Nand) =>
    case BinarySymbol(Nor) =>
  }

  lemma NandTableValid()
    ensures ValidTable(NandTable, NandBasis, {"p"})
  {
    forall s ensures EntryChecked(NandTable, NandBasis, {"p"}, s) {
      NandTableEntry(s);
    }
    ValidFromEntries(NandTable, NandBasis, {"p"});
  }

  function ToNand(f: Formula): (r: Formula)
    ensures forall v :: Eval(r, v) == Eval(f, v)
    ensures Operators(r) <= NandBasis
    ensures Variables(f) <= Variables(r) <= Variables(f) + {"p"}
    ensures Operators(f) <= NandBasis ==> r == f
  {
    NandTableValid();
    ConvertWithValidTable(f, NandTable, NandBasis, {"p"});
    SubstituteOperators(f, NandTable)
  }

  /* ---------------------------------------------------------------------
     Basis {->, ~}
     --------------------------------------------------------------------- */

  const ImpliesNotBasis: set<Symbol> := {BinarySymbol(Implies), NotSymbol}

  function ImpliesNotTable(s: Symbol): Option<Formula>
  {
    match s
    case NotSymbol => Some(Not(P))
    case BinarySymbol(Implies) => Some(Bin(Implies, P, Q))
    case BinarySymbol(Or) => Some(Bin(Implies, Not(P), Q))
    case BinarySymbol(And) => Some(Not(Bin(Implies, P, Not(Q))))
    case BinarySymbol(Iff) => Some(Not(Bin(Implies, Bin(Implies, P, Q), Not(Bin(Implies, Q, P)))))
    case BinarySymbol(Xor) => Some(Bin(Implies, Bin(Implies, P, Q), Not(Bin(Implies, Q, P))))
    case BinarySymbol(Nand) => Some(Bin(Implies, P, Not(Q)))
    case BinarySymbol(Nor) => Some(Not(Bin(Implies, Not(P), Q)))
    case ConstantSymbol(T) => Some(Bin(Implies, P, P))
    case ConstantSymbol(F) => Some(Not(Bin(Implies, P, P)))
  }

  /** Each of the ten entries, checked on its four truth-table rows. */
  lemma ImpliesNotTableEntry(s: Symbol)
    ensures EntryChecked(ImpliesNotTable, ImpliesNotBasis, {"p"}, s)
  {
    match s
    case ConstantSymbol(T) =>
    case ConstantSymbol(F) =>
    case NotSymbol =>
    case BinarySymbol(And) =>
    case BinarySymbol(Or) =>
    case BinarySymbol(Implies) =>
    case BinarySymbol(Iff) =>
    case BinarySymbol(Xor) =>
    case BinarySymbol(Nand) =>
    case BinarySymbol(Nor) =>
  }

  lemma ImpliesNotTableValid()
    ensures ValidTable(ImpliesNotTable, ImpliesNotBasis, {"p"})
  {
    forall s ensures EntryChecked(ImpliesNotTable, ImpliesNotBasis, {"p"}, s) {
      ImpliesNotTableEntry(s);
    }
    ValidFromEntries(ImpliesNotTable, ImpliesNotBasis, {"p"});
  }

  function ToImpliesNot(f: Formula): (r: Formula)
    ensures forall v :: Eval(r, v) == Eval(f, v)
    ensures Operators(r) <= ImpliesNotBasis
    ensures Variables(f) <= Variables(r) <= Variables(f) + {"p"}
    ensures Operators(f) <= ImpliesNotBasis ==> r == f
  {
    ImpliesNotTableValid();
    ConvertWithValidTable(f, ImpliesNotTable, ImpliesNotBasis, {"p"});
    SubstituteOperators(f, ImpliesNotTable)
  }

  /* ---------------------------------------------------------------------
     Basis {->, F}
     --------------------------------------------------------------------- */

  const ImpliesFalseBasis: set<Symbol> := {BinarySymbol(Implies), ConstantSymbol(F)}

  function ImpliesFalseTable(s: Symbol): Option<Formula>
  {
    match s
    case ConstantSymbol(F) => Some(Lit(F))
    case BinarySymbol(Implies) => Some(Bin(Implies, P, Q))
    case NotSymbol => Some(Bin(Implies, P, Lit(F)))
    case ConstantSymbol(T) => Some(Bin(Implies, Lit(F), Lit(F)))
    case BinarySymbol(Or) => Some(Bin(Implies, Bin(Implies, P, Lit(F)), Q))
    case BinarySymbol(And) => Some(Bin(Implies, Bin(Implies, P, Bin(Implies, Q, Lit(F))), Lit(F)))
    case BinarySymbol(Nand) => Some(Bin(Implies, P, Bin(Implies, Q, Lit(F))))
    case BinarySymbol(Nor) => Some(Bin(Implies, Bin(Implies, Bin(Implies, P, Lit(F)), Q), Lit(F)))
    case BinarySymbol(Iff) =>
      Some(Bin(Implies, Bin(Implies, Bin(Implies, P, Q), Bin(Implies, Bin(Implies, Q, P), Lit(F))), Lit(F)))
    case BinarySymbol(Xor) => Some(Bin(Implies, Bin(Implies, P, Q), Bin(Implies, Bin(Implies, Q, P), Lit(F))))
  }

  /** Each of the ten entries, checked on its four truth-table rows. */
  lemma ImpliesFalseTableEntry(s: Symbol)
    ensures EntryChecked(ImpliesFalseTable, ImpliesFalseBasis, {}, s)
  {
    match s
    case ConstantSymbol(T) =>
    case ConstantSymbol(F) =>
    case NotSymbol =>
    case BinarySymbol(And) =>
    case BinarySymbol(Or) =>
    case BinarySymbol(Implies) =>
    case BinarySymbol(Iff) =>
    case BinarySymbol(Xor) =>
    case BinarySymbol(Nand) =>
    case BinarySymbol(Nor) =>
  }

  lemma ImpliesFalseTableValid()
    ensures ValidTable(ImpliesFalseTable, ImpliesFalseBasis, {})
  {
    forall s ensures EntryChecked(ImpliesFalseTable, ImpliesFalseBasis, {}, s) {
      ImpliesFalseTableEntry(s);
    }
    ValidFromEntries(ImpliesFalseTable, ImpliesFalseBasis, {});
  }

  /** Every template of this table is closed apart from its placeholders, so
      the conversion introduces no variable at all. */
  function ToImpliesFalse(f: Formula): (r: Formula)
    ensures forall v :: Eval(r, v) == Eval(f, v)
    ensures Operators(r) <= ImpliesFalseBasis
    ensures Variables(r) == Variables(f)
    ensures Operators(f) <= ImpliesFalseBasis ==> r == f
  {
    ImpliesFalseTableValid();
    ConvertWithValidTable(f, ImpliesFalseTable, ImpliesFalseBasis, {});
    SubstituteOperators(f, ImpliesFalseTable)
  }

  /* ---------------------------------------------------------------------
     Identity entries
     --------------------------------------------------------------------- */

  /** The identity entry of the nand table rebuilds a nand node with only its
      operands converted; the rebuilt node is not converted again. */
  lemma NandIdentityEntry(a: Formula, b: Formula)
    ensures ToNand(Bin(Nand, a, b)) == Bin(Nand, ToNand(a), ToNand(b))
  {
    IdentityEntryRebuilds(Bin(Nand, a, b), NandTable);
  }

  /** The identity entries of the implies-not table rebuild negation and
      implication nodes with only their operands converted. */
  lemma ImpliesNotIdentityEntries(a: Formula, b: Formula)
    ensures ToImpliesNot(Not(a)) == Not(ToImpliesNot(a))
    ensures ToImpliesNot(Bin(Implies, a, b)) == Bin(Implies, ToImpliesNot(a), ToImpliesNot(b))
  {
    IdentityEntryRebuilds(Not(a), ImpliesNotTable);
    IdentityEntryRebuilds(Bin(Implies, a, b), ImpliesNotTable);
  }

  /** The identity entries of the implies-false table keep the constant `F`
      and rebuild implication nodes with only their operands converted. */
  lemma ImpliesFalseIdentityEntries(a: Formula, b: Formula)
    ensures ToImpliesFalse(Lit(F)) == Lit(F)
    ensures ToImpliesFalse(Bin(Implies, a, b)) == Bin(Implies, ToImpliesFalse(a), ToImpliesFalse(b))
  {
    IdentityEntryRebuilds(Lit(F), ImpliesFalseTable);
    IdentityEntryRebuilds(Bin(Implies, a, b), ImpliesFalseTable);
  }
}
