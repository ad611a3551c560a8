# Basis conversion of propositional formulas

A Dafny model of `propositions/operators.py`. That file provides five conversions: `to_not_and_or`, `to_not_and`, `to_nand`, `to_implies_not` and `to_implies_false`. Each one rewrites a propositional formula so that it uses only one restricted set of operators and constants (its basis). Each conversion builds a fixed substitution map and makes one call to `Formula.substitute_operators`. The map takes every symbol outside the basis to a template written over the placeholders `p` and `q`.

The formula class, the substitution engine and the evaluator live in `propositions/syntax.py` and `propositions/semantics.py`. Those files are not part of this model, so they are defined minimally here:

- `wrappers.dfy`, module `Wrappers`: the `Option` returned by a map lookup.
- `syntax.dfy`, module `Syntax`: the `Formula` tree, with variables, the constants `T` and `F`, negation `~` and the binary operators `&`, `|`, `->`, `<->`, `+`, `-&` and `-|`. It also defines:
  - `Variables` and `Operators`, matching the methods `variables()` and `operators()`;
  - variable substitution (`SubstituteVariables`);
  - the operator-substitution engine (`SubstituteOperators`), with its syntactic lemmas.
- `semantics.dfy`, module `Semantics`: `Eval` under an assignment, what it means for a template to be correct, and the theorem that a pass with correct templates keeps every truth value.
- `conversions.dfy`, module `Conversions`: the five tables, copied template by template, their finite checks, and the five conversions with their contracts.

A substitution map is a function `Symbol -> Option<Formula>`. `Some(t)` means the symbol is a key with template `t`. Template correctness is stated semantically: `t` agrees with symbol `s` when, under every assignment, `t` evaluates like `s` applied to `p` and `q`. A template that mentions only `p` and `q` is proved correct from its four truth-table rows (`AgreesFromTruthTable`). Every entry of every table is checked on those four rows.

The engine makes a single pass. It first converts the operands. If the root symbol is a key, it instantiates the template by replacing `p` (and `q`) at the same time with the converted operands, and it does not convert the result again. A constant that is a key becomes its template unchanged. The tables depend on this. Several entries map a symbol to itself (`'-&'` at operators.py:93, `'~'` and `'->'` at :112-113, `'F'` and `'->'` at :141-142). An engine that converted each instantiated template again would never stop on those entries. The model therefore follows the single pass. It does not follow a reading of the engine in which instantiated templates are converted again.

Every conversion is proved to do four things:
- keep the truth value of its input under every assignment;
- use only its basis;
- keep every variable of its input and add at most the variable `p`, or no variable at all for `to_implies_false`;
- return unchanged any input already written in its basis.

For three of the table properties, the engine-level lemmas also prove the converse: template correctness (`SoundIff`), landing in the basis (`WithinBasisIff`) and leaving basis formulas unchanged (`FixesBasisIff`). A table that fails one of these three has some input on which the pass goes wrong.

Assignments are total (`string -> bool`). The templates for `T` and `F` in four of the tables contain a literal `p` (for example `(p|~p)` at operators.py:31). So the result can mention `p` even when the input does not. Its truth value does not depend on `p`. A model that gives values only to the input's variables cannot evaluate such a result, so the equivalence is stated for total assignments.

## Model

| member | source | states |
|---|---|---|
| Syntax.SubstituteOperatorsCanonical | propositions/operators.py:34 | converting a symbol applied to `p` and `q` gives exactly its template, or itself when it is not a key, so a template is instantiated once and never re-converted |
| Syntax.SubstituteOperatorsWithinBasis | propositions/operators.py:13-34 | if the keys cover every symbol outside a basis and every template is written in the basis, every output of the pass uses the basis only |
| Syntax.WithinBasisIff | propositions/operators.py:13-34 | coverage of the non-basis symbols plus templates written in the basis is necessary as well as sufficient for every output to lie in the basis |
| Syntax.IdentityEntryRebuilds | propositions/operators.py:93 | an identity entry rebuilds its node with only its converted operands, and an identity entry for a constant keeps the constant |
| Syntax.SubstituteOperatorsFixesBasis | propositions/operators.py:111-113 | when every basis symbol is either not a key or an identity entry, a formula already in the basis is returned unchanged |
| Syntax.FixesBasisIff | propositions/operators.py:140-142 | the pass leaves every basis formula unchanged exactly when each basis symbol is a non-key or an identity entry |
| Syntax.SubstituteOperatorsVariables | propositions/operators.py:31-32 | when each template uses the placeholders its symbol binds and adds only variables from a given set, the output keeps all input variables and adds only variables from that set |
| Semantics.AgreesFromTruthTable | propositions/operators.py:25-33 | a template over `p` and `q` that matches its symbol on the four truth-table rows matches it under every assignment |
| Semantics.SubstituteOperatorsPreservesEval | propositions/operators.py:20-23 | a pass whose templates all agree with their symbols gives, under every assignment, the input's truth value |
| Semantics.SoundIff | propositions/operators.py:20-34 | templates that agree with their symbols are necessary as well as sufficient for a pass to preserve every formula's truth value |
| Conversions.ValidFromEntries | propositions/operators.py:25-33 | a table whose every entry passes the finite check is correct, covers everything outside the basis, stays in the basis, keeps the basis and uses its placeholders |
| Conversions.ConvertWithValidTable | propositions/operators.py:20-34 | a pass with a valid table preserves every truth value, lands in the basis, keeps the input's variables, adds only the allowed extra ones, and fixes any formula already in the basis |
| Conversions.NotAndOrTableEntry | propositions/operators.py:25-33 | each `to_not_and_or` template matches its operator on all four rows, uses only `~`, `&`, `|`, `p` and `q`, and every symbol outside the basis is a key |
| Conversions.NotAndOrTableValid | propositions/operators.py:25-33 | the `to_not_and_or` table is valid for basis `~`, `&`, `|`, with `p` as the only variable it may add |
| Conversions.ToNotAndOr | propositions/operators.py:13-34 | the result has the input's truth table, uses only `~`, `&` and `|`, adds at most the variable `p`, and keeps a basis input unchanged |
| Conversions.NotAndTableEntry | propositions/operators.py:48-56 | each `to_not_and` template matches its operator on all four rows, uses only `~`, `&`, `p` and `q`, and every symbol outside the basis is a key |
| Conversions.NotAndTableValid | propositions/operators.py:48-56 | the `to_not_and` table is valid for basis `~`, `&`, with `p` as the only variable it may add |
| Conversions.ToNotAnd | propositions/operators.py:37-58 | the result has the input's truth table, uses only `~` and `&`, adds at most the variable `p`, and keeps a basis input unchanged |
| Conversions.NandBuildingBlocks | propositions/operators.py:76-78 | the helper templates `not_p`, `not_q` and `p_and_q` mean `~p`, `~q` and `(p&q)` |
| Conversions.NandTableEntry | propositions/operators.py:80-95 | each `to_nand` template, including the composed `F`, `+`, `<->` and nor templates, matches its operator on all four rows and uses only `-&` |
| Conversions.NandTableValid | propositions/operators.py:80-95 | the `to_nand` table is valid for basis `-&`, with `p` as the only variable it may add |
| Conversions.ToNand | propositions/operators.py:61-97 | the result has the input's truth table, uses only `-&`, adds at most the variable `p`, and keeps a basis input unchanged |
| Conversions.NandIdentityEntry | propositions/operators.py:93 | a `-&` node is rebuilt by `to_nand` with its operands converted and is not converted again |
| Conversions.ImpliesNotTableEntry | propositions/operators.py:111-125 | each `to_implies_not` template matches its operator on all four rows and uses only `->`, `~`, `p` and `q` |
| Conversions.ImpliesNotTableValid | propositions/operators.py:111-125 | the `to_implies_not` table is valid for basis `->`, `~`, with `p` as the only variable it may add |
| Conversions.ToImpliesNot | propositions/operators.py:100-126 | the result has the input's truth table, uses only `->` and `~`, adds at most the variable `p`, and keeps a basis input unchanged |
| Conversions.ImpliesNotIdentityEntries | propositions/operators.py:112-113 | `~` and `->` nodes are rebuilt by `to_implies_not` with their operands converted |
| Conversions.ImpliesFalseTableEntry | propositions/operators.py:140-153 | each `to_implies_false` template matches its operator on all four rows, with `~p` written as `(p->F)`, and uses only `->`, `F`, `p` and `q` |
| Conversions.ImpliesFalseTableValid | propositions/operators.py:140-153 | the `to_implies_false` table is valid for basis `->`, `F`, and may add no variable |
| Conversions.ToImpliesFalse | propositions/operators.py:129-154 | the result has the input's truth table, uses only `->` and `F`, has exactly the input's variables, and keeps a basis input unchanged |
| Conversions.ImpliesFalseIdentityEntries | propositions/operators.py:141-142 | `to_implies_false` keeps the constant `F` and rebuilds `->` nodes with their operands converted |

## Left out

- Parsing (`Formula.parse`) and the textual formula syntax: the model writes each template directly as a `Formula` value.
- The internals of `propositions/syntax.py` and `propositions/semantics.py` are not part of this model. `Formula`, `SubstituteVariables`, `SubstituteOperators` and `Eval` are defined here minimally. They are not claimed to match that unseen code line by line.
- Python dictionaries: a substitution map is a total function from symbols to `Option<Formula>`. Variable names can never be keys.
- Python models (dictionaries of variable values): evaluation is under total assignments. A result that mentions the literal `p` introduced by a `T` or `F` template can still be evaluated.
- Truth-table enumeration, tautology checking, printing and the module imports: plumbing outside the conversion logic.
- An engine variant that converts each instantiated template again: it would not terminate on the identity entries listed above.
