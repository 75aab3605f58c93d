/**
 * `load_parser`: the label rules of the configured parsers that apply to the requested
 * rule sets, in definition order, each with its label function.
 */
module Rules {
  import opened Wrappers
  import opened Labels

  /** One rule as configured: a regular expression (kept as text) and a label template. */
  datatype RuleDef = RuleDef(pattern: string, template: Template)

  /** One parser definition: the rule sets it belongs to and its rules. */
  datatype ParserDef = ParserDef(sets: seq<string>, rules: seq<RuleDef>)

  /** A rule as the reader receives it: the pattern unchanged and the label function. */
  datatype Rule = Rule(pattern: string, labelFunction: seq<Option<string>> -> string)

  /** Whether one of the requested names is among the definition's sets. */
  predicate Active(def: ParserDef, sets: seq<string>) {
    exists s :: s in sets && s in def.sets
  }

  function Compile(r: RuleDef): Rule {
    Rule(r.pattern, MakeLabelFunction(r.template))
  }

  function CompileAll(rs: seq<RuleDef>): seq<Rule> {
    if rs == [] then [] else CompileAll(rs[..|rs| - 1]) + [Compile(rs[|rs| - 1])]
  }

  /** The rules of the active definitions, definition after definition, each in its own order. */
  function SelectRules(defs: seq<ParserDef>, sets: seq<string>): seq<Rule> {
    if defs == [] then []
    else
      var last := defs[|defs| - 1];
      SelectRules(defs[..|defs| - 1], sets) + (if Active(last, sets) then CompileAll(last.rules) else [])
  }

  /** `load_parser(parsers_def, sets)`, appending rule after rule to the parser. */
  method LoadParser(defs: seq<ParserDef>, sets: seq<string>) returns (parser: seq<Rule>)
    ensures parser == SelectRules(defs, sets)
  {
    parser := [];
    for i := 0 to |defs|
      invariant parser == SelectRules(defs[..i], sets)
    {
      var def := defs[i];
      assert defs[..i + 1][..i] == defs[..i];
      if Active(def, sets) {
        for j := 0 to |def.rules|
          invariant parser == SelectRules(defs[..i], sets) + CompileAll(def.rules[..j])
        {
          assert def.rules[..j + 1][..j] == def.rules[..j];
          parser := parser + [Compile(def.rules[j])];
        }
        assert def.rules[..|def.rules|] == def.rules;
      }
    }
    assert defs[..|defs|] == defs;
  }

  lemma {:induction false} CompileAllMembership(rs: seq<RuleDef>, r: Rule)
    ensures r in CompileAll(rs) <==> exists j :: 0 <= j < |rs| && r == Compile(rs[j])
  {
    if rs != [] {
      CompileAllMembership(rs[..|rs| - 1], r);
      if exists j :: 0 <= j < |rs| && r == Compile(rs[j]) {
        var j :| 0 <= j < |rs| && r == Compile(rs[j]);
        if j < |rs| - 1 {
          assert rs[..|rs| - 1][j] == rs[j];
        }
      }
    }
  }

  /**
   * A rule is selected exactly when it is the compiled form of a rule of a definition
   * whose sets share a name with the request: its pattern is the configured one and its
   * label function applies the configured template.
   */
  lemma {:induction false} SelectRulesMembership(defs: seq<ParserDef>, sets: seq<string>, r: Rule)
    ensures r in SelectRules(defs, sets) <==>
            exists i, j :: 0 <= i < |defs| && Active(defs[i], sets) && 0 <= j < |defs[i].rules|
                           && r == Compile(defs[i].rules[j])
  {
    if defs != [] {
      var init, last := defs[..|defs| - 1], defs[|defs| - 1];
      SelectRulesMembership(init, sets, r);
      CompileAllMembership(last.rules, r);
      if exists i, j :: 0 <= i < |defs| && Active(defs[i], sets) && 0 <= j < |defs[i].rules|
                        && r == Compile(defs[i].rules[j]) {
        var i, j :| 0 <= i < |defs| && Active(defs[i], sets) && 0 <= j < |defs[i].rules|
                    && r == Compile(defs[i].rules[j]);
        if i < |defs| - 1 {
          assert init[i] == defs[i];
        }
      }
      if r in SelectRules(init, sets) {
        var i, j :| 0 <= i < |init| && Active(init[i], sets) && 0 <= j < |init[i].rules|
                    && r == Compile(init[i].rules[j]);
        assert defs[i] == init[i];
      }
    }
  }

  /** An empty request selects no rule at all. */
  lemma {:induction false} SelectRulesEmptyRequest(defs: seq<ParserDef>)
    ensures SelectRules(defs, []) == []
  {
    if defs != [] {
      SelectRulesEmptyRequest(defs[..|defs| - 1]);
    }
  }

  /** Selection works definition by definition: the rules of two lists are those of each, in order. */
  lemma {:induction false} SelectRulesAppend(a: seq<ParserDef>, b: seq<ParserDef>, sets: seq<string>)
    ensures SelectRules(a + b, sets) == SelectRules(a, sets) + SelectRules(b, sets)
    decreases |b|
  {
    if b == [] {
      assert a + b == a;
    } else {
      var b' := b[..|b| - 1];
      assert (a + b)[..|a + b| - 1] == a + b';
      SelectRulesAppend(a, b', sets);
    }
  }
}
