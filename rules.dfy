/**
 * Splitting the parsed thymesheet rules into attribute rules and element (DOM-modifier) rules:
 * ThymesheetPreprocessor.getDOMModifier and extractDOMModifications.
 */
module Rules {
  import opened Wrappers

  /** A declaration block: property names with their values, in source order. */
  type Style = seq<(string, string)>

  /** A parsed CSS style rule: the selector text and the declaration block. */
  datatype CssRule = CssRule(selectorText: string, style: Style)

  /**
   * The collaborators this step calls and whose code is not part of this model:
   * PseudoClass.lastPseudoClassFromSelector, PseudoClass.getName,
   * ElementRuleFactory.isDOMModifierPsuedoElement and ElementRuleFactory.createElementRule (with
   * CSSUtil.asMap applied to the style). A PseudoClass object is of the opaque type P: the factory
   * sees only it and the declarations, so whatever it learns of the selector comes through P.
   * The factory builds an element rule of type E or rejects the rule with a message.
   */
  datatype ElementRuleFactory<!P, E> = ElementRuleFactory(
    lastPseudoClassFromSelector: string -> P,
    getName: P -> string,
    isDOMModifierPseudoElement: string -> bool,
    createElementRule: (P, Style) -> Result<E, string>)

  /** The selector's last pseudo-class when it names a DOM modifier, None (null) otherwise. */
  function GetDOMModifier<P, E>(f: ElementRuleFactory<P, E>, selectorText: string): (r: Option<P>)
    ensures r.Some? <==> f.isDOMModifierPseudoElement(f.getName(f.lastPseudoClassFromSelector(selectorText)))
    ensures r.Some? ==> r.value == f.lastPseudoClassFromSelector(selectorText)
  {
    var pseudoClass := f.lastPseudoClassFromSelector(selectorText);
    if f.isDOMModifierPseudoElement(f.getName(pseudoClass)) then Some(pseudoClass) else None
  }

  predicate IsModifierRule<P, E>(f: ElementRuleFactory<P, E>, rule: CssRule) {
    GetDOMModifier(f, rule.selectorText).Some?
  }

  /** What the factory makes of a modifier rule. */
  function CreateFor<P, E>(f: ElementRuleFactory<P, E>, rule: CssRule): Result<E, string>
    requires IsModifierRule(f, rule)
  {
    f.createElementRule(GetDOMModifier(f, rule.selectorText).value, rule.style)
  }

  /** The rules that stay attribute rules, in their original order. */
  function Kept<P, E>(f: ElementRuleFactory<P, E>, rules: seq<CssRule>): (r: seq<CssRule>)
    ensures |r| <= |rules|
    decreases |rules|
  {
    if rules == [] then []
    else
      var init, last := rules[..|rules| - 1], rules[|rules| - 1];
      Kept(f, init) + (if IsModifierRule(f, last) then [] else [last])
  }

  /** The rules that become element rules, in their original order. */
  function ModifierRules<P, E>(f: ElementRuleFactory<P, E>, rules: seq<CssRule>): (r: seq<CssRule>)
    ensures |r| <= |rules|
    decreases |rules|
  {
    if rules == [] then []
    else
      var init, last := rules[..|rules| - 1], rules[|rules| - 1];
      ModifierRules(f, init) + (if IsModifierRule(f, last) then [last] else [])
  }

  /** The positions, in increasing order, of the rules whose classification is `modifier`. */
  ghost function Positions<P, E>(f: ElementRuleFactory<P, E>, rules: seq<CssRule>, modifier: bool): (pos: seq<nat>)
    ensures forall k :: 0 <= k < |pos| ==> pos[k] < |rules| && IsModifierRule(f, rules[pos[k]]) == modifier
    ensures forall k, l :: 0 <= k < l < |pos| ==> pos[k] < pos[l]
    ensures forall j :: 0 <= j < |rules| && IsModifierRule(f, rules[j]) == modifier ==> j in pos
    decreases |rules|
  {
    if rules == [] then []
    else
      var init := rules[..|rules| - 1];
      var p := Positions(f, init, modifier);
      assert forall j :: 0 <= j < |init| ==> init[j] == rules[j];
      if IsModifierRule(f, rules[|rules| - 1]) == modifier then p + [|rules| - 1] else p
  }

  /** The factory's rejection of a modifier rule: the rule's position and the exception's message. */
  datatype Malformed = Malformed(index: nat, message: string)

  /**
   * The element rules made from the modifier rules, left to right, or the first rejection.
   */
  function CreateElementRules<P, E>(f: ElementRuleFactory<P, E>, rules: seq<CssRule>): (r: Result<seq<E>, Malformed>)
    ensures r.Success? ==> |r.value| <= |rules|
    ensures r.Failure? ==> r.error.index < |rules|
    decreases |rules|
  {
    if rules == [] then Success([])
    else
      var init, last := rules[..|rules| - 1], rules[|rules| - 1];
      match CreateElementRules(f, init)
      case Failure(bad) => Failure(bad)
      case Success(created) =>
        if !IsModifierRule(f, last) then Success(created)
        else match CreateFor(f, last)
          case Failure(message) => Failure(Malformed(|rules| - 1, message))
          case Success(e) => Success(created + [e])
  }

  /** Every rule lands in exactly one of the two lists, as a multiset and by count. */
  lemma {:induction false} PartitionComplete<P, E>(f: ElementRuleFactory<P, E>, rules: seq<CssRule>)
    ensures |Kept(f, rules)| + |ModifierRules(f, rules)| == |rules|
    ensures multiset(Kept(f, rules)) + multiset(ModifierRules(f, rules)) == multiset(rules)
    decreases |rules|
  {
    if rules != [] {
      var init, last := rules[..|rules| - 1], rules[|rules| - 1];
      PartitionComplete(f, init);
      assert rules == init + [last];
    }
  }

  /**
   * Every kept rule is one of the input's non-modifier rules and every converted rule one of its
   * modifier rules; so no rule is both kept and converted.
   */
  lemma {:induction false} PartitionClassifies<P, E>(f: ElementRuleFactory<P, E>, rules: seq<CssRule>)
    ensures forall r :: r in Kept(f, rules) ==> r in rules && !IsModifierRule(f, r)
    ensures forall r :: r in ModifierRules(f, rules) ==> r in rules && IsModifierRule(f, r)
    ensures forall r :: !(r in Kept(f, rules) && r in ModifierRules(f, rules))
    decreases |rules|
  {
    if rules != [] {
      var init := rules[..|rules| - 1];
      PartitionClassifies(f, init);
      assert rules == init + [rules[|rules| - 1]];
    }
  }

  /** The kept rules are exactly the attribute rules of the input, in their original relative order. */
  lemma {:induction false} KeptInOrder<P, E>(f: ElementRuleFactory<P, E>, rules: seq<CssRule>)
    ensures |Kept(f, rules)| == |Positions(f, rules, false)|
    ensures forall k :: 0 <= k < |Kept(f, rules)| ==> Kept(f, rules)[k] == rules[Positions(f, rules, false)[k]]
    decreases |rules|
  {
    if rules != [] {
      var init := rules[..|rules| - 1];
      KeptInOrder(f, init);
      assert forall j :: 0 <= j < |init| ==> init[j] == rules[j];
    }
  }

  /** The converted rules are exactly the modifier rules of the input, in their original relative order. */
  lemma {:induction false} ModifierRulesInOrder<P, E>(f: ElementRuleFactory<P, E>, rules: seq<CssRule>)
    ensures |ModifierRules(f, rules)| == |Positions(f, rules, true)|
    ensures forall k :: 0 <= k < |ModifierRules(f, rules)| ==>
      ModifierRules(f, rules)[k] == rules[Positions(f, rules, true)[k]]
    decreases |rules|
  {
    if rules != [] {
      var init := rules[..|rules| - 1];
      ModifierRulesInOrder(f, init);
      assert forall j :: 0 <= j < |init| ==> init[j] == rules[j];
    }
  }

  /** On success there is one element rule per modifier rule, made by the factory from it, in source order. */
  lemma {:induction false} OneElementRulePerModifierRule<P, E>(f: ElementRuleFactory<P, E>, rules: seq<CssRule>)
    requires CreateElementRules(f, rules).Success?
    ensures var created, mods := CreateElementRules(f, rules).value, ModifierRules(f, rules);
      |created| == |mods| &&
      forall k :: 0 <= k < |mods| ==> IsModifierRule(f, mods[k]) && CreateFor(f, mods[k]) == Success(created[k])
    decreases |rules|
  {
    if rules != [] {
      OneElementRulePerModifierRule(f, rules[..|rules| - 1]);
    }
  }

  /**
   * A rejection names the first modifier rule the factory refuses: every modifier rule
   * before it was accepted.
   */
  lemma {:induction false} RejectionIsFirstMalformed<P, E>(f: ElementRuleFactory<P, E>, rules: seq<CssRule>)
    requires CreateElementRules(f, rules).Failure?
    ensures var bad := CreateElementRules(f, rules).error;
      bad.index < |rules| && IsModifierRule(f, rules[bad.index]) &&
      CreateFor(f, rules[bad.index]) == Failure(bad.message) &&
      CreateElementRules(f, rules[..bad.index]).Success?
    decreases |rules|
  {
    var init := rules[..|rules| - 1];
    if CreateElementRules(f, init).Failure? {
      RejectionIsFirstMalformed(f, init);
      var bad := CreateElementRules(f, init).error;
      assert init[..bad.index] == rules[..bad.index];
      assert init[bad.index] == rules[bad.index];
    } else {
      assert rules[..|rules| - 1] == init;
    }
  }

  /** The factory accepts the whole list exactly when it accepts every modifier rule in it. */
  lemma {:induction false} CreationSucceedsIffAllAccepted<P, E>(f: ElementRuleFactory<P, E>, rules: seq<CssRule>)
    ensures CreateElementRules(f, rules).Success? <==>
      forall j :: 0 <= j < |rules| && IsModifierRule(f, rules[j]) ==> CreateFor(f, rules[j]).Success?
    decreases |rules|
  {
    if rules != [] {
      var init := rules[..|rules| - 1];
      CreationSucceedsIffAllAccepted(f, init);
      assert forall j :: 0 <= j < |init| ==> init[j] == rules[j];
    }
  }

  /** Once a rejection has happened, later rules do not change the outcome. */
  lemma {:induction false} RejectionPersists<P, E>(f: ElementRuleFactory<P, E>, rules: seq<CssRule>, more: seq<CssRule>)
    requires CreateElementRules(f, rules).Failure?
    ensures CreateElementRules(f, rules + more) == CreateElementRules(f, rules)
    decreases |more|
  {
    if more != [] {
      var init := more[..|more| - 1];
      RejectionPersists(f, rules, init);
      assert (rules + more)[..|rules + more| - 1] == rules + init;
    } else {
      assert rules + more == rules;
    }
  }

  /** Extending a prefix by one rule extends the kept rules by that rule exactly when it is not a modifier rule. */
  lemma KeptStep<P, E>(f: ElementRuleFactory<P, E>, rules: seq<CssRule>, k: nat)
    requires k < |rules|
    ensures Kept(f, rules[..k + 1]) == Kept(f, rules[..k]) + (if IsModifierRule(f, rules[k]) then [] else [rules[k]])
  {
    assert rules[..k + 1][..k] == rules[..k];
  }

  /** Extending an accepted prefix by one rule: the factory's answer for that rule decides. */
  lemma CreateStep<P, E>(f: ElementRuleFactory<P, E>, rules: seq<CssRule>, k: nat, created: seq<E>)
    requires k < |rules|
    requires CreateElementRules(f, rules[..k]) == Success(created)
    ensures CreateElementRules(f, rules[..k + 1]) ==
      if !IsModifierRule(f, rules[k]) then Success(created)
      else match CreateFor(f, rules[k])
        case Failure(message) => Failure(Malformed(k, message))
        case Success(e) => Success(created + [e])
  {
    assert rules[..k + 1][..k] == rules[..k];
  }

  /**
   * One step of the walk over a modifier rule the factory accepts: removing it, at the end of the
   * kept part, leaves the kept rules of the longer prefix followed by the unwalked rest.
   */
  lemma WalkRemoves<P, E>(f: ElementRuleFactory<P, E>, original: seq<CssRule>, k: nat, current: seq<CssRule>)
    requires k < |original| && IsModifierRule(f, original[k])
    requires current == Kept(f, original[..k]) + original[k..]
    ensures var i := |Kept(f, original[..k])|;
      i < |current| && |Kept(f, original[..k + 1])| == i &&
      current[..i] + current[i + 1..] == Kept(f, original[..k + 1]) + original[k + 1..]
  {
    KeptStep(f, original, k);
    var i := |Kept(f, original[..k])|;
    assert current[..i] == Kept(f, original[..k]);
    assert current[i + 1..] == original[k + 1..];
  }

  /** One step of the walk over a rule that is not a modifier rule: the list is unchanged and the kept part grows by it. */
  lemma WalkKeeps<P, E>(f: ElementRuleFactory<P, E>, original: seq<CssRule>, k: nat, current: seq<CssRule>)
    requires k < |original| && !IsModifierRule(f, original[k])
    requires current == Kept(f, original[..k]) + original[k..]
    ensures current == Kept(f, original[..k + 1]) + original[k + 1..]
    ensures |Kept(f, original[..k + 1])| == |Kept(f, original[..k])| + 1
  {
    KeptStep(f, original, k);
    assert original[k..] == [original[k]] + original[k + 1..];
  }

  /** The rule list that getRuleList returns and that the partition edits in place. */
  class AttributeRuleList {
    var rules: seq<CssRule>

    constructor (rules: seq<CssRule>)
      ensures this.rules == rules
    {
      this.rules := rules;
    }

    /** Iterator.remove on the element at index i. */
    method Remove(i: nat)
      requires i < |rules|
      modifies this
      ensures rules == old(rules)[..i] + old(rules)[i + 1..]
    {
      rules := rules[..i] + rules[i + 1..];
    }
  }

  /**
   * extractDOMModifications: walks the list; each modifier rule is handed to the factory, the
   * element rule is appended to the result and the rule is removed from the list. A rule the
   * factory rejects aborts the walk with that rule and all later ones still in the list.
   */
  method ExtractDOMModifications<P, E>(f: ElementRuleFactory<P, E>, ruleList: AttributeRuleList)
    returns (r: Result<seq<E>, string>)
    modifies ruleList
    ensures match CreateElementRules(f, old(ruleList.rules))
      case Success(created) =>
        r == Success(created) && ruleList.rules == Kept(f, old(ruleList.rules))
      case Failure(bad) =>
        r == Failure(bad.message) &&
        bad.index < |old(ruleList.rules)| &&
        ruleList.rules == Kept(f, old(ruleList.rules)[..bad.index]) + old(ruleList.rules)[bad.index..]
  {
    ghost var original := ruleList.rules;
    var modifierRules: seq<E> := [];
    var i := 0;
    ghost var k := 0;
    while i < |ruleList.rules|
      invariant 0 <= k <= |original|
      invariant i == |Kept(f, original[..k])|
      invariant ruleList.rules == Kept(f, original[..k]) + original[k..]
      invariant CreateElementRules(f, original[..k]) == Success(modifierRules)
      decreases |original| - k
    {
      var rule := ruleList.rules[i];
      assert rule == original[k];
      var pseudoModifier := GetDOMModifier(f, rule.selectorText);
      if pseudoModifier.Some? {
        var modifierRule := f.createElementRule(pseudoModifier.value, rule.style);
        if modifierRule.Failure? {
          assert CreateElementRules(f, original) == Failure(Malformed(k, modifierRule.error)) by {
            CreateStep(f, original, k, modifierRules);
            RejectionPersists(f, original[..k + 1], original[k + 1..]);
            assert original[..k + 1] + original[k + 1..] == original;
          }
          return Failure(modifierRule.error);
        }
        assert CreateElementRules(f, original[..k + 1]) == Success(modifierRules + [modifierRule.value]) by {
          CreateStep(f, original, k, modifierRules);
        }
        modifierRules := modifierRules + [modifierRule.value];
        assert |Kept(f, original[..k + 1])| == i &&
          ruleList.rules[..i] + ruleList.rules[i + 1..] == Kept(f, original[..k + 1]) + original[k + 1..] by {
          WalkRemoves(f, original, k, ruleList.rules);
        }
        ruleList.Remove(i);
      } else {
        assert CreateElementRules(f, original[..k + 1]) == Success(modifierRules) by {
          CreateStep(f, original, k, modifierRules);
        }
        assert |Kept(f, original[..k + 1])| == i + 1 &&
          ruleList.rules == Kept(f, original[..k + 1]) + original[k + 1..] by {
          WalkKeeps(f, original, k, ruleList.rules);
        }
        i := i + 1;
      }
      k := k + 1;
    }
    assert original[..k] == original;
    return Success(modifierRules);
  }
}
