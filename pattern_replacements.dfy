/**
 * The proxy's routing table: an ordered, append-only list of (pattern, replacement) rules
 * in which the first rule whose pattern matches the whole input decides the result.
 */
module PatternReplacements {
  import opened Wrappers

  /**
   * A compiled java.util.regex.Pattern, seen through the two questions the routing table
   * asks of it: does it match the whole of a string (Matcher.matches), and what does
   * Matcher.replaceFirst(replacement) make of a string. The regex engine is not modelled.
   */
  datatype Regex = Regex(fullMatch: string -> bool, replaceFirst: (string, string) -> string)

  /** One routing rule (the class PR): a compiled pattern and its replacement template. */
  datatype Rule = Rule(pattern: Regex, replacement: string)

  /** PR.match: the input rewritten by the rule when the pattern matches all of it, else null. */
  function RuleMatch(r: Rule, src: string): Option<string> {
    if r.pattern.fullMatch(src) then Some(r.pattern.replaceFirst(src, r.replacement)) else None
  }

  /** The PR constructor: a null pattern, then a null replacement, is refused. */
  function NewRule(regex: Option<Regex>, replacement: Option<string>): (r: Result<Rule, JavaException>)
    ensures r.Ok? <==> regex.Some? && replacement.Some?
    ensures regex.None? ==> r == Err(IllegalArgument("null pattern not allowed"))
    ensures regex.Some? && replacement.None? ==> r == Err(IllegalArgument("null replacement not allowed"))
    ensures r.Ok? ==> r.value.pattern == regex.value && r.value.replacement == replacement.value
  {
    if regex.None? then Err(IllegalArgument("null pattern not allowed"))
    else if replacement.None? then Err(IllegalArgument("null replacement not allowed"))
    else Ok(Rule(regex.value, replacement.value))
  }

  /** Rule `i` is the first rule of `rules` whose pattern matches all of `src`. */
  predicate IsFirstMatching(rules: seq<Rule>, src: string, i: int) {
    && 0 <= i < |rules|
    && rules[i].pattern.fullMatch(src)
    && forall j :: 0 <= j < i ==> !rules[j].pattern.fullMatch(src)
  }

  /** PatternReplacements.match as a function of the rule list. */
  function FirstMatch(rules: seq<Rule>, src: string): Option<string> {
    if rules == [] then None
    else
      var res := RuleMatch(rules[0], src);
      if res.Some? then res else FirstMatch(rules[1..], src)
  }

  /** The result is the rewrite of the first rule, in insertion order, that fully matches. */
  lemma {:induction false} FirstMatchIsFirstRule(rules: seq<Rule>, src: string, i: int)
    requires IsFirstMatching(rules, src, i)
    ensures FirstMatch(rules, src) == Some(rules[i].pattern.replaceFirst(src, rules[i].replacement))
  {
    if i > 0 {
      FirstMatchIsFirstRule(rules[1..], src, i - 1);
    }
  }

  /** There is no result exactly when no rule matches the whole input. */
  lemma {:induction false} FirstMatchNoneIff(rules: seq<Rule>, src: string)
    ensures FirstMatch(rules, src).None? <==> forall j :: 0 <= j < |rules| ==> !rules[j].pattern.fullMatch(src)
  {
    if rules != [] {
      FirstMatchNoneIff(rules[1..], src);
      if FirstMatch(rules, src).None? {
        forall j | 0 <= j < |rules|
          ensures !rules[j].pattern.fullMatch(src)
        {
          if j > 0 {
            assert rules[j] == rules[1..][j - 1];
          }
        }
      }
    }
  }

  /**
   * Appending a rule never changes the result for an input an earlier rule already matches,
   * and the new rule is consulted only when none of them does.
   */
  lemma {:induction false} FirstMatchAppend(rules: seq<Rule>, r: Rule, src: string)
    ensures FirstMatch(rules + [r], src) ==
      if FirstMatch(rules, src).Some? then FirstMatch(rules, src) else RuleMatch(r, src)
  {
    if rules != [] {
      assert (rules + [r])[1..] == rules[1..] + [r];
      FirstMatchAppend(rules[1..], r, src);
    }
  }

  /** The routing table (class PatternReplacements); `prs` is its LinkedList of rules. */
  class PatternReplacements {
    var prs: seq<Rule>

    constructor ()
      ensures prs == []
    {
      prs := [];
    }

    /** addPatternReplacement: builds the rule, then appends it (List.add answers true). */
    method AddPatternReplacement(regex: Option<Regex>, replacement: Option<string>)
      returns (res: Result<bool, JavaException>)
      modifies this
      ensures NewRule(regex, replacement).Err? ==>
        res == Err(NewRule(regex, replacement).error) && prs == old(prs)
      ensures NewRule(regex, replacement).Ok? ==>
        res == Ok(true) && prs == old(prs) + [NewRule(regex, replacement).value]
    {
      var rule := NewRule(regex, replacement);
      if rule.Err? {
        return Err(rule.error);
      }
      prs := prs + [rule.value];
      res := Ok(true);
    }

    /** match: walks the rules in order and returns the first rule's non-null answer. */
    method Match(src: string) returns (res: Option<string>)
      ensures res == FirstMatch(prs, src)
    {
      var i := 0;
      while i < |prs|
        invariant 0 <= i <= |prs|
        invariant FirstMatch(prs, src) == FirstMatch(prs[i..], src)
      {
        assert prs[i..][1..] == prs[i + 1..];
        var r := RuleMatch(prs[i], src);
        if r.Some? {
          return r;
        }
        i := i + 1;
      }
      return None;
    }
  }
}
