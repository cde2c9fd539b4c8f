/** First-match keyword classification: the shape shared by every normaliser
    of the source. Each rule lists keywords and the canonical key it yields;
    rules are tried in order, the first rule with a keyword contained in the
    input wins, and input matching no rule yields a default key. */
module Keywords {
  import opened Text

  datatype Rule = Rule(keywords: seq<string>, key: string)

  /** Some keyword of `rule` occurs in `s`. */
  predicate Fires(rule: Rule, s: string) {
    exists k :: 0 <= k < |rule.keywords| && Contains(s, rule.keywords[k])
  }

  /** The key of the first rule that fires on `s`, else `default`. */
  function FirstMatch(rules: seq<Rule>, s: string, default: string): (r: string)
    ensures r == default || exists i :: 0 <= i < |rules| && rules[i].key == r
    ensures (forall i :: 0 <= i < |rules| ==> !Fires(rules[i], s)) ==> r == default
  {
    if |rules| == 0 then default
    else if Fires(rules[0], s) then rules[0].key
    else
      assert forall i :: 1 <= i < |rules| ==> rules[i] == rules[1..][i - 1];
      FirstMatch(rules[1..], s, default)
  }

  /** `FirstMatch` yields a member of any set holding the default and every key. */
  lemma FirstMatchWithin(rules: seq<Rule>, s: string, default: string, keys: set<string>)
    requires default in keys
    requires forall i :: 0 <= i < |rules| ==> rules[i].key in keys
    ensures FirstMatch(rules, s, default) in keys
  {
  }

  /** The first rule that fires decides the result, whatever later rules say. */
  lemma {:induction false} FirstMatchFirstHit(rules: seq<Rule>, s: string, default: string, i: int)
    requires 0 <= i < |rules| && Fires(rules[i], s)
    requires forall j :: 0 <= j < i ==> !Fires(rules[j], s)
    ensures FirstMatch(rules, s, default) == rules[i].key
  {
    if i > 0 {
      assert !Fires(rules[0], s);
      forall j | 0 <= j < i - 1
        ensures !Fires(rules[1..][j], s)
      {
        assert rules[1..][j] == rules[j + 1];
      }
      FirstMatchFirstHit(rules[1..], s, default, i - 1);
    }
  }
}
