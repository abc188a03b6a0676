/** An ordered, first-match-wins table of keyword rules: the reference reading of an
    if/elif chain of substring tests. */
module Rules {
  import opened Text

  /** A rule fires when, for every clause, the text contains at least one of the
      clause's keywords; `reply` is what the chain answers when this rule wins. */
  datatype Rule = Rule(clauses: seq<seq<string>>, reply: string)

  predicate ContainsAny(text: string, keys: seq<string>) {
    exists k :: k in keys && Contains(text, k)
  }

  predicate Fires(rule: Rule, text: string) {
    forall c :: c in rule.clauses ==> ContainsAny(text, c)
  }

  /** Rule `k` fires and no earlier rule does. */
  ghost predicate FirstFiring(rules: seq<Rule>, text: string, k: nat) {
    k < |rules| && Fires(rules[k], text) && forall j :: 0 <= j < k ==> !Fires(rules[j], text)
  }

  ghost predicate NoneFires(rules: seq<Rule>, text: string) {
    forall j :: 0 <= j < |rules| ==> !Fires(rules[j], text)
  }

  /** Walks the table in order and answers with the reply of the first rule that fires,
      or `fallback` when none does. */
  function FirstMatch(rules: seq<Rule>, text: string, fallback: string): (r: string)
    ensures forall k: nat :: FirstFiring(rules, text, k) ==> r == rules[k].reply
    ensures NoneFires(rules, text) ==> r == fallback
    ensures r == fallback || exists k: nat :: k < |rules| && r == rules[k].reply
  {
    if rules == [] then fallback
    else if Fires(rules[0], text) then rules[0].reply
    else
      var r := FirstMatch(rules[1..], text, fallback);
      assert forall k: nat :: FirstFiring(rules, text, k) ==> k > 0 && FirstFiring(rules[1..], text, k - 1);
      assert r != fallback ==> exists k: nat :: k < |rules| - 1 && r == rules[1..][k].reply;
      r
  }

  /** A one-clause rule fires exactly when one of the clause's keywords is present. */
  lemma FiresOneClause(text: string, keys: seq<string>, reply: string)
    ensures Fires(Rule([keys], reply), text) <==> ContainsAny(text, keys)
  {
  }

  /** A two-clause rule fires exactly when both clauses are satisfied. */
  lemma FiresTwoClauses(text: string, keys1: seq<string>, keys2: seq<string>, reply: string)
    ensures Fires(Rule([keys1, keys2], reply), text) <==> ContainsAny(text, keys1) && ContainsAny(text, keys2)
  {
  }

  lemma ContainsAnyOne(text: string, a: string)
    ensures ContainsAny(text, [a]) <==> Contains(text, a)
  {
  }

  lemma ContainsAnyTwo(text: string, a: string, b: string)
    ensures ContainsAny(text, [a, b]) <==> Contains(text, a) || Contains(text, b)
  {
  }
}
