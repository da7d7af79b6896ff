/** The learned-rule list: new rules are stripped, blanks dropped, and
    anything already present is not added again. */
module RuleStore {
  import opened Wrappers
  import opened Strings

  /** `(r or "").strip()`: a missing rule counts as the empty string. */
  function Clean(r: Option<string>): string {
    Strip(r.GetOr(""))
  }

  function CleanAll(xs: seq<Option<string>>): (cs: seq<string>)
    ensures |cs| == |xs| && forall i | 0 <= i < |xs| :: cs[i] == Clean(xs[i])
  {
    seq(|xs|, i requires 0 <= i < |xs| => Clean(xs[i]))
  }

  /** The rule list after adding the cleaned rules `cs` to `rules`, one at a
      time. */
  function Added(rules: seq<string>, cs: seq<string>): seq<string>
    decreases |cs|
  {
    if cs == [] then rules
    else Added(if cs[0] != "" && cs[0] !in rules then rules + [cs[0]] else rules, cs[1..])
  }

  predicate NoDuplicates(s: seq<string>) {
    forall i, j | 0 <= i < j < |s| :: s[i] != s[j]
  }

  /** The first position of `x` in `cs`, or `|cs|`. */
  function FirstAt(cs: seq<string>, x: string): (k: nat)
    ensures k <= |cs|
    ensures k < |cs| ==> cs[k] == x
    ensures x !in cs[..k]
  {
    if cs == [] then 0
    else if cs[0] == x then 0
    else
      var k := FirstAt(cs[1..], x);
      assert cs[..k + 1] == [cs[0]] + cs[1..][..k];
      1 + k
  }

  class RuleStore {
    var path: string
    var rules: seq<string>

    /** `RuleStore()`: the default path and no rules. */
    constructor()
      ensures path == "memory/compiled_rules.json" && rules == []
    {
      path := "memory/compiled_rules.json";
      rules := [];
    }

    /** `add(new_rules)`. The local set mirrors the list's contents. */
    method Add(newRules: seq<Option<string>>)
      modifies this
      ensures rules == Added(old(rules), CleanAll(newRules))
      ensures path == old(path)
    {
      var s: set<string> := set r | r in rules;
      ghost var cs := CleanAll(newRules);
      var i := 0;
      while i < |newRules|
        invariant 0 <= i <= |newRules|
        invariant path == old(path)
        invariant forall x :: x in s <==> x in rules
        invariant Added(old(rules), cs) == Added(rules, cs[i..])
      {
        assert cs[i..][1..] == cs[i + 1..];
        var r := Clean(newRules[i]);
        assert r == cs[i..][0];
        if r != "" && r !in s {
          rules := rules + [r];
          s := s + {r};
        }
        i := i + 1;
      }
      assert cs[i..] == [];
    }
  }

  /** The old rules stay an unchanged prefix. */
  lemma {:induction false} AddedPrefix(rules: seq<string>, cs: seq<string>)
    ensures |Added(rules, cs)| >= |rules| && Added(rules, cs)[..|rules|] == rules
    decreases |cs|
  {
    if cs != [] {
      var next := if cs[0] != "" && cs[0] !in rules then rules + [cs[0]] else rules;
      AddedPrefix(next, cs[1..]);
      var a := Added(next, cs[1..]);
      assert a[..|rules|] == a[..|next|][..|rules|];
    }
  }

  /** Everything after the old rules is a non-blank input rule that the
      list did not already hold. */
  lemma {:induction false} AddedFresh(rules: seq<string>, cs: seq<string>, p: nat)
    requires |rules| <= p < |Added(rules, cs)|
    ensures Added(rules, cs)[p] != "" && Added(rules, cs)[p] !in rules && Added(rules, cs)[p] in cs
    decreases |cs|
  {
    var next := if cs[0] != "" && cs[0] !in rules then rules + [cs[0]] else rules;
    var a := Added(next, cs[1..]);
    assert Added(rules, cs) == a;
    if p < |next| {
      AddedPrefix(next, cs[1..]);
      assert a[p] == a[..|next|][p] == next[p] == cs[0];
    } else {
      AddedFresh(next, cs[1..], p);
    }
  }

  /** Every non-blank input rule is in the list afterwards. */
  lemma {:induction false} AddedContainsAll(rules: seq<string>, cs: seq<string>, i: nat)
    requires i < |cs| && cs[i] != ""
    ensures cs[i] in Added(rules, cs)
    decreases |cs|
  {
    var next := if cs[0] != "" && cs[0] !in rules then rules + [cs[0]] else rules;
    assert Added(rules, cs) == Added(next, cs[1..]);
    if i == 0 {
      assert cs[0] in next;
      AddedPrefix(next, cs[1..]);
      var a := Added(next, cs[1..]);
      assert a[..|next|] == next;
      var k :| 0 <= k < |next| && next[k] == cs[0];
      assert a[k] == cs[0];
    } else {
      assert cs[1..][i - 1] == cs[i];
      AddedContainsAll(next, cs[1..], i - 1);
    }
  }

  /** A duplicate-free list stays duplicate-free. */
  lemma {:induction false} AddedNoDuplicates(rules: seq<string>, cs: seq<string>)
    requires NoDuplicates(rules)
    ensures NoDuplicates(Added(rules, cs))
    decreases |cs|
  {
    if cs != [] {
      var next := if cs[0] != "" && cs[0] !in rules then rules + [cs[0]] else rules;
      assert NoDuplicates(next);
      AddedNoDuplicates(next, cs[1..]);
    }
  }

  /** Appended rules come in the order of their first appearance in the
      input. */
  lemma {:induction false} AddedInInputOrder(rules: seq<string>, cs: seq<string>, p: nat, q: nat)
    requires |rules| <= p < q < |Added(rules, cs)|
    ensures FirstAt(cs, Added(rules, cs)[p]) < FirstAt(cs, Added(rules, cs)[q])
    decreases |cs|
  {
    var next := if cs[0] != "" && cs[0] !in rules then rules + [cs[0]] else rules;
    var a := Added(next, cs[1..]);
    assert Added(rules, cs) == a;
    assert cs[0] == "" || cs[0] in next;
    AddedFresh(next, cs[1..], q);
    assert FirstAt(cs, a[q]) == 1 + FirstAt(cs[1..], a[q]);
    if p < |next| {
      AddedPrefix(next, cs[1..]);
      assert a[p] == a[..|next|][p] == next[p] == cs[0];
    } else {
      AddedFresh(next, cs[1..], p);
      AddedInInputOrder(next, cs[1..], p, q);
    }
  }

  /** Adding to a list that already holds every non-blank input rule
      changes nothing. */
  lemma {:induction false} AddedCovered(rules: seq<string>, cs: seq<string>)
    requires forall i | 0 <= i < |cs| && cs[i] != "" :: cs[i] in rules
    ensures Added(rules, cs) == rules
    decreases |cs|
  {
    if cs != [] {
      assert forall i | 0 <= i < |cs[1..]| :: cs[1..][i] == cs[i + 1];
      AddedCovered(rules, cs[1..]);
    }
  }

  /** `add(xs)` twice leaves the list `add(xs)` once leaves. */
  lemma AddedIdempotent(rules: seq<string>, cs: seq<string>)
    ensures Added(Added(rules, cs), cs) == Added(rules, cs)
  {
    forall i | 0 <= i < |cs| && cs[i] != ""
      ensures cs[i] in Added(rules, cs)
    {
      AddedContainsAll(rules, cs, i);
    }
    AddedCovered(Added(rules, cs), cs);
  }
}
