/** Substring replacement as Rust's `str::replace` does it: left to right, matches do not overlap.

    `Rewrite` is a single pass that replaces whichever rule's pattern comes first. `Fusion` is the law that makes a
    chain of replacements comparable with a single pass. */
module Replacement {
  import opened Wrappers

  function Replace(s: string, pattern: string, substitute: string): string
    requires pattern != ""
  {
    if s == "" then ""
    else if pattern <= s then substitute + Replace(s[|pattern|..], pattern, substitute)
    else [s[0]] + Replace(s[1..], pattern, substitute)
  }

  /** `s.contains(pattern)` */
  predicate Contains(s: string, pattern: string) {
    pattern <= s || (s != "" && Contains(s[1..], pattern))
  }

  datatype Rule = Rule(from: string, to: string)

  /** The first rule whose pattern stands at the front of `s`. */
  function Pick(rules: seq<Rule>, s: string): (rule: Option<Rule>)
    ensures rule.Some? ==> rule.value in rules && rule.value.from <= s
    ensures rule.None? ==> forall q :: q in rules ==> !(q.from <= s)
  {
    if rules == [] then None
    else if rules[0].from <= s then Some(rules[0])
    else Pick(rules[1..], s)
  }

  lemma {:induction false} PickIs(rules: seq<Rule>, s: string, i: nat)
    requires i <= |rules| && forall j :: 0 <= j < i ==> !(rules[j].from <= s)
    requires i < |rules| ==> rules[i].from <= s
    ensures Pick(rules, s) == if i < |rules| then Some(rules[i]) else None
  {
    if 0 < i {
      PickIs(rules[1..], s, i - 1);
    }
  }

  ghost predicate Proper(rules: seq<Rule>) {
    forall q :: q in rules ==> q.from != "" && q.to != "" && q.to[0] == q.from[0]
  }

  /** One pass over `s` with all rules at once. */
  function Rewrite(s: string, rules: seq<Rule>): string
    requires Proper(rules)
  {
    if s == "" then ""
    else
      match Pick(rules, s)
      case Some(q) => q.to + Rewrite(s[|q.from|..], rules)
      case None => [s[0]] + Rewrite(s[1..], rules)
  }

  // ---------- Single facts about the two ----------

  lemma {:induction false} ReplaceAbsent(s: string, pattern: string, substitute: string)
    requires pattern != "" && !Contains(s, pattern)
    ensures Replace(s, pattern, substitute) == s
  {
    if s != "" {
      ReplaceAbsent(s[1..], pattern, substitute);
    }
  }

  lemma {:induction false} ReplaceSkips(block: string, rest: string, pattern: string, substitute: string)
    requires pattern != "" && pattern[0] !in block
    ensures Replace(block + rest, pattern, substitute) == block + Replace(rest, pattern, substitute)
  {
    if block == "" {
      assert block + rest == rest;
    } else {
      assert (block + rest)[1..] == block[1..] + rest;
      ReplaceSkips(block[1..], rest, pattern, substitute);
    }
  }

  lemma {:induction false} ContainsSkips(block: string, rest: string, pattern: string)
    requires pattern != "" && pattern[0] !in block
    ensures Contains(block + rest, pattern) == Contains(rest, pattern)
  {
    if block == "" {
      assert block + rest == rest;
    } else {
      assert (block + rest)[1..] == block[1..] + rest;
      ContainsSkips(block[1..], rest, pattern);
    }
  }

  /** No rule starts inside `word`. */
  ghost predicate Clear(rules: seq<Rule>, word: string)
    requires Proper(rules)
  {
    forall q :: q in rules ==> q.from[0] !in word
  }

  /** A word that no rule starts in is copied as it stands. */
  lemma {:induction false} RewriteCopies(word: string, rest: string, rules: seq<Rule>)
    requires Proper(rules) && Clear(rules, word)
    ensures Rewrite(word + rest, rules) == word + Rewrite(rest, rules)
  {
    if word == "" {
      assert word + rest == rest;
    } else {
      assert (word + rest)[1..] == word[1..] + rest;
      assert word[0] in word;
      RewriteCopies(word[1..], rest, rules);
    }
  }

  /** ... and it can only come from itself: a pass makes no new occurrence of it. */
  lemma {:induction false} RewriteInvents(word: string, s: string, rules: seq<Rule>)
    requires Proper(rules) && Clear(rules, word)
    ensures word <= Rewrite(s, rules) <==> word <= s
  {
    if word <= s {
      assert s == word + s[|word|..];
      RewriteCopies(word, s[|word|..], rules);
    }
    if word != "" && s != "" && word <= Rewrite(s, rules) {
      assert word[0] in word;
      assert Pick(rules, s).None?;
      assert Rewrite(s, rules)[1..] == Rewrite(s[1..], rules);
      RewriteInvents(word[1..], s[1..], rules);
    }
  }

  lemma PrefixStep(word: string, c: char, rest: string)
    requires word != ""
    ensures word <= [c] + rest <==> word[0] == c && word[1..] <= rest
    ensures word <= [c] + rest ==> rest == word[1..] + ([c] + rest)[|word|..]
  {
    var s := [c] + rest;
    assert s[0] == c && s[1..] == rest;
    if word[0] == c && word[1..] <= rest {
      assert word == [word[0]] + word[1..];
      assert s[..|word|] == [c] + rest[..|word| - 1];
    }
  }

  lemma Refold(word: string, rest: string)
    requires word != ""
    ensures [word[0]] + (word[1..] + rest) == word + rest && (word + rest)[|word|..] == rest
  {
  }

  /** The head of `word` may start a rule as long as none matches here. */
  lemma FrontIsKept(word: string, s: string, rules: seq<Rule>)
    requires Proper(rules) && word != "" && Clear(rules, word[1..])
    requires s != "" && Pick(rules, s).None?
    ensures word <= Rewrite(s, rules) <==> word <= s
    ensures word <= s ==> Rewrite(s, rules)[|word|..] == Rewrite(s[|word|..], rules)
  {
    var c, t := s[0], s[1..];
    assert s == [c] + t;
    RewriteInvents(word[1..], t, rules);
    PrefixStep(word, c, t);
    PrefixStep(word, c, Rewrite(t, rules));
    if word <= s {
      RewriteCopies(word[1..], s[|word|..], rules);
      Refold(word, Rewrite(s[|word|..], rules));
    }
  }

  /** Where `word` runs into the output of `q`, it either ends with that output's first letter or differs next. */
  predicate Parts(q: Rule, word: string)
    requires q.from != ""
  {
    |q.to| > 1 && forall i :: 0 <= i < |word| - 1 && word[i] == q.from[0] ==> word[i + 1] != q.to[1]
  }

  lemma SameSecond(a: string, b: string, s: string)
    requires b <= s
    ensures a <= s && |a| > 1 && |b| > 1 ==> a[0] == b[0] && a[1] == b[1]
  {
  }

  /** A word that parts from every output stands in the text already. */
  lemma {:induction false} RewriteReveals(word: string, s: string, rules: seq<Rule>)
    requires Proper(rules) && forall q :: q in rules ==> Parts(q, word)
    requires word <= Rewrite(s, rules)
    ensures word <= s
  {
    if word != "" && s != "" {
      match Pick(rules, s)
      case Some(q) =>
        assert Parts(q, word);
        SameSecond(word, q.to, Rewrite(s, rules));
      case None =>
        forall q | q in rules
          ensures Parts(q, word[1..])
        {
          assert Parts(q, word);
        }
        assert Rewrite(s, rules)[1..] == Rewrite(s[1..], rules);
        RewriteReveals(word[1..], s[1..], rules);
    }
  }

  // ---------- Fusion ----------

  /** What a later replacement of `pattern` turns `rules` into. */
  function Append(rules: seq<Rule>, pattern: string, substitute: string): (longer: seq<Rule>)
  {
    seq(|rules|, i requires 0 <= i < |rules| => if rules[i].to == pattern then Rule(rules[i].from, substitute) else rules[i])
    + [Rule(pattern, substitute)]
  }

  lemma AppendIsProper(rules: seq<Rule>, pattern: string, substitute: string)
    requires Proper(rules) && pattern != "" && substitute != "" && pattern[0] == substitute[0]
    ensures Proper(Append(rules, pattern, substitute))
  {
    forall q | q in Append(rules, pattern, substitute)
      ensures q.from != "" && q.to != "" && q.to[0] == q.from[0]
    {
      var i :| 0 <= i < |rules| + 1 && q == Append(rules, pattern, substitute)[i];
      if i < |rules| {
        assert rules[i] in rules;
      }
    }
  }

  lemma {:induction false} PickAppended(rules: seq<Rule>, pattern: string, substitute: string, s: string)
    ensures Pick(Append(rules, pattern, substitute), s) ==
            match Pick(rules, s)
            case Some(q) => Some(Rule(q.from, if q.to == pattern then substitute else q.to))
            case None => if pattern <= s then Some(Rule(pattern, substitute)) else None
  {
    if rules != [] {
      assert Append(rules, pattern, substitute)[1..] == Append(rules[1..], pattern, substitute);
      PickAppended(rules[1..], pattern, substitute, s);
    }
  }

  /** The rule's pattern cannot start inside `pattern`, and its output overlaps an occurrence of `pattern` only by
      being one. */
  predicate Apart(q: Rule, pattern: string)
    requires q.from != "" && pattern != ""
  {
    && (forall i :: 1 <= i < |pattern| ==> pattern[i] != q.from[0])
    && (q.to == pattern || forall i :: 0 <= i < |q.to| ==> q.to[i] != pattern[0])
  }

  ghost predicate Separate(rules: seq<Rule>, pattern: string)
    requires Proper(rules) && pattern != ""
  {
    forall q :: q in rules ==> Apart(q, pattern)
  }

  /** A pass followed by a replacement is one pass with one more rule. */
  lemma {:induction false} Fusion(s: string, rules: seq<Rule>, pattern: string, substitute: string)
    requires pattern != "" && substitute != "" && pattern[0] == substitute[0]
    requires Proper(rules) && Separate(rules, pattern)
    ensures Proper(Append(rules, pattern, substitute))
    ensures Replace(Rewrite(s, rules), pattern, substitute) == Rewrite(s, Append(rules, pattern, substitute))
  {
    AppendIsProper(rules, pattern, substitute);
    assert Clear(rules, pattern[1..]) by {
      assert forall q :: q in rules ==> Apart(q, pattern);
    }
    if s == "" {
      return;
    }
    PickAppended(rules, pattern, substitute, s);
    match Pick(rules, s)
    case Some(q) =>
      var rest := Rewrite(s[|q.from|..], rules);
      Fusion(s[|q.from|..], rules, pattern, substitute);
      assert Apart(q, pattern);
      if q.to == pattern {
        assert (pattern + rest)[|pattern|..] == rest;
      } else {
        ReplaceSkips(q.to, rest, pattern, substitute);
      }
    case None =>
      FrontIsKept(pattern, s, rules);
      if pattern <= s {
        Fusion(s[|pattern|..], rules, pattern, substitute);
      } else {
        Fusion(s[1..], rules, pattern, substitute);
        assert Rewrite(s, rules)[1..] == Rewrite(s[1..], rules);
      }
  }

  lemma {:induction false} NoRulesNoChange(s: string)
    ensures Rewrite(s, []) == s
  {
    if s != "" {
      NoRulesNoChange(s[1..]);
    }
  }
}
