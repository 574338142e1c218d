/** Log levels in the configuration text: config/src/config.rs writes them with `fix_log_level` (five chained
    replacements) and reads them back with `fix_warning_level`.

    The chain and the write-then-read composition are shown equal to single passes over the text, from which
    idempotence, the absence of shouted levels and the exact round-trip condition follow. */
module ConfigLevels {
  import opened Wrappers
  import opened Replacement

  /** Applied to what is about to be written. */
  function FixLogLevel(conf: string): string {
    var conf1 := Replace(conf, "TRACE", "Trace");
    var conf2 := Replace(conf1, "DEBUG", "Debug");
    var conf3 := Replace(conf2, "INFO", "Info");
    var conf4 := Replace(conf3, "WARN", "Warning");
    Replace(conf4, "ERROR", "Error")
  }

  /** Applied to what was read. */
  function FixWarningLevel(conf: string): string {
    Replace(conf, "Warning", "WARN")
  }

  /** A level whose letter case is changed in place. */
  const RECASED: seq<Rule> := [Rule("TRACE", "Trace"), Rule("DEBUG", "Debug"), Rule("INFO", "Info"), Rule("ERROR", "Error")]

  /** What the five replacements of `FixLogLevel` amount to. */
  const WRITTEN: seq<Rule> := [Rule("TRACE", "Trace"), Rule("DEBUG", "Debug"), Rule("INFO", "Info"),
                               Rule("WARN", "Warning"), Rule("ERROR", "Error")]

  /** What writing and reading back amount to. */
  const READ_BACK: seq<Rule> := [Rule("TRACE", "Trace"), Rule("DEBUG", "Debug"), Rule("INFO", "Info"),
                                 Rule("WARN", "WARN"), Rule("ERROR", "Error"), Rule("Warning", "WARN")]

  /** Any two of the five patterns, and any pattern and replacement, are kept apart by their first letters. */
  lemma LevelsAreApart(i: nat, k: nat)
    requires i < k < |WRITTEN|
    ensures Apart(WRITTEN[i], WRITTEN[k].from) && WRITTEN[i].to != WRITTEN[k].from
  {
    var q, p := WRITTEN[i], WRITTEN[k].from;
    if k == 1 { assert p == "DEBUG"; }
    if k == 2 { assert p == "INFO"; }
    if k == 3 { assert p == "WARN"; }
    if k == 4 { assert p == "ERROR"; }
  }

  lemma WrittenIsProper()
    ensures Proper(WRITTEN)
  {
    forall q | q in WRITTEN
      ensures q.from != "" && q.to != "" && q.to[0] == q.from[0]
    {
      var i :| 0 <= i < 5 && q == WRITTEN[i];
    }
  }

  /** The pass with the first `k` rules of `WRITTEN`. */
  ghost function Pass(s: string, k: nat): string
    requires k <= |WRITTEN|
  {
    WrittenIsProper();
    Rewrite(s, WRITTEN[..k])
  }

  /** One more replacement of the chain is one more rule of the pass. */
  lemma OneMoreLevel(s: string, k: nat)
    requires k < |WRITTEN|
    ensures WRITTEN[k].from != "" && Replace(Pass(s, k), WRITTEN[k].from, WRITTEN[k].to) == Pass(s, k + 1)
  {
    WrittenIsProper();
    var rules, last := WRITTEN[..k], WRITTEN[k];
    forall q | q in rules
      ensures Apart(q, last.from) && q.to != last.from
    {
      var i :| 0 <= i < k && q == WRITTEN[i];
      LevelsAreApart(i, k);
    }
    Fusion(s, rules, last.from, last.to);
    assert Append(rules, last.from, last.to) == WRITTEN[..k + 1];
  }

  /** The first `k` replacements of the chain. */
  ghost function Chain(s: string, k: nat): string
    requires k <= |WRITTEN|
  {
    if k == 0 then s
    else
      WrittenIsProper();
      Replace(Chain(s, k - 1), WRITTEN[k - 1].from, WRITTEN[k - 1].to)
  }

  lemma {:induction false} ChainIsOnePass(s: string, k: nat)
    requires k <= |WRITTEN|
    ensures Chain(s, k) == Pass(s, k)
  {
    if k == 0 {
      NoRulesNoChange(s);
      assert WRITTEN[..0] == [];
    } else {
      ChainIsOnePass(s, k - 1);
      OneMoreLevel(s, k - 1);
    }
  }

  lemma FixLogLevelIsTheChain(s: string)
    ensures FixLogLevel(s) == Chain(s, 5)
  {
    assert Chain(s, 1) == Replace(s, "TRACE", "Trace");
    assert Chain(s, 2) == Replace(Chain(s, 1), "DEBUG", "Debug");
    assert Chain(s, 3) == Replace(Chain(s, 2), "INFO", "Info");
    assert Chain(s, 4) == Replace(Chain(s, 3), "WARN", "Warning");
  }

  /** The five chained replacements are one pass, although TRACE and ERROR can overlap. */
  lemma FixLogLevelIsOnePass(s: string)
    ensures Proper(WRITTEN) && FixLogLevel(s) == Rewrite(s, WRITTEN)
  {
    WrittenIsProper();
    FixLogLevelIsTheChain(s);
    ChainIsOnePass(s, 5);
    assert WRITTEN[..5] == WRITTEN;
  }

  lemma RulesAreProper()
    ensures Proper(RECASED) && Proper(READ_BACK)
  {
    forall q | q in RECASED
      ensures q.from != "" && q.to != "" && q.to[0] == q.from[0]
    {
      var i :| 0 <= i < 4 && q == RECASED[i];
    }
    forall q | q in READ_BACK
      ensures q.from != "" && q.to != "" && q.to[0] == q.from[0]
    {
      var i :| 0 <= i < 6 && q == READ_BACK[i];
    }
  }

  lemma WarningIsApart(i: nat)
    requires i < |WRITTEN|
    ensures WRITTEN[i].from != "" && Apart(WRITTEN[i], "Warning")
    ensures WRITTEN[i].to == "Warning" <==> i == 3
  {
  }

  /** Writing and reading back is one pass too. */
  lemma ReadBackIsOnePass(s: string)
    ensures Proper(READ_BACK) && FixWarningLevel(FixLogLevel(s)) == Rewrite(s, READ_BACK)
  {
    FixLogLevelIsOnePass(s);
    RulesAreProper();
    forall q | q in WRITTEN
      ensures Apart(q, "Warning")
    {
      var i :| 0 <= i < 5 && q == WRITTEN[i];
      WarningIsApart(i);
    }
    Fusion(s, WRITTEN, "Warning", "WARN");
    assert Append(WRITTEN, "Warning", "WARN") == READ_BACK by {
      forall i | 0 <= i < 5
        ensures Append(WRITTEN, "Warning", "WARN")[i] == READ_BACK[i]
      {
        WarningIsApart(i);
      }
    }
  }

  // ---------- No shouted level is left ----------

  /** `q` leaves no copy of `pattern` behind, neither inside its output nor across one of its ends. */
  predicate Erases(q: Rule, pattern: string)
    requires q.from != "" && |pattern| > 1
  {
    Parts(q, pattern) && forall i :: 1 <= i < |q.to| ==> q.to[i] != pattern[0]
  }

  lemma {:induction false} PassErases(s: string, rules: seq<Rule>, pattern: string)
    requires Proper(rules) && |pattern| > 1
    requires forall q :: q in rules ==> Erases(q, pattern)
    requires exists q :: q in rules && q.from == pattern
    ensures !Contains(Rewrite(s, rules), pattern)
  {
    if s == "" {
      return;
    }
    var out := Rewrite(s, rules);
    match Pick(rules, s)
    case Some(q) =>
      var rest := Rewrite(s[|q.from|..], rules);
      PassErases(s[|q.from|..], rules, pattern);
      assert Erases(q, pattern);
      assert out[1..] == q.to[1..] + rest;
      ContainsSkips(q.to[1..], rest, pattern);
      SameSecond(pattern, q.to, out);
    case None =>
      PassErases(s[1..], rules, pattern);
      if pattern <= out {
        forall q | q in rules
          ensures Parts(q, pattern)
        {
          assert Erases(q, pattern);
        }
        RewriteReveals(pattern, s, rules);
      }
      assert out[1..] == Rewrite(s[1..], rules);
  }

  lemma WrittenErases(i: nat, k: nat)
    requires i < |WRITTEN| && k < |WRITTEN|
    ensures WRITTEN[i].from != "" && |WRITTEN[k].from| > 1 && Erases(WRITTEN[i], WRITTEN[k].from)
  {
    var p := WRITTEN[k].from;
    if k == 0 { assert p == "TRACE"; }
    if k == 1 { assert p == "DEBUG"; }
    if k == 2 { assert p == "INFO"; }
    if k == 3 { assert p == "WARN"; }
    if k == 4 { assert p == "ERROR"; }
  }

  lemma NoLevelIsLeft(s: string, k: nat)
    requires k < |WRITTEN|
    ensures !Contains(FixLogLevel(s), WRITTEN[k].from)
  {
    FixLogLevelIsOnePass(s);
    WrittenErases(k, k);
    forall q | q in WRITTEN
      ensures Erases(q, WRITTEN[k].from)
    {
      var i :| 0 <= i < 5 && q == WRITTEN[i];
      WrittenErases(i, k);
    }
    PassErases(s, WRITTEN, WRITTEN[k].from);
  }

  lemma {:induction false} ChainKeeps(s: string, k: nat)
    requires k <= |WRITTEN|
    requires forall i :: 0 <= i < k ==> !Contains(s, WRITTEN[i].from)
    ensures Chain(s, k) == s
  {
    if k > 0 {
      ChainKeeps(s, k - 1);
      WrittenIsProper();
      ReplaceAbsent(s, WRITTEN[k - 1].from, WRITTEN[k - 1].to);
    }
  }

  /** What is written holds no level in capitals, and writing it again changes nothing. */
  lemma WrittenLevelsAreSettled(s: string)
    ensures !Contains(FixLogLevel(s), "TRACE") && !Contains(FixLogLevel(s), "DEBUG") && !Contains(FixLogLevel(s), "INFO")
    ensures !Contains(FixLogLevel(s), "WARN") && !Contains(FixLogLevel(s), "ERROR")
    ensures FixLogLevel(FixLogLevel(s)) == FixLogLevel(s)
  {
    forall k: nat | k < |WRITTEN|
      ensures !Contains(FixLogLevel(s), WRITTEN[k].from)
    {
      NoLevelIsLeft(s, k);
    }
    assert WRITTEN[0].from == "TRACE" && WRITTEN[1].from == "DEBUG" && WRITTEN[2].from == "INFO";
    assert WRITTEN[3].from == "WARN" && WRITTEN[4].from == "ERROR";
    ChainKeeps(FixLogLevel(s), 5);
    FixLogLevelIsTheChain(FixLogLevel(s));
  }

  // ---------- The round trip ----------

  /** At most one pattern stands at the front of a text. */
  lemma OnePatternAtATime(s: string, i: nat, j: nat)
    requires i < |READ_BACK| && j < |READ_BACK| && READ_BACK[i].from <= s && READ_BACK[j].from <= s
    ensures i == j
  {
    assert READ_BACK[i].from[0] == s[0] == READ_BACK[j].from[0];
    assert READ_BACK[i].from[1] == s[1] == READ_BACK[j].from[1];
  }

  lemma NoOtherRule(s: string, i: nat)
    requires i < |READ_BACK| && READ_BACK[i].from <= s
    ensures forall j :: 0 <= j < |READ_BACK| && j != i ==> !(READ_BACK[j].from <= s)
  {
    forall j: nat | j < |READ_BACK| && j != i
      ensures !(READ_BACK[j].from <= s)
    {
      if READ_BACK[j].from <= s {
        OnePatternAtATime(s, i, j);
      }
    }
  }

  lemma FrontRuleRecased(s: string, i: nat)
    requires i < |READ_BACK| && READ_BACK[i].from <= s
    ensures Pick(RECASED, s) == if i == 3 || i == 5 then None else Some(READ_BACK[i])
  {
    NoOtherRule(s, i);
    assert RECASED == READ_BACK[..3] + [READ_BACK[4]];
    PickIs(RECASED, s, if i < 3 then i else if i == 4 then 3 else 4);
  }

  /** What each pass does at the front of a text. */
  lemma FrontRule(s: string, i: nat)
    requires i < |READ_BACK| && READ_BACK[i].from <= s
    ensures Pick(READ_BACK, s) == Some(READ_BACK[i])
    ensures Pick(RECASED, s) == if i == 3 || i == 5 then None else Some(READ_BACK[i])
  {
    NoOtherRule(s, i);
    PickIs(READ_BACK, s, i);
    FrontRuleRecased(s, i);
  }

  /** The two passes agree, and keep the length, up to the first "Warning"; there the round trip loses characters. */
  ghost predicate Agree(s: string, back: seq<Rule>, recased: seq<Rule>)
    requires Proper(back) && Proper(recased)
  {
    && |Rewrite(s, recased)| == |s|
    && |Rewrite(s, back)| <= |s|
    && (Contains(s, "Warning") ==> |Rewrite(s, back)| < |s|)
    && (!Contains(s, "Warning") ==> Rewrite(s, back) == Rewrite(s, recased))
  }

  lemma AgreeAtLevel(s: string, q: Rule, back: seq<Rule>, recased: seq<Rule>)
    requires Proper(back) && Proper(recased)
    requires s != "" && Pick(back, s) == Pick(recased, s) == Some(q)
    requires |q.to| == |q.from| > 0 && 'W' !in q.from
    requires Agree(s[|q.from|..], back, recased)
    ensures Agree(s, back, recased)
  {
    var rest := s[|q.from|..];
    assert s == q.from + rest;
    NoWarningInside(q.from, rest);
  }

  ghost predicate Compared(s: string) {
    RulesAreProper();
    Agree(s, READ_BACK, RECASED)
  }

  lemma LevelFacts(i: nat)
    requires i < 5 && i != 3
    ensures |READ_BACK[i].to| == |READ_BACK[i].from| > 0 && 'W' !in READ_BACK[i].from
  {
  }

  lemma NoWarningInside(word: string, rest: string)
    requires 'W' !in word
    ensures Contains(word + rest, "Warning") == Contains(rest, "Warning")
  {
    ContainsSkips(word, rest, "Warning");
  }

  lemma NoWarningAtWarn(rest: string)
    ensures Contains("WARN" + rest, "Warning") == Contains(rest, "Warning")
  {
    var s := "WARN" + rest;
    assert s[1] == 'A' && "Warning"[1] == 'a';
    assert s[1..] == "ARN" + rest;
    NoWarningInside("ARN", rest);
  }

  /** No level starts inside a warning. */
  lemma WarningIsCopied(word: string, rest: string)
    requires word == "WARN" || word == "Warning"
    ensures Proper(RECASED) && Rewrite(word + rest, RECASED) == word + Rewrite(rest, RECASED)
  {
    RulesAreProper();
    forall q | q in RECASED
      ensures q.from[0] !in word
    {
      var i :| 0 <= i < 4 && q == RECASED[i];
    }
    RewriteCopies(word, rest, RECASED);
  }

  lemma ComparedAtWarn(s: string)
    requires READ_BACK[3].from <= s && Compared(s[4..])
    ensures Compared(s)
  {
    RulesAreProper();
    FrontRule(s, 3);
    var rest := s[4..];
    assert s == READ_BACK[3].from + rest;
    NoWarningAtWarn(rest);
    WarningIsCopied(READ_BACK[3].from, rest);
  }

  lemma ComparedAtWarning(s: string)
    requires READ_BACK[5].from <= s && Compared(s[7..])
    ensures Compared(s)
  {
    RulesAreProper();
    FrontRule(s, 5);
    var rest := s[7..];
    assert s == READ_BACK[5].from + rest;
    WarningIsCopied(READ_BACK[5].from, rest);
  }

  lemma ComparedElsewhere(s: string)
    requires s != "" && Compared(s[1..])
    requires forall i :: 0 <= i < |READ_BACK| ==> !(READ_BACK[i].from <= s)
    ensures Compared(s)
  {
    RulesAreProper();
    assert !(READ_BACK[5].from <= s);
    PickIs(READ_BACK, s, 6);
    assert RECASED == READ_BACK[..3] + [READ_BACK[4]];
    PickIs(RECASED, s, 4);
  }

  lemma {:induction false} PassesCompared(s: string)
    ensures Compared(s)
  {
    RulesAreProper();
    if s == "" {
    } else if i :| 0 <= i < |READ_BACK| && READ_BACK[i].from <= s {
      PassesCompared(s[|READ_BACK[i].from|..]);
      if i == 3 {
        ComparedAtWarn(s);
      } else if i == 5 {
        ComparedAtWarning(s);
      } else {
        FrontRule(s, i);
        LevelFacts(i);
        AgreeAtLevel(s, READ_BACK[i], READ_BACK, RECASED);
      }
    } else {
      PassesCompared(s[1..]);
      ComparedElsewhere(s);
    }
  }

  /** Writing and reading back recases four levels and changes nothing else, exactly for texts free of "Warning". */
  lemma RoundTripIffNoWarning(s: string)
    ensures Proper(RECASED)
    ensures FixWarningLevel(FixLogLevel(s)) == Rewrite(s, RECASED) <==> !Contains(s, "Warning")
  {
    ReadBackIsOnePass(s);
    PassesCompared(s);
  }

  // ---------- What recasing is, and when nothing changes at all ----------

  function Lower(c: char): char {
    if 'A' <= c <= 'Z' then c + 32 as char else c
  }

  predicate SameLetters(a: string, b: string) {
    |a| == |b| && forall i :: 0 <= i < |a| ==> Lower(a[i]) == Lower(b[i])
  }

  lemma {:induction false} PassKeepsLetters(s: string, rules: seq<Rule>)
    requires Proper(rules) && forall q :: q in rules ==> SameLetters(q.from, q.to)
    ensures SameLetters(s, Rewrite(s, rules))
  {
    if s != "" {
      match Pick(rules, s)
      case Some(q) =>
        PassKeepsLetters(s[|q.from|..], rules);
        assert s == q.from + s[|q.from|..];
      case None =>
        PassKeepsLetters(s[1..], rules);
        assert Rewrite(s, rules)[1..] == Rewrite(s[1..], rules);
    }
  }

  lemma RecasedKeepsLetters(i: nat)
    requires i < |RECASED|
    ensures SameLetters(RECASED[i].from, RECASED[i].to)
  {
  }

  /** Recasing changes the case of letters and nothing else, and leaves none of the four levels in capitals. */
  lemma RecasingOnlyChangesCase(s: string, k: nat)
    requires k < |RECASED|
    ensures Proper(RECASED)
    ensures SameLetters(s, Rewrite(s, RECASED))
    ensures !Contains(Rewrite(s, RECASED), RECASED[k].from)
  {
    RulesAreProper();
    forall q | q in RECASED
      ensures SameLetters(q.from, q.to)
    {
      var i :| 0 <= i < 4 && q == RECASED[i];
      RecasedKeepsLetters(i);
    }
    PassKeepsLetters(s, RECASED);
    assert RECASED == WRITTEN[..3] + [WRITTEN[4]];
    var j := if k < 3 then k else 4;
    WrittenErases(j, j);
    forall q | q in RECASED
      ensures Erases(q, RECASED[k].from)
    {
      var i :| 0 <= i < 4 && q == RECASED[i];
      WrittenErases(if i < 3 then i else 4, j);
    }
    PassErases(s, RECASED, RECASED[k].from);
  }

  lemma {:induction false} AbsentRulesChangeNothing(s: string, rules: seq<Rule>)
    requires Proper(rules) && forall q :: q in rules ==> !Contains(s, q.from)
    ensures Rewrite(s, rules) == s
  {
    if s != "" {
      AbsentRulesChangeNothing(s[1..], rules);
    }
  }

  /** The text survives writing and reading back unchanged exactly if it holds none of five words. */
  lemma RoundTripIsExactIff(s: string)
    ensures FixWarningLevel(FixLogLevel(s)) == s <==>
            !Contains(s, "Warning") && forall k :: 0 <= k < |RECASED| ==> !Contains(s, RECASED[k].from)
  {
    ReadBackIsOnePass(s);
    PassesCompared(s);
    RulesAreProper();
    if !Contains(s, "Warning") {
      if forall k :: 0 <= k < |RECASED| ==> !Contains(s, RECASED[k].from) {
        AbsentRulesChangeNothing(s, RECASED);
      }
      forall k: nat | k < |RECASED|
        ensures !Contains(Rewrite(s, RECASED), RECASED[k].from)
      {
        RecasingOnlyChangesCase(s, k);
      }
    }
  }

  // ---------- Warnings alone ----------

  const WARN_TO_WARNING: seq<Rule> := [Rule("WARN", "Warning")]

  /** Writing "Warning" for "WARN" and "WARN" for "Warning" again, in one pass. */
  const WARN_AND_BACK: seq<Rule> := [Rule("WARN", "WARN"), Rule("Warning", "WARN")]

  lemma WarnRulesAreProper()
    ensures Proper([]) && Proper(WARN_TO_WARNING) && Proper(WARN_AND_BACK)
  {
  }

  lemma WarnAndBackIsOnePass(s: string)
    ensures Proper(WARN_AND_BACK)
    ensures Replace(Replace(s, "WARN", "Warning"), "Warning", "WARN") == Rewrite(s, WARN_AND_BACK)
  {
    WarnRulesAreProper();
    NoRulesNoChange(s);
    Fusion(s, [], "WARN", "Warning");
    assert Append([], "WARN", "Warning") == WARN_TO_WARNING;
    assert Apart(WARN_TO_WARNING[0], "Warning") by {
      WarningIsApart(3);
    }
    Fusion(s, WARN_TO_WARNING, "Warning", "WARN");
    assert Append(WARN_TO_WARNING, "Warning", "WARN") == WARN_AND_BACK;
  }

  lemma WarnFront(s: string)
    requires s != ""
    ensures "WARN" <= s ==> Pick(WARN_AND_BACK, s) == Some(WARN_AND_BACK[0])
    ensures !("WARN" <= s) && "Warning" <= s ==> Pick(WARN_AND_BACK, s) == Some(WARN_AND_BACK[1])
    ensures !("WARN" <= s) && !("Warning" <= s) ==> Pick(WARN_AND_BACK, s) == None
  {
    PickIs(WARN_AND_BACK, s, if "WARN" <= s then 0 else if "Warning" <= s then 1 else 2);
  }

  /** The pass keeps a text free of "Warning", and shortens every other. */
  ghost predicate KeptOrShortened(s: string) {
    WarnRulesAreProper();
    if Contains(s, "Warning") then |Rewrite(s, WARN_AND_BACK)| < |s| else Rewrite(s, WARN_AND_BACK) == s
  }

  lemma {:induction false} PassKeepsOrShortens(s: string)
    ensures KeptOrShortened(s)
  {
    WarnRulesAreProper();
    if s != "" {
      WarnFront(s);
      if "WARN" <= s {
        PassKeepsOrShortens(s[4..]);
        assert s == "WARN" + s[4..];
        NoWarningAtWarn(s[4..]);
      } else if "Warning" <= s {
        PassKeepsOrShortens(s[7..]);
      } else {
        PassKeepsOrShortens(s[1..]);
      }
    }
  }

  /** Turning "WARN" into "Warning" and that back is the identity exactly on texts free of "Warning". */
  lemma WarnComesBackIff(s: string)
    ensures Replace(Replace(s, "WARN", "Warning"), "Warning", "WARN") == s <==> !Contains(s, "Warning")
  {
    WarnAndBackIsOnePass(s);
    PassKeepsOrShortens(s);
  }
}
