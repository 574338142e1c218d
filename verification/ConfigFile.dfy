/** A configuration text on its way to the file and back: `write_to_file` fixes the levels and inserts the comments,
    `read_config` fixes the levels again and hands the text to the TOML parser. */
module ConfigFile {
  import opened Replacement
  import opened Lines
  import opened ConfigLevels
  import opened Comments
  import opened CommentTable

  /** The text that `write_to_file` stores; Table has the comments. */
  method Store(conf: string) returns (stored: string)
    ensures stored == Stored(conf, Table())
  {
    stored := InsertComments(FixLogLevel(conf), Table());
  }

  function Stored(conf: string, comments: map<string, Comment>): string {
    Annotate(Split(FixLogLevel(conf)), comments)
  }

  /** The text that `read_config` gives to the parser. */
  function Loaded(stored: string): string {
    FixWarningLevel(stored)
  }

  // ---------- Both fixes work line by line ----------

  lemma ReplaceIsLinewise(pattern: string, substitute: string)
    requires pattern != "" && '\n' !in pattern && '\n' !in substitute
    ensures Linewise(s => Replace(s, pattern, substitute))
  {
    var f := s => Replace(s, pattern, substitute);
    forall a, b
      ensures f(a + "\n" + b) == f(a) + "\n" + f(b)
    {
      ReplaceAcrossBreak(a, b, pattern, substitute);
    }
    forall l | '\n' !in l
      ensures '\n' !in f(l)
    {
      ReplaceInLine(l, pattern, substitute);
    }
  }

  lemma {:induction false} ChainIsLinewise(k: nat)
    requires k <= |WRITTEN|
    ensures Linewise(s => Chain(s, k))
  {
    if k > 0 {
      ChainIsLinewise(k - 1);
      WrittenIsProper();
      LevelHasNoBreak(k - 1);
      var q := WRITTEN[k - 1];
      ReplaceIsLinewise(q.from, q.to);
      ComposedIsLinewise(s => Chain(s, k - 1), s => Replace(s, q.from, q.to), s => Chain(s, k));
    }
  }

  lemma LevelHasNoBreak(k: nat)
    requires k < |WRITTEN|
    ensures '\n' !in WRITTEN[k].from && '\n' !in WRITTEN[k].to
  {
  }

  // ---------- Neither fix turns data into a comment or back ----------

  ghost predicate KeepsIgnored(f: string -> string) {
    forall l :: Ignored(f(l)) <==> Ignored(l)
  }

  lemma {:induction false} ChainKeepsFront(l: string, k: nat)
    requires k <= |WRITTEN|
    ensures Ignored(Chain(l, k)) <==> Ignored(l)
  {
    if k > 0 {
      ChainKeepsFront(l, k - 1);
      WrittenIsProper();
      assert WRITTEN[k - 1] in WRITTEN;
      FrontLetterKept(Chain(l, k - 1), WRITTEN[k - 1].from, WRITTEN[k - 1].to);
    }
  }

  lemma {:induction false} DataLinesOfMapped(f: string -> string, lines: seq<string>)
    requires KeepsIgnored(f)
    ensures DataLines(Map(f, lines)) == Map(f, DataLines(lines))
  {
    if lines != [] {
      DataLinesOfMapped(f, lines[1..]);
      assert Ignored(f(lines[0])) <==> Ignored(lines[0]);
      assert Map(f, lines)[1..] == Map(f, lines[1..]);
      if !Ignored(lines[0]) {
        assert DataLines(lines)[1..] == DataLines(lines[1..]);
      }
    }
  }

  lemma DataLinesOfFixed(f: string -> string, s: string)
    requires Linewise(f) && KeepsIgnored(f)
    ensures DataLines(Split(f(s))) == Map(f, DataLines(Split(s)))
  {
    LinewiseSplit(f, s);
    DataLinesOfMapped(f, Split(s));
  }

  lemma MapMap(f: string -> string, g: string -> string, h: string -> string, lines: seq<string>)
    requires forall l :: h(l) == g(f(l))
    ensures Map(g, Map(f, lines)) == Map(h, lines)
  {
  }

  lemma DataLinesOfWritten(s: string)
    ensures DataLines(Split(FixLogLevel(s))) == Map(FixLogLevel, DataLines(Split(s)))
  {
    ChainIsLinewise(5);
    var f := l => Chain(l, 5);
    forall l
      ensures Ignored(f(l)) <==> Ignored(l)
    {
      ChainKeepsFront(l, 5);
    }
    DataLinesOfFixed(f, s);
    FixLogLevelIsTheChain(s);
    forall l
      ensures f(l) == FixLogLevel(l)
    {
      FixLogLevelIsTheChain(l);
    }
  }

  lemma DataLinesOfRead(s: string)
    ensures DataLines(Split(FixWarningLevel(s))) == Map(FixWarningLevel, DataLines(Split(s)))
  {
    assert '\n' !in "Warning" && '\n' !in "WARN";
    ReplaceIsLinewise("Warning", "WARN");
    var f := l => Replace(l, "Warning", "WARN");
    forall l
      ensures Ignored(f(l)) <==> Ignored(l)
    {
      FrontLetterKept(l, "Warning", "WARN");
    }
    DataLinesOfFixed(f, s);
  }

  // ---------- The whole way ----------

  function RoundTrip(l: string): string {
    FixWarningLevel(FixLogLevel(l))
  }

  function Recase(l: string): string {
    RulesAreProper();
    Rewrite(l, RECASED)
  }

  lemma {:induction false} SameMap(f: string -> string, g: string -> string, lines: seq<string>)
    requires forall l :: l in lines ==> f(l) == g(l)
    ensures Map(f, lines) == Map(g, lines)
  {
    if lines != [] {
      SameMap(f, g, lines[1..]);
    }
  }

  /** Each data line comes back as one write and one read make it, in order, with nothing lost or added. */
  lemma DataLinesComeBack(conf: string, comments: map<string, Comment>)
    ensures DataLines(Split(Loaded(Stored(conf, comments)))) ==
            Map(RoundTrip, DataLines(Split(conf)))
  {
    DataLinesOfRead(Stored(conf, comments));
    CommentsKeepData(FixLogLevel(conf), comments);
    DataLinesOfWritten(conf);
    MapMap(FixLogLevel, FixWarningLevel, RoundTrip, DataLines(Split(conf)));
  }

  lemma {:induction false} ContainsInPrefix(a: string, b: string, pattern: string)
    requires Contains(a, pattern)
    ensures Contains(a + b, pattern)
  {
    if !(pattern <= a) {
      assert (a + b)[1..] == a[1..] + b;
      ContainsInPrefix(a[1..], b, pattern);
    }
  }

  lemma {:induction false} ContainsInSuffix(a: string, b: string, pattern: string)
    requires Contains(b, pattern)
    ensures Contains(a + b, pattern)
  {
    if a == "" {
      assert a + b == b;
    } else {
      assert (a + b)[1..] == a[1..] + b;
      ContainsInSuffix(a[1..], b, pattern);
    }
  }

  lemma {:induction false} ContainsInLine(lines: seq<string>, l: string, pattern: string)
    requires l in lines && Contains(l, pattern)
    ensures Contains(Join(lines), pattern)
  {
    if |lines| > 1 {
      if l == lines[0] {
        ContainsInPrefix(l, "\n" + Join(lines[1..]), pattern);
        Associative(l, "\n", Join(lines[1..]));
      } else {
        ContainsInLine(lines[1..], l, pattern);
        ContainsInSuffix(lines[0] + "\n", Join(lines[1..]), pattern);
      }
    }
  }

  lemma {:induction false} DataLinesAreLines(lines: seq<string>)
    ensures forall l :: l in DataLines(lines) ==> l in lines
  {
    if lines != [] {
      DataLinesAreLines(lines[1..]);
    }
  }

  lemma LineComesBackRecased(conf: string, l: string)
    requires l in DataLines(Split(conf)) && !Contains(conf, "Warning")
    ensures RoundTrip(l) == Recase(l)
  {
    DataLinesAreLines(Split(conf));
    if Contains(l, "Warning") {
      ContainsInLine(Split(conf), l, "Warning");
      JoinOfSplit(conf);
    }
    RoundTripIffNoWarning(l);
  }

  /** A configuration that does not use the word "Warning" comes back with TRACE, DEBUG, INFO and ERROR recased on its
      data lines and no other change to them. */
  lemma DataLinesAreOnlyRecased(conf: string, comments: map<string, Comment>)
    requires !Contains(conf, "Warning")
    ensures DataLines(Split(Loaded(Stored(conf, comments)))) == Map(Recase, DataLines(Split(conf)))
  {
    DataLinesComeBack(conf, comments);
    var lines := DataLines(Split(conf));
    forall l | l in lines
      ensures RoundTrip(l) == Recase(l)
    {
      LineComesBackRecased(conf, l);
    }
    SameMap(RoundTrip, Recase, lines);
  }
}
