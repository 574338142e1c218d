/** Splitting a text at line breaks, as `split("\n")` does, and what replacement does line by line. */
module Lines {
  import opened Replacement

  /** `s.split("\n")`: always at least one piece. */
  function Split(s: string): (lines: seq<string>)
    ensures lines != []
    ensures forall l :: l in lines ==> '\n' !in l
  {
    if s == "" then [""]
    else if s[0] == '\n' then [""] + Split(s[1..])
    else
      var rest := Split(s[1..]);
      [[s[0]] + rest[0]] + rest[1..]
  }

  function Join(lines: seq<string>): string
    requires lines != []
  {
    if |lines| == 1 then lines[0] else lines[0] + "\n" + Join(lines[1..])
  }

  lemma {:induction false} SplitOneLine(line: string)
    requires '\n' !in line
    ensures Split(line) == [line]
  {
    if line != "" {
      SplitOneLine(line[1..]);
      assert line == [line[0]] + line[1..];
    }
  }

  lemma Associative<T>(a: seq<T>, b: seq<T>, c: seq<T>)
    ensures (a + b) + c == a + (b + c)
  {
  }

  lemma CutBeforeBreak(a: string, b: string, k: nat)
    requires k <= |a|
    ensures (a + "\n" + b)[k..] == a[k..] + "\n" + b
    ensures k > 0 ==> (a + "\n" + b)[0] == a[0]
  {
  }

  /** A line break is a boundary: the two sides split on their own. */
  lemma {:induction false} SplitAtBreak(a: string, b: string)
    ensures Split(a + "\n" + b) == Split(a) + Split(b)
  {
    var s := a + "\n" + b;
    if a == "" {
      assert s == "\n" + b;
      assert s[1..] == b;
    } else {
      SplitAtBreak(a[1..], b);
      CutBeforeBreak(a, b, 1);
      var first, rest := Split(a[1..]), Split(b);
      if a[0] == '\n' {
        Associative([""], first, rest);
      } else {
        assert (first + rest)[0] == first[0] && (first + rest)[1..] == first[1..] + rest;
        Associative([[a[0]] + first[0]], first[1..], rest);
      }
    }
  }

  lemma SplitFirstLine(line: string, rest: string)
    requires '\n' !in line
    ensures Split(line + "\n" + rest) == [line] + Split(rest)
  {
    SplitOneLine(line);
    SplitAtBreak(line, rest);
  }

  lemma {:induction false} JoinOfSplit(s: string)
    ensures Join(Split(s)) == s
  {
    if s != "" {
      JoinOfSplit(s[1..]);
      var rest := Split(s[1..]);
      if s[0] == '\n' {
        assert Split(s)[1..] == rest;
      } else {
        assert Split(s)[1..] == rest[1..];
      }
    }
  }

  lemma {:induction false} SplitOfJoin(lines: seq<string>)
    requires lines != [] && forall l :: l in lines ==> '\n' !in l
    ensures Split(Join(lines)) == lines
  {
    SplitOneLine(lines[0]);
    if |lines| > 1 {
      SplitOfJoin(lines[1..]);
      SplitAtBreak(lines[0], Join(lines[1..]));
    }
  }

  // ---------- Functions that work line by line ----------

  function Map(f: string -> string, lines: seq<string>): (mapped: seq<string>)
    ensures |mapped| == |lines| && forall i :: 0 <= i < |lines| ==> mapped[i] == f(lines[i])
  {
    if lines == [] then [] else [f(lines[0])] + Map(f, lines[1..])
  }

  /** `f` treats every line on its own, and makes one line of each. */
  ghost predicate Linewise(f: string -> string) {
    && (forall a, b :: f(a + "\n" + b) == f(a) + "\n" + f(b))
    && (forall l :: '\n' !in l ==> '\n' !in f(l))
  }

  lemma {:induction false} LinewiseOnJoin(f: string -> string, lines: seq<string>)
    requires Linewise(f) && lines != []
    ensures f(Join(lines)) == Join(Map(f, lines))
  {
    if |lines| > 1 {
      LinewiseOnJoin(f, lines[1..]);
      assert f(lines[0] + "\n" + Join(lines[1..])) == f(lines[0]) + "\n" + f(Join(lines[1..]));
    }
  }

  lemma LinewiseSplit(f: string -> string, s: string)
    requires Linewise(f)
    ensures Split(f(s)) == Map(f, Split(s))
  {
    JoinOfSplit(s);
    LinewiseOnJoin(f, Split(s));
    SplitOfJoin(Map(f, Split(s)));
  }

  lemma ComposedIsLinewise(f: string -> string, g: string -> string, h: string -> string)
    requires Linewise(f) && Linewise(g) && forall s :: h(s) == g(f(s))
    ensures Linewise(h)
  {
    forall a, b
      ensures h(a + "\n" + b) == h(a) + "\n" + h(b)
    {
      assert f(a + "\n" + b) == f(a) + "\n" + f(b);
      assert g(f(a) + "\n" + f(b)) == g(f(a)) + "\n" + g(f(b));
    }
    forall l | '\n' !in l
      ensures '\n' !in h(l)
    {
      assert '\n' !in f(l);
    }
  }

  // ---------- Replacement within lines ----------

  lemma PatternStaysInLine(pattern: string, a: string, b: string)
    requires '\n' !in pattern
    ensures pattern <= a + "\n" + b <==> pattern <= a
  {
    var s := a + "\n" + b;
    var newline := s[|a|];
    assert newline == '\n';
    assert pattern <= s && |pattern| > |a| ==> newline in pattern;
  }

  lemma ThreeAndOne(front: string, a: string, b: string)
    ensures front + (a + "\n" + b) == (front + a) + "\n" + b
  {
  }

  lemma {:induction false} ReplaceAcrossBreak(a: string, b: string, pattern: string, substitute: string)
    requires pattern != "" && '\n' !in pattern
    ensures Replace(a + "\n" + b, pattern, substitute) == Replace(a, pattern, substitute) + "\n" + Replace(b, pattern, substitute)
  {
    var s := a + "\n" + b;
    if a == "" {
      assert s == "\n" + b;
      assert s[0] == '\n' && s[1..] == b;
      assert pattern[0] in pattern;
    } else {
      PatternStaysInLine(pattern, a, b);
      if pattern <= a {
        ReplaceAcrossBreak(a[|pattern|..], b, pattern, substitute);
        CutBeforeBreak(a, b, |pattern|);
        ThreeAndOne(substitute, Replace(a[|pattern|..], pattern, substitute), Replace(b, pattern, substitute));
      } else {
        ReplaceAcrossBreak(a[1..], b, pattern, substitute);
        CutBeforeBreak(a, b, 1);
        ThreeAndOne([a[0]], Replace(a[1..], pattern, substitute), Replace(b, pattern, substitute));
      }
    }
  }

  lemma {:induction false} ReplaceInLine(l: string, pattern: string, substitute: string)
    requires pattern != "" && '\n' !in l && '\n' !in substitute
    ensures '\n' !in Replace(l, pattern, substitute)
  {
    if l == "" {
    } else if pattern <= l {
      ReplaceInLine(l[|pattern|..], pattern, substitute);
    } else {
      ReplaceInLine(l[1..], pattern, substitute);
    }
  }

  lemma FrontLetterKept(s: string, pattern: string, substitute: string)
    requires pattern != "" && substitute != "" && pattern[0] == substitute[0]
    ensures Replace(s, pattern, substitute) == "" <==> s == ""
    ensures s != "" ==> Replace(s, pattern, substitute)[0] == s[0]
  {
  }
}
