/** config/src/comments.rs: explanatory comments put in front of the lines of a configuration text.

    The table of comments is a parameter here, and CommentTable has the one in use. What is proved holds for any table
    whose comments consist of blank lines and lines starting with '#', between two line breaks. */
module Comments {
  import opened Lines

  /** What the reader skips. */
  predicate Ignored(l: string) {
    l == "" || l[0] == '#'
  }

  type CommentLine = l: string | '\n' !in l && Ignored(l) witness ""

  type Comment = seq<CommentLine>

  // ---------- Keys ----------

  /** Unicode white space, as `str::trim` knows it. */
  predicate IsSpace(c: char) {
    || '\U{9}' <= c <= '\U{D}' || c == ' ' || c == '\U{85}' || c == '\U{A0}' || c == '\U{1680}'
    || '\U{2000}' <= c <= '\U{200A}' || c == '\U{2028}' || c == '\U{2029}' || c == '\U{202F}' || c == '\U{205F}'
    || c == '\U{3000}'
  }

  function TrimStart(s: string): (t: string)
    ensures t != "" ==> !IsSpace(t[0])
  {
    if s != "" && IsSpace(s[0]) then TrimStart(s[1..]) else s
  }

  function TrimEnd(s: string): (t: string)
    ensures t <= s && (t != "" ==> !IsSpace(t[|t| - 1]))
  {
    if s != "" && IsSpace(s[|s| - 1]) then TrimEnd(s[..|s| - 1]) else s
  }

  function Before(s: string, c: char): (t: string)
    ensures t <= s && c !in t && (c in s ==> t + [c] <= s)
  {
    if s == "" || s[0] == c then "" else [s[0]] + Before(s[1..], c)
  }

  /** `get_key`: a section header stands for itself, an assignment for its left-hand side. */
  function GetKey(line: string): string {
    if '[' in line && ']' in line then line
    else if '=' in line then TrimEnd(TrimStart(Before(line, '=')))
    else "NOT_FOUND"
  }

  predicate AllSpace(s: string) {
    forall c :: c in s ==> IsSpace(c)
  }

  /** The line assigns to `key`: up to its first '=' there is nothing else but white space around the key. */
  predicate Assigns(line: string, before: string, key: string, behind: string, rest: string) {
    && line == before + key + behind + ("=" + rest) && AllSpace(before) && AllSpace(behind) && '=' !in key
    && (key != "" ==> !IsSpace(key[0]) && !IsSpace(key[|key| - 1]))
  }

  /** What the key of a line should be. */
  ghost predicate IsKey(line: string, key: string) {
    if '[' in line && ']' in line then key == line
    else if '=' in line then exists before, behind, rest :: Assigns(line, before, key, behind, rest)
    else key == "NOT_FOUND"
  }

  lemma {:induction false} BeforeFirst(s: string, c: char, rest: string)
    requires c !in s
    ensures Before(s + ([c] + rest), c) == s
  {
    var line := s + ([c] + rest);
    if s != "" {
      BeforeFirst(s[1..], c, rest);
      assert line[1..] == s[1..] + ([c] + rest);
    }
  }

  lemma {:induction false} TrimStartDrops(space: string, s: string)
    requires AllSpace(space)
    ensures TrimStart(space + s) == TrimStart(s)
  {
    if space == "" {
      assert space + s == s;
    } else {
      TrimStartDrops(space[1..], s);
      assert (space + s)[1..] == space[1..] + s;
    }
  }

  lemma {:induction false} TrimEndDrops(s: string, space: string)
    requires AllSpace(space)
    ensures TrimEnd(s + space) == TrimEnd(s)
  {
    if space == "" {
      assert s + space == s;
    } else {
      TrimEndDrops(s, space[..|space| - 1]);
      assert (s + space)[..|s + space| - 1] == s + space[..|space| - 1];
    }
  }

  lemma {:induction false} TrimStartSplits(s: string) returns (space: string)
    ensures s == space + TrimStart(s) && AllSpace(space)
  {
    space := "";
    if s != "" && IsSpace(s[0]) {
      var more := TrimStartSplits(s[1..]);
      space := [s[0]] + more;
    }
  }

  lemma {:induction false} TrimEndSplits(s: string) returns (space: string)
    ensures s == TrimEnd(s) + space && AllSpace(space)
  {
    space := "";
    if s != "" && IsSpace(s[|s| - 1]) {
      var more := TrimEndSplits(s[..|s| - 1]);
      space := more + [s[|s| - 1]];
    }
  }

  lemma AssignedKey(line: string, before: string, key: string, behind: string, rest: string)
    requires Assigns(line, before, key, behind, rest) && !('[' in line && ']' in line)
    ensures GetKey(line) == key
  {
    var side := before + key + behind;
    assert '=' !in side && line == side + (['='] + rest);
    BeforeFirst(side, '=', rest);
    assert side == before + (key + behind);
    TrimStartDrops(before, key + behind);
    if key == "" {
      TrimStartDrops(behind, "");
      assert key + behind == behind + "";
    } else {
      TrimEndDrops(key, behind);
    }
  }

  /** `get_key` finds the key of every line. */
  lemma GetKeyIff(line: string, key: string)
    ensures GetKey(line) == key <==> IsKey(line, key)
  {
    if !('[' in line && ']' in line) && '=' in line {
      var side := Before(line, '=');
      var before := TrimStartSplits(side);
      var behind := TrimEndSplits(TrimStart(side));
      assert TrimStart(side) == GetKey(line) + behind;
      KeyIsInside(side, before, GetKey(line), behind);
      assert Assigns(line, before, GetKey(line), behind, line[|side| + 1..]);
      if IsKey(line, key) {
        var a, b, rest :| Assigns(line, a, key, b, rest);
        AssignedKey(line, a, key, b, rest);
      }
    }
  }

  lemma KeyIsInside(side: string, before: string, key: string, behind: string)
    requires side == before + TrimStart(side) && TrimStart(side) == key + behind && key == TrimEnd(TrimStart(side)) && '=' !in side
    ensures side == before + key + behind && '=' !in key && (key != "" ==> !IsSpace(key[0]))
  {
    Associative(before, key, behind);
    assert key != "" ==> key[0] == TrimStart(side)[0];
  }

  // ---------- Insertion ----------

  /** A comment as text: its lines between two line breaks. */
  function Render(comment: Comment): string {
    "\n" + RenderLines(comment)
  }

  function RenderLines(lines: seq<string>): string {
    if lines == [] then "" else lines[0] + "\n" + RenderLines(lines[1..])
  }

  function CommentFor(line: string, comments: map<string, Comment>): string {
    if GetKey(line) in comments then Render(comments[GetKey(line)]) else ""
  }

  /** The text that `insert_comments` builds from the lines of its argument. */
  function Annotate(lines: seq<string>, comments: map<string, Comment>): string {
    if lines == [] then ""
    else CommentFor(lines[0], comments) + lines[0] + "\n" + Annotate(lines[1..], comments)
  }

  function Concat(parts: seq<string>): string {
    if parts == [] then "" else Concat(parts[..|parts| - 1]) + parts[|parts| - 1]
  }

  lemma FourParts(a: string, b: string, c: string, d: string)
    ensures a + (b + c + d) == a + b + c + d
  {
  }

  lemma {:induction false} AnnotateAppend(a: seq<string>, b: seq<string>, comments: map<string, Comment>)
    ensures Annotate(a + b, comments) == Annotate(a, comments) + Annotate(b, comments)
  {
    if a == [] {
      assert a + b == b;
    } else {
      assert (a + b)[1..] == a[1..] + b;
      AnnotateAppend(a[1..], b, comments);
      Associative(CommentFor(a[0], comments) + a[0] + "\n", Annotate(a[1..], comments), Annotate(b, comments));
    }
  }

  lemma AnnotateOneMore(lines: seq<string>, line: string, comments: map<string, Comment>)
    ensures Annotate(lines + [line], comments) ==
            Annotate(lines, comments) + CommentFor(line, comments) + line + "\n"
  {
    AnnotateAppend(lines, [line], comments);
    var one := CommentFor(line, comments) + line + "\n";
    assert [line][1..] == [] && Annotate([line], comments) == one + "";
    assert one + "" == one;
    FourParts(Annotate(lines, comments), CommentFor(line, comments), line, "\n");
  }

  lemma ConcatPush(parts: seq<string>, part: string)
    ensures Concat(parts + [part]) == Concat(parts) + part
  {
    assert (parts + [part])[..|parts|] == parts;
  }

  /** What the loop pushes for one line. */
  function Pushed(line: string, comments: map<string, Comment>): seq<string> {
    (if GetKey(line) in comments then [Render(comments[GetKey(line)])] else []) + [line] + ["\n"]
  }

  lemma ConcatAppend(parts: seq<string>, more: seq<string>)
    ensures Concat(parts + more) == Concat(parts) + Concat(more)
  {
    if more == [] {
      assert parts + more == parts;
    } else {
      var init, last := more[..|more| - 1], more[|more| - 1];
      ConcatAppend(parts, init);
      ConcatPush(parts + init, last);
      assert parts + more == (parts + init) + [last];
      Associative(Concat(parts), Concat(init), last);
    }
  }

  lemma ConcatPushed(line: string, comments: map<string, Comment>)
    ensures Concat(Pushed(line, comments)) == CommentFor(line, comments) + line + "\n"
  {
    var text: seq<string> := if GetKey(line) in comments then [Render(comments[GetKey(line)])] else [];
    ConcatPush([], Render(if GetKey(line) in comments then comments[GetKey(line)] else []));
    ConcatPush(text, line);
    ConcatPush(text + [line], "\n");
  }

  lemma PushedIsOneMore(out: seq<string>, lines: seq<string>, line: string, comments: map<string, Comment>)
    requires Concat(out) == Annotate(lines, comments)
    ensures Concat(out + Pushed(line, comments)) == Annotate(lines + [line], comments)
  {
    AnnotateOneMore(lines, line, comments);
    ConcatPushed(line, comments);
    ConcatAppend(out, Pushed(line, comments));
    FourParts(Annotate(lines, comments), CommentFor(line, comments), line, "\n");
  }

  method PushLine(out: seq<string>, line: string, comments: map<string, Comment>) returns (longer: seq<string>)
    ensures longer == out + Pushed(line, comments)
  {
    longer := out;
    var key := GetKey(line);
    if key in comments {
      longer := longer + [Render(comments[key])];
    }
    longer := longer + [line] + ["\n"];
  }

  method Collected(out: seq<string>) returns (ret: string)
    ensures ret == Concat(out)
  {
    ret := "";
    for i := 0 to |out|
      invariant ret == Concat(out[..i])
    {
      ConcatPush(out[..i], out[i]);
      assert out[..i + 1] == out[..i] + [out[i]];
      ret := ret + out[i];
    }
    assert out[..|out|] == out;
  }

  /** `insert_comments`: the pushes, and then the collecting of what was pushed. */
  method InsertComments(orig: string, comments: map<string, Comment>) returns (ret: string)
    ensures ret == Annotate(Split(orig), comments)
  {
    var lines := Split(orig);
    var out: seq<string> := [];
    for i := 0 to |lines|
      invariant Concat(out) == Annotate(lines[..i], comments)
    {
      PushedIsOneMore(out, lines[..i], lines[i], comments);
      assert lines[..i + 1] == lines[..i] + [lines[i]];
      out := PushLine(out, lines[i], comments);
    }
    assert lines[..|lines|] == lines;
    ret := Collected(out);
  }

  // ---------- What the result looks like, line by line ----------

  /** The lines in front of `line`: nothing, or a blank line and the lines of the comment. */
  function Heading(line: string, comments: map<string, Comment>): Comment {
    if GetKey(line) in comments then [""] + comments[GetKey(line)] else []
  }

  function Interleave(lines: seq<string>, comments: map<string, Comment>): seq<string> {
    if lines == [] then [] else Heading(lines[0], comments) + [lines[0]] + Interleave(lines[1..], comments)
  }

  lemma {:induction false} SplitRenderedLines(lines: seq<string>, rest: string)
    requires forall l :: l in lines ==> '\n' !in l
    ensures Split(RenderLines(lines) + rest) == lines + Split(rest)
  {
    if lines == [] {
      assert RenderLines(lines) + rest == rest;
    } else {
      var more := RenderLines(lines[1..]);
      SplitRenderedLines(lines[1..], rest);
      SplitFirstLine(lines[0], more + rest);
      Associative(lines[0] + "\n", more, rest);
      assert lines == [lines[0]] + lines[1..];
      Associative([lines[0]], lines[1..], Split(rest));
    }
  }

  lemma SplitHeading(line: string, comments: map<string, Comment>, rest: string)
    ensures Split(CommentFor(line, comments) + rest) == Heading(line, comments) + Split(rest)
  {
    if GetKey(line) in comments {
      var comment := comments[GetKey(line)];
      SplitRenderedLines(comment, rest);
      assert Render(comment) == "" + "\n" + RenderLines(comment);
      assert Render(comment) + rest == "" + "\n" + (RenderLines(comment) + rest);
      SplitAtBreak("", RenderLines(comment) + rest);
    } else {
      assert CommentFor(line, comments) + rest == rest;
    }
  }

  lemma SplitAnnotated(line: string, comments: map<string, Comment>, rest: string)
    requires '\n' !in line
    ensures Split(CommentFor(line, comments) + line + "\n" + rest) == Heading(line, comments) + [line] + Split(rest)
  {
    SplitFirstLine(line, rest);
    SplitHeading(line, comments, line + "\n" + rest);
    FourParts(CommentFor(line, comments), line, "\n", rest);
    Associative(Heading(line, comments), [line], Split(rest));
  }

  /** Splitting the result gives the original lines, each behind its own comment, and one blank line at the end. */
  lemma {:induction false} CommentsStandOnTheirOwnLines(lines: seq<string>, comments: map<string, Comment>)
    requires forall l :: l in lines ==> '\n' !in l
    ensures Split(Annotate(lines, comments)) == Interleave(lines, comments) + [""]
  {
    if lines != [] {
      CommentsStandOnTheirOwnLines(lines[1..], comments);
      SplitAnnotated(lines[0], comments, Annotate(lines[1..], comments));
      Associative(Heading(lines[0], comments) + [lines[0]], Interleave(lines[1..], comments), [""]);
    }
  }

  /** In the result each line stands directly behind the comment of its key, if there is one, and its key is what stands
      in front of the first '=' without the white space around it. */
  lemma LineStandsBehindItsComment(before: seq<string>, line: string, after: seq<string>, key: string, comments: map<string, Comment>)
    requires forall l :: l in before + [line] + after ==> '\n' !in l
    requires IsKey(line, key)
    ensures Split(Annotate(before + [line] + after, comments)) ==
            Interleave(before, comments) + (if key in comments then [""] + comments[key] else []) + [line]
            + Interleave(after, comments) + [""]
  {
    GetKeyIff(line, key);
    CommentsStandOnTheirOwnLines(before + [line] + after, comments);
    InterleaveAppend(before + [line], after, comments);
    InterleaveAppend(before, [line], comments);
    assert Interleave([line], comments) == Heading(line, comments) + [line];
    Associative(Interleave(before, comments), Heading(line, comments), [line]);
  }

  lemma {:induction false} InterleaveAppend(a: seq<string>, b: seq<string>, comments: map<string, Comment>)
    ensures Interleave(a + b, comments) == Interleave(a, comments) + Interleave(b, comments)
  {
    if a == [] {
      assert a + b == b;
    } else {
      assert (a + b)[1..] == a[1..] + b;
      InterleaveAppend(a[1..], b, comments);
      Associative(Heading(a[0], comments) + [a[0]], Interleave(a[1..], comments), Interleave(b, comments));
    }
  }

  /** The usual form of a setting. */
  lemma SettingHasItsComment(before: seq<string>, key: string, value: string, after: seq<string>, comments: map<string, Comment>)
    requires key in comments && key != "" && (forall c :: c in key ==> 'a' <= c <= 'z' || c == '_')
    requires !('[' in value && ']' in value)
    requires forall l :: l in before + [key + " = " + value] + after ==> '\n' !in l
    ensures Split(Annotate(before + [key + " = " + value] + after, comments)) ==
            Interleave(before, comments) + ([""] + comments[key]) + [key + " = " + value] + Interleave(after, comments) + [""]
  {
    var line := key + " = " + value;
    assert line == "" + key + " " + ("=" + (" " + value));
    assert IsSpace(' ') && key[0] in key && key[|key| - 1] in key;
    assert Assigns(line, "", key, " ", " " + value);
    assert line[|key| + 1] == '=';
    assert forall c :: c in line ==> c in key || c == ' ' || c == '=' || c in value;
    LineStandsBehindItsComment(before, line, after, key, comments);
  }

  /** The lines that carry configuration data. */
  function DataLines(lines: seq<string>): seq<string> {
    if lines == [] then []
    else if Ignored(lines[0]) then DataLines(lines[1..])
    else [lines[0]] + DataLines(lines[1..])
  }

  lemma {:induction false} DataLinesAppend(a: seq<string>, b: seq<string>)
    ensures DataLines(a + b) == DataLines(a) + DataLines(b)
  {
    if a == [] {
      assert a + b == b;
    } else {
      assert (a + b)[1..] == a[1..] + b;
      DataLinesAppend(a[1..], b);
    }
  }

  lemma {:induction false} CommentsCarryNoData(lines: Comment)
    ensures DataLines(lines) == []
  {
    if lines != [] {
      CommentsCarryNoData(lines[1..]);
    }
  }

  lemma {:induction false} InterleavingKeepsData(lines: seq<string>, comments: map<string, Comment>)
    ensures DataLines(Interleave(lines, comments)) == DataLines(lines)
  {
    if lines != [] {
      var line, rest := lines[0], Interleave(lines[1..], comments);
      InterleavingKeepsData(lines[1..], comments);
      CommentsCarryNoData(Heading(line, comments));
      DataLinesAppend(Heading(line, comments) + [line], rest);
      DataLinesAppend(Heading(line, comments), [line]);
    }
  }

  /** Inserting comments changes no data line, drops none and adds none. */
  lemma CommentsKeepData(orig: string, comments: map<string, Comment>)
    ensures DataLines(Split(Annotate(Split(orig), comments))) == DataLines(Split(orig))
  {
    var lines := Split(orig);
    CommentsStandOnTheirOwnLines(lines, comments);
    DataLinesAppend(Interleave(lines, comments), [""]);
    InterleavingKeepsData(lines, comments);
  }
}
