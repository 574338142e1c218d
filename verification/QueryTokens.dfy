/** `tokenizeQuery` of doc/search.js: a search query is cut at its commas, except between a '<' and the '>' that
    follows it. */
module QueryTokens {
  import opened Wrappers

  predicate IsAngle(c: char) {
    c == '<' || c == '>'
  }

  /** The first angle bracket at or after `i`. */
  function NextAngle(raw: string, i: nat): Option<char>
    requires i <= |raw|
    decreases |raw| - i
  {
    if i == |raw| then None else if IsAngle(raw[i]) then Some(raw[i]) else NextAngle(raw, i + 1)
  }

  /** The last angle bracket before `i`. */
  function PreviousAngle(raw: string, i: nat): Option<char>
    requires i <= |raw|
  {
    if i == 0 then None else if IsAngle(raw[i - 1]) then Some(raw[i - 1]) else PreviousAngle(raw, i - 1)
  }

  /** Position `i` lies between a '<' and a '>' with no bracket in between. */
  predicate Enclosed(raw: string, i: nat)
    requires i <= |raw|
  {
    PreviousAngle(raw, i) == Some('<') && NextAngle(raw, i) == Some('>')
  }

  /** The commas that cut. */
  predicate Cuts(raw: string, i: nat) {
    i < |raw| && raw[i] == ',' && !Enclosed(raw, i)
  }

  /** A '<' and a '>' around position `i`, with no bracket in between. */
  ghost predicate Encloses(raw: string, a: nat, i: nat, b: nat) {
    && a < i < b < |raw| && raw[a] == '<' && raw[b] == '>'
    && forall j :: a < j < b ==> raw[j] != '<' && raw[j] != '>'
  }

  lemma {:induction false} PreviousIs(raw: string, i: nat, a: nat)
    requires a < i <= |raw| && IsAngle(raw[a]) && forall j :: a < j < i ==> !IsAngle(raw[j])
    ensures PreviousAngle(raw, i) == Some(raw[a])
  {
    if a < i - 1 {
      PreviousIs(raw, i - 1, a);
    }
  }

  lemma {:induction false} NextIs(raw: string, i: nat, b: nat)
    requires i <= b < |raw| && IsAngle(raw[b]) && forall j :: i <= j < b ==> !IsAngle(raw[j])
    ensures NextAngle(raw, i) == Some(raw[b])
    decreases b - i
  {
    if i < b {
      NextIs(raw, i + 1, b);
    }
  }

  lemma {:induction false} PreviousStands(raw: string, i: nat) returns (a: nat)
    requires i <= |raw| && PreviousAngle(raw, i).Some?
    ensures a < i && Some(raw[a]) == PreviousAngle(raw, i) && IsAngle(raw[a]) && forall j :: a < j < i ==> !IsAngle(raw[j])
  {
    a := i - 1;
    if !IsAngle(raw[i - 1]) {
      a := PreviousStands(raw, i - 1);
    }
  }

  lemma {:induction false} NextStands(raw: string, i: nat) returns (b: nat)
    requires i <= |raw| && NextAngle(raw, i).Some?
    ensures i <= b < |raw| && Some(raw[b]) == NextAngle(raw, i) && IsAngle(raw[b]) && forall j :: i <= j < b ==> !IsAngle(raw[j])
    decreases |raw| - i
  {
    b := i;
    if !IsAngle(raw[i]) {
      b := NextStands(raw, i + 1);
    }
  }

  /** The commas that cut are those that no '<' and '>' enclose. */
  lemma CutsIff(raw: string, i: nat)
    ensures Cuts(raw, i) <==> i < |raw| && raw[i] == ',' && !exists a: nat, b: nat :: Encloses(raw, a, i, b)
  {
    if i < |raw| && raw[i] == ',' {
      if Enclosed(raw, i) {
        var a := PreviousStands(raw, i);
        var b := NextStands(raw, i);
        assert Encloses(raw, a, i, b);
      } else if exists a: nat, b: nat :: Encloses(raw, a, i, b) {
        var a: nat, b: nat :| Encloses(raw, a, i, b);
        PreviousIs(raw, i, a);
        NextIs(raw, i, b);
      }
    }
  }

  /** The pieces of `raw[start..]`, the current piece having reached `i`. */
  function Pieces(raw: string, start: nat, i: nat): (pieces: seq<string>)
    requires start <= i <= |raw|
    ensures pieces != []
    decreases |raw| - i
  {
    if i == |raw| then [raw[start..i]]
    else if Cuts(raw, i) then [raw[start..i]] + Pieces(raw, i + 1, i + 1)
    else Pieces(raw, start, i + 1)
  }

  /** All pieces, without the last one if it is empty. */
  function Tokens(raw: string): seq<string> {
    DropEmptyLast(Pieces(raw, 0, 0))
  }

  function DropEmptyLast(pieces: seq<string>): seq<string> {
    if pieces != [] && pieces[|pieces| - 1] == "" then pieces[..|pieces| - 1] else pieces
  }

  method TokenizeQuery(raw: string) returns (ret: seq<string>)
    ensures ret == Tokens(raw)
  {
    var depth := 0;
    ret := [];
    var start := 0;
    var i := 0;
    while i < |raw|
      invariant start <= i <= |raw|
      invariant depth == if Enclosed(raw, i) then 1 else 0
      invariant Pieces(raw, 0, 0) == ret + Pieces(raw, start, i)
    {
      match raw[i] {
        case '<' =>
          if NextAngle(raw, i + 1) == Some('>') {
            depth := depth + 1;
          }
        case '>' =>
          if depth > 0 {
            depth := depth - 1;
          }
        case ',' =>
          if depth == 0 {
            ret := ret + [raw[start..i]];
            start := i + 1;
          }
        case _ =>
      }
      i := i + 1;
    }
    if start != i {
      ret := ret + [raw[start..i]];
    }
  }

  // ---------- What the tokens are ----------

  function JoinWith(pieces: seq<string>, separator: string): string
    requires pieces != []
  {
    if |pieces| == 1 then pieces[0] else pieces[0] + separator + JoinWith(pieces[1..], separator)
  }

  lemma {:induction false} PiecesJoin(raw: string, start: nat, i: nat)
    requires start <= i <= |raw|
    ensures JoinWith(Pieces(raw, start, i), ",") == raw[start..]
    decreases |raw| - i
  {
    if i == |raw| {
      assert raw[start..i] == raw[start..];
    } else if Cuts(raw, i) {
      PiecesJoin(raw, i + 1, i + 1);
      assert raw[start..] == raw[start..i] + "," + raw[i + 1..];
      assert Pieces(raw, start, i)[1..] == Pieces(raw, i + 1, i + 1);
    } else {
      PiecesJoin(raw, start, i + 1);
    }
  }

  lemma {:induction false} JoinDropsLast(pieces: seq<string>, separator: string)
    requires |pieces| > 1
    ensures JoinWith(pieces, separator) == JoinWith(pieces[..|pieces| - 1], separator) + separator + pieces[|pieces| - 1]
  {
    var init := pieces[..|pieces| - 1];
    if |pieces| > 2 {
      JoinDropsLast(pieces[1..], separator);
      assert pieces[1..][..|pieces| - 2] == init[1..];
    }
  }

  lemma {:induction false} LastPiece(raw: string, start: nat, i: nat)
    requires start <= i <= |raw|
    requires forall j :: start <= j < i ==> !Cuts(raw, j)
    ensures var pieces := Pieces(raw, start, i);
            pieces[|pieces| - 1] == "" <==> start == |raw| || Cuts(raw, |raw| - 1)
    decreases |raw| - i
  {
    if i == |raw| {
      assert raw[start..i] == "" <==> start == |raw|;
    } else if Cuts(raw, i) {
      LastPiece(raw, i + 1, i + 1);
    } else {
      LastPiece(raw, start, i + 1);
    }
  }

  /** The tokens, joined with commas, give the query back; only a cutting comma at its very end is lost. */
  lemma TokensJoin(raw: string)
    ensures Tokens(raw) == [] <==> raw == ""
    ensures raw != "" ==>
            raw == JoinWith(Tokens(raw), ",") + (if Cuts(raw, |raw| - 1) then "," else "")
  {
    var pieces := Pieces(raw, 0, 0);
    PiecesJoin(raw, 0, 0);
    LastPiece(raw, 0, 0);
    assert raw[0..] == raw;
    if |pieces| > 1 {
      JoinDropsLast(pieces, ",");
    }
  }

  /** Each piece runs from one cut to the next: no cut lies inside it, and the `k`-th piece follows `k` cuts. */
  lemma {:induction false} PieceIsBetweenCuts(raw: string, start: nat, i: nat, k: nat) returns (from: nat, end: nat)
    requires start <= i <= |raw| && (start == 0 || Cuts(raw, start - 1))
    requires forall j :: start <= j < i ==> !Cuts(raw, j)
    requires k < |Pieces(raw, start, i)|
    ensures start <= from <= end <= |raw| && Pieces(raw, start, i)[k] == raw[from..end]
    ensures (from == 0 || Cuts(raw, from - 1)) && (end == |raw| || Cuts(raw, end))
    ensures forall j :: from <= j < end ==> !Cuts(raw, j)
    ensures CutsIn(raw, start, from) == k
    decreases |raw| - i
  {
    if i < |raw| && !Cuts(raw, i) {
      from, end := PieceIsBetweenCuts(raw, start, i + 1, k);
    } else if k == 0 {
      from, end := start, i;
    } else {
      from, end := PieceIsBetweenCuts(raw, i + 1, i + 1, k - 1);
      NoCuts(raw, start, i);
      CutsSplit(raw, start, i, from);
    }
  }

  /** How many cuts there are in `raw[from..end]`. */
  function CutsIn(raw: string, from: nat, end: nat): nat
    requires from <= end <= |raw|
    decreases end - from
  {
    if from == end then 0 else (if Cuts(raw, from) then 1 else 0) + CutsIn(raw, from + 1, end)
  }

  lemma {:induction false} NoCuts(raw: string, from: nat, end: nat)
    requires from <= end <= |raw| && forall j :: from <= j < end ==> !Cuts(raw, j)
    ensures CutsIn(raw, from, end) == 0
    decreases end - from
  {
    if from < end {
      NoCuts(raw, from + 1, end);
    }
  }

  lemma {:induction false} CutsSplit(raw: string, from: nat, mid: nat, end: nat)
    requires from <= mid <= end <= |raw|
    ensures CutsIn(raw, from, end) == CutsIn(raw, from, mid) + CutsIn(raw, mid, end)
    decreases mid - from
  {
    if from < mid {
      CutsSplit(raw, from + 1, mid, end);
    }
  }
}
