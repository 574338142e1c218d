/** The edit distance behind the search box: `levenshtein` of doc/search.js.

    `Distance` is the recursive definition, `Edit` scripts give it an independent meaning (the cheapest way to turn
    one string into another), and `RowBuffer.Levenshtein` is the one-row loop, proved equal to `Distance` whatever the
    buffer held before. */
module EditDistance {

  /** JavaScript strings are sequences of 16-bit code units; `charCodeAt` reads one of them. */
  type CodeUnit = c: nat | c < 0x1_0000
  type Text = seq<CodeUnit>

  function Min(a: nat, b: nat): nat {
    if a < b then a else b
  }

  function Mismatch(c: CodeUnit, d: CodeUnit): nat {
    if c == d then 0 else 1
  }

  function Init(s: Text): Text
    requires s != []
  {
    s[..|s| - 1]
  }

  function Last(s: Text): CodeUnit
    requires s != []
  {
    s[|s| - 1]
  }

  /** The recursive edit distance, peeling the last code unit of either string. */
  function Distance(x: Text, y: Text): nat
    decreases |x| + |y|
  {
    if x == [] then |y|
    else if y == [] then |x|
    else Min(Min(Distance(Init(x), y), Distance(x, Init(y))) + 1,
             Distance(Init(x), Init(y)) + Mismatch(Last(x), Last(y)))
  }

  // ---------- Edit scripts: what the number means ----------

  datatype Edit = Keep(c: CodeUnit) | Change(from: CodeUnit, to: CodeUnit) | Insert(c: CodeUnit) | Delete(c: CodeUnit)
  {
    function Consumed(): Text {
      match this
      case Keep(c) => [c]
      case Change(from, _) => [from]
      case Insert(_) => []
      case Delete(c) => [c]
    }

    function Produced(): Text {
      match this
      case Keep(c) => [c]
      case Change(_, to) => [to]
      case Insert(c) => [c]
      case Delete(_) => []
    }

    function Price(): nat {
      if Keep? then 0 else 1
    }

    function Inverse(): Edit {
      match this
      case Keep(c) => Keep(c)
      case Change(from, to) => Change(to, from)
      case Insert(c) => Delete(c)
      case Delete(c) => Insert(c)
    }
  }

  datatype Script = Empty | Then(before: Script, edit: Edit)
  {
    function Source(): Text {
      match this
      case Empty => []
      case Then(before, edit) => before.Source() + edit.Consumed()
    }

    function Target(): Text {
      match this
      case Empty => []
      case Then(before, edit) => before.Target() + edit.Produced()
    }

    function Cost(): nat {
      match this
      case Empty => 0
      case Then(before, edit) => before.Cost() + edit.Price()
    }

    function Inverse(): Script {
      match this
      case Empty => Empty
      case Then(before, edit) => Then(before.Inverse(), edit.Inverse())
    }
  }

  lemma DistanceGrowsByOne(x: Text, y: Text, c: CodeUnit, d: CodeUnit)
    ensures Distance(x + [c], y) <= Distance(x, y) + 1
    ensures Distance(x, y + [d]) <= Distance(x, y) + 1
    ensures Distance(x + [c], y + [d]) <= Distance(x, y) + Mismatch(c, d)
  {
    assert Init(x + [c]) == x;
    assert Init(y + [d]) == y;
  }

  /** No script is cheaper than the distance between its two ends. */
  lemma {:induction false} NoScriptIsCheaper(script: Script)
    ensures Distance(script.Source(), script.Target()) <= script.Cost()
  {
    match script
    case Empty =>
    case Then(before, edit) =>
      NoScriptIsCheaper(before);
      var x, y := before.Source(), before.Target();
      assert x + [] == x && y + [] == y;
      match edit
      case Keep(c) => DistanceGrowsByOne(x, y, c, c);
      case Change(from, to) => DistanceGrowsByOne(x, y, from, to);
      case Insert(c) => DistanceGrowsByOne(x, y, c, c);
      case Delete(c) => DistanceGrowsByOne(x, y, c, c);
  }

  /** A script that attains the distance. */
  function BestScript(x: Text, y: Text): (script: Script)
    ensures script.Source() == x && script.Target() == y
    ensures script.Cost() == Distance(x, y)
    decreases |x| + |y|
  {
    if x == [] && y == [] then Empty
    else if x == [] then
      assert y == Init(y) + [Last(y)];
      Then(BestScript(x, Init(y)), Insert(Last(y)))
    else if y == [] then
      assert x == Init(x) + [Last(x)];
      Then(BestScript(Init(x), y), Delete(Last(x)))
    else
      assert x == Init(x) + [Last(x)];
      assert y == Init(y) + [Last(y)];
      if Distance(x, y) == Distance(Init(x), y) + 1 then Then(BestScript(Init(x), y), Delete(Last(x)))
      else if Distance(x, y) == Distance(x, Init(y)) + 1 then Then(BestScript(x, Init(y)), Insert(Last(y)))
      else if Last(x) == Last(y) then Then(BestScript(Init(x), Init(y)), Keep(Last(x)))
      else Then(BestScript(Init(x), Init(y)), Change(Last(x), Last(y)))
  }

  lemma {:induction false} InverseScript(script: Script)
    ensures script.Inverse().Source() == script.Target()
    ensures script.Inverse().Target() == script.Source()
    ensures script.Inverse().Cost() == script.Cost()
  {
    match script
    case Empty =>
    case Then(before, _) => InverseScript(before);
  }

  /** One edit in place of two: `second` works on the code unit that `first` left behind. */
  function Extend(script: Script, first: Edit, second: Edit): (longer: Script)
    requires first.Produced() == second.Consumed() != []
    ensures longer.Source() == script.Source() + first.Consumed()
    ensures longer.Target() == script.Target() + second.Produced()
    ensures longer.Cost() <= script.Cost() + first.Price() + second.Price()
  {
    if first.Keep? then Then(script, second)
    else if second.Keep? then Then(script, first)
    else if first.Insert? && second.Delete? then script
    else if first.Insert? then Then(script, Insert(second.to))
    else if second.Delete? then Then(script, Delete(first.from))
    else Then(script, Change(first.from, second.to))
  }

  /** Running `first` and then `second` as one script costs no more than both. */
  function Compose(first: Script, second: Script): (script: Script)
    requires first.Target() == second.Source()
    ensures script.Source() == first.Source() && script.Target() == second.Target()
    ensures script.Cost() <= first.Cost() + second.Cost()
    decreases first, second
  {
    if first.Then? && first.edit.Delete? then
      assert first.Target() == first.before.Target();
      Then(Compose(first.before, second), first.edit)
    else if second.Then? && second.edit.Insert? then
      assert second.Source() == second.before.Source();
      Then(Compose(first, second.before), second.edit)
    else if first.Empty? || second.Empty? then Empty
    else
      assert first.before.Target() == Init(first.Target()) == Init(second.Source()) == second.before.Source();
      assert first.edit.Produced()[0] == Last(first.Target()) == Last(second.Source()) == second.edit.Consumed()[0];
      Extend(Compose(first.before, second.before), first.edit, second.edit)
  }

  lemma {:induction false} FreeScriptKeepsEverything(script: Script)
    requires script.Cost() == 0
    ensures script.Source() == script.Target()
  {
    match script
    case Empty =>
    case Then(before, _) => FreeScriptKeepsEverything(before);
  }

  /** The recursive number is the least cost over all edit scripts: some script attains it, none goes below it. */
  lemma DistanceIsLeastCost(x: Text, y: Text)
    ensures exists script: Script :: script.Source() == x && script.Target() == y && script.Cost() == Distance(x, y)
    ensures forall script: Script :: script.Source() == x && script.Target() == y ==> Distance(x, y) <= script.Cost()
  {
    assert BestScript(x, y).Cost() == Distance(x, y);
    forall script: Script | script.Source() == x && script.Target() == y
      ensures Distance(x, y) <= script.Cost()
    {
      NoScriptIsCheaper(script);
    }
  }

  lemma {:induction false} SelfDistance(x: Text)
    ensures Distance(x, x) == 0
  {
    if x != [] {
      SelfDistance(Init(x));
    }
  }

  /** `levenshtein` measures like a metric. */
  lemma DistanceIsAMetric(x: Text, y: Text, z: Text)
    ensures Distance(x, y) == 0 <==> x == y
    ensures Distance(x, y) == Distance(y, x)
    ensures Distance(x, z) <= Distance(x, y) + Distance(y, z)
  {
    SelfDistance(x);
    if Distance(x, y) == 0 {
      FreeScriptKeepsEverything(BestScript(x, y));
    }
    InverseScript(BestScript(x, y));
    NoScriptIsCheaper(BestScript(x, y).Inverse());
    InverseScript(BestScript(y, x));
    NoScriptIsCheaper(BestScript(y, x).Inverse());
    NoScriptIsCheaper(Compose(BestScript(x, y), BestScript(y, z)));
  }

  // ---------- The loop of doc/search.js ----------

  /** The cost of turning the first `i` units of `x` into the first `j` units of `y`. */
  ghost function Cell(x: Text, y: Text, i: nat, j: nat): nat
    requires i <= |x| && j <= |y|
  {
    Distance(x[..i], y[..j])
  }

  lemma CellStep(x: Text, y: Text, i: nat, j: nat)
    requires i < |x| && j < |y|
    ensures Cell(x, y, i + 1, j + 1) ==
            Min(Min(Cell(x, y, i, j + 1), Cell(x, y, i + 1, j)) + 1, Cell(x, y, i, j) + Mismatch(x[i], y[j]))
  {
    assert Init(x[..i + 1]) == x[..i];
    assert Init(y[..j + 1]) == y[..j];
  }

  /** The global `levenshtein_row2`: one array that every call reuses and may lengthen, never clearing it. */
  class RowBuffer {
    var row: seq<nat>

    constructor ()
      ensures row == []
    {
      row := [];
    }

    /** JavaScript's `row[i] = v` for an index inside the array or right behind its end. */
    method Put(i: nat, v: nat)
      requires i <= |row|
      modifies this
      ensures |row| == (if i < |old(row)| then |old(row)| else i + 1)
      ensures row[i] == v
      ensures forall k :: 0 <= k < |old(row)| && k != i ==> row[k] == old(row)[k]
    {
      row := if i < |row| then row[i := v] else row + [v];
    }

    method Levenshtein(s1: Text, s2: Text) returns (d: nat)
      modifies this
      ensures d == Distance(s1, s2)
      ensures |row| >= |old(row)|
    {
      if s1 == s2 {
        SelfDistance(s1);
        return 0;
      }
      if |s1| == 0 || |s2| == 0 {
        return |s1| + |s2|;
      }
      var i1 := 0;
      while i1 < |s1|
        invariant i1 <= |s1| && i1 <= |row| && |row| >= |old(row)|
        invariant forall k :: 0 <= k < i1 ==> row[k] == Cell(s1, s2, k + 1, 0)
      {
        Put(i1, i1 + 1);
        i1 := i1 + 1;
      }
      var i2 := 0;
      var b := 0;
      while i2 < |s2|
        invariant i2 <= |s2| && |s1| <= |row| && |row| >= |old(row)|
        invariant forall k :: 0 <= k < |s1| ==> row[k] == Cell(s1, s2, k + 1, i2)
        invariant i2 > 0 ==> b == Cell(s1, s2, |s1|, i2)
      {
        var c2 := s2[i2];
        var a := i2;
        i2 := i2 + 1;
        b := i2;
        i1 := 0;
        while i1 < |s1|
          invariant i1 <= |s1| <= |row| && |row| >= |old(row)|
          invariant a == Cell(s1, s2, i1, i2 - 1) && b == Cell(s1, s2, i1, i2)
          invariant forall k :: 0 <= k < i1 ==> row[k] == Cell(s1, s2, k + 1, i2)
          invariant forall k :: i1 <= k < |s1| ==> row[k] == Cell(s1, s2, k + 1, i2 - 1)
        {
          CellStep(s1, s2, i1, i2 - 1);
          var c := a + (if s1[i1] != c2 then 1 else 0);
          a := row[i1];
          b := if b < a then (if b < c then b + 1 else c) else (if a < c then a + 1 else c);
          Put(i1, b);
          i1 := i1 + 1;
        }
      }
      assert s1[..|s1|] == s1 && s2[..|s2|] == s2;
      return b;
    }
  }
}
