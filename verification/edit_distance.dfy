/**
 * Levenshtein error counts: the table, its traceback, and why both are optimal.
 *
 * The repository holds the algorithm twice, once returning counts and once returning the list of
 * mismatches. Both are stated here against one reference notion that mentions no table at all: an
 * edit script, that is, a list of steps that rewrites the reference into the hypothesis.
 */
module EditDistance {

  datatype Step<T> =
    | Match(token: T)
    | Substitute(expected: T, observed: T)
    | Delete(expected: T)
    | Insert(observed: T)
  {
    // What the step reads from the reference, writes to the hypothesis, and costs.
    function Reads(): seq<T> {
      match this
      case Match(token) => [token]
      case Substitute(e, _) => [e]
      case Delete(e) => [e]
      case Insert(_) => []
    }

    function Writes(): seq<T> {
      match this
      case Match(token) => [token]
      case Substitute(_, o) => [o]
      case Delete(_) => []
      case Insert(o) => [o]
    }

    function Cost(): nat {
      if Match? then 0 else 1
    }
  }

  datatype Script<T> = Empty | Then(front: Script<T>, last: Step<T>)

  ghost function Reference<T>(script: Script<T>): seq<T> {
    match script
    case Empty => []
    case Then(front, last) => Reference(front) + last.Reads()
  }

  ghost function Hypothesis<T>(script: Script<T>): seq<T> {
    match script
    case Empty => []
    case Then(front, last) => Hypothesis(front) + last.Writes()
  }

  ghost predicate Aligns<T>(script: Script<T>, reference: seq<T>, hypothesis: seq<T>) {
    Reference(script) == reference && Hypothesis(script) == hypothesis
  }

  // A genuine script calls a pair of equal tokens a match, never a substitution.
  ghost predicate Genuine<T>(script: Script<T>) {
    match script
    case Empty => true
    case Then(front, last) => Genuine(front) && (last.Substitute? ==> last.expected != last.observed)
  }

  ghost function Cost<T>(script: Script<T>): nat {
    match script
    case Empty => 0
    case Then(front, last) => Cost(front) + last.Cost()
  }

  datatype TextErrorCounts = TextErrorCounts(
    referenceCount: nat, hypothesisCount: nat, substitutions: nat, deletions: nat, insertions: nat)
  {
    function Plus(that: TextErrorCounts): TextErrorCounts {
      TextErrorCounts(referenceCount + that.referenceCount, hypothesisCount + that.hypothesisCount,
                      substitutions + that.substitutions, deletions + that.deletions, insertions + that.insertions)
    }
  }

  ghost function Substitutions<T>(script: Script<T>): nat {
    match script
    case Empty => 0
    case Then(front, last) => Substitutions(front) + if last.Substitute? then 1 else 0
  }

  ghost function Deletions<T>(script: Script<T>): nat {
    match script
    case Empty => 0
    case Then(front, last) => Deletions(front) + if last.Delete? then 1 else 0
  }

  ghost function Insertions<T>(script: Script<T>): nat {
    match script
    case Empty => 0
    case Then(front, last) => Insertions(front) + if last.Insert? then 1 else 0
  }

  ghost function CountsOf<T>(script: Script<T>): TextErrorCounts {
    TextErrorCounts(|Reference(script)|, |Hypothesis(script)|,
                    Substitutions(script), Deletions(script), Insertions(script))
  }

  // The mismatching steps of a script, in order: what an edit list shows.
  ghost function Mismatches<T>(script: Script<T>): seq<Step<T>> {
    match script
    case Empty => []
    case Then(front, last) => if last.Match? then Mismatches(front) else Mismatches(front) + [last]
  }

  /* ---------- the recurrence the table holds ---------- */

  function Min3(a: nat, b: nat, c: nat): nat {
    var m := if a <= b then a else b;
    if m <= c then m else c
  }

  // Row i, column j relates the first i reference tokens to the first j hypothesis tokens.
  type Table = seq<seq<nat>>

  // What the source writes into cell (i, j).
  ghost predicate CellRule<T>(t: Table, r: seq<T>, h: seq<T>, i: nat, j: nat)
    requires |t| == |r| + 1 && i <= |r| && j <= |h| && forall x :: 0 <= x <= |r| ==> |t[x]| == |h| + 1
  {
    t[i][j] ==
      if i == 0 then j
      else if j == 0 then i
      else Min3(t[i - 1][j] + 1, t[i][j - 1] + 1, t[i - 1][j - 1] + if r[i - 1] == h[j - 1] then 0 else 1)
  }

  ghost predicate IsTable<T>(t: Table, r: seq<T>, h: seq<T>) {
    |t| == |r| + 1 &&
    (forall x :: 0 <= x <= |r| ==> |t[x]| == |h| + 1) &&
    forall i, j {:trigger CellRule(t, r, h, i, j)} :: 0 <= i <= |r| && 0 <= j <= |h| ==> CellRule(t, r, h, i, j)
  }

  ghost function CellValue<T>(r: seq<T>, h: seq<T>, i: nat, j: nat): nat
    requires i <= |r| && j <= |h|
  {
    if i == 0 then j
    else if j == 0 then i
    else
      Min3(CellValue(r, h, i - 1, j) + 1,
           CellValue(r, h, i, j - 1) + 1,
           CellValue(r, h, i - 1, j - 1) + if r[i - 1] == h[j - 1] then 0 else 1)
  }

  ghost function DistanceTable<T>(r: seq<T>, h: seq<T>): (t: Table)
    ensures IsTable(t, r, h)
  {
    seq(|r| + 1, i requires 0 <= i <= |r| => seq(|h| + 1, j requires 0 <= j <= |h| => CellValue(r, h, i, j)))
  }

  // The rule leaves no freedom: a cell has the same value in every table for the two texts.
  lemma {:induction false} TableIsUnique<T>(t: Table, u: Table, r: seq<T>, h: seq<T>, i: nat, j: nat)
    requires IsTable(t, r, h) && IsTable(u, r, h) && i <= |r| && j <= |h|
    ensures t[i][j] == u[i][j]
  {
    assert CellRule(t, r, h, i, j) && CellRule(u, r, h, i, j);
    if i > 0 && j > 0 {
      TableIsUnique(t, u, r, h, i - 1, j);
      TableIsUnique(t, u, r, h, i, j - 1);
      TableIsUnique(t, u, r, h, i - 1, j - 1);
    }
  }

  // The step one iteration of the traceback takes from cell (i, j), in the branch order of the source.
  ghost function Backstep<T>(t: Table, r: seq<T>, h: seq<T>, i: nat, j: nat): Step<T>
    requires IsTable(t, r, h) && i <= |r| && j <= |h| && (i > 0 || j > 0)
  {
    if i > 0 && j > 0 && r[i - 1] == h[j - 1] && t[i][j] == t[i - 1][j - 1] then Match(r[i - 1])
    else if i > 0 && j > 0 && t[i][j] == t[i - 1][j - 1] + 1 then Substitute(r[i - 1], h[j - 1])
    else if i > 0 && t[i][j] == t[i - 1][j] + 1 then Delete(r[i - 1])
    else
      // The final else takes a hypothesis token, and there always is one.
      assert CellRule(t, r, h, i, j) && (i > 0 ==> CellRule(t, r, h, i - 1, j));
      Insert(h[j - 1])
  }

  // Every branch of the traceback, the final else included, is a legal step: it reads and writes the
  // tokens just before the cell, never calls equal tokens a substitution, and pays the exact difference.
  lemma {:induction false} BackstepIsLegal<T>(t: Table, r: seq<T>, h: seq<T>, i: nat, j: nat)
    requires IsTable(t, r, h) && i <= |r| && j <= |h| && (i > 0 || j > 0)
    ensures var step := Backstep(t, r, h, i, j);
            |step.Reads()| <= i && |step.Writes()| <= j &&
            step.Reads() == r[i - |step.Reads()|..i] && step.Writes() == h[j - |step.Writes()|..j] &&
            t[i][j] == t[i - |step.Reads()|][j - |step.Writes()|] + step.Cost() &&
            (step.Substitute? ==> step.expected != step.observed)
  {
    assert CellRule(t, r, h, i, j);
    assert i > 0 ==> CellRule(t, r, h, i - 1, j);
    assert j > 0 ==> CellRule(t, r, h, i, j - 1);
  }

  // The whole walk from cell (i, j) back to the origin.
  ghost function Trace<T>(t: Table, r: seq<T>, h: seq<T>, i: nat, j: nat): Script<T>
    requires IsTable(t, r, h) && i <= |r| && j <= |h|
    decreases i + j
  {
    if i == 0 && j == 0 then Empty
    else
      BackstepIsLegal(t, r, h, i, j);
      var step := Backstep(t, r, h, i, j);
      var rest :=
        if step.Delete? then Trace(t, r, h, i - 1, j)
        else if step.Insert? then Trace(t, r, h, i, j - 1)
        else Trace(t, r, h, i - 1, j - 1);
      Then(rest, step)
  }

  /* ---------- lower bound: no script beats a cell ---------- */

  // One step can lower a cell by no more than what the step costs.
  lemma {:induction false} StepLowersAtMostItsCost<T>(t: Table, r: seq<T>, h: seq<T>, i: nat, j: nat, step: Step<T>)
    requires IsTable(t, r, h) && |step.Reads()| <= i <= |r| && |step.Writes()| <= j <= |h|
    requires step.Match? ==> r[i - 1] == h[j - 1]
    ensures t[i][j] <= t[i - |step.Reads()|][j - |step.Writes()|] + step.Cost()
  {
    assert CellRule(t, r, h, i, j);
    assert i > 0 ==> CellRule(t, r, h, i - 1, j);
    assert j > 0 ==> CellRule(t, r, h, i, j - 1);
  }

  // Every table cell bounds from below the cost of every script for its pair of prefixes.
  lemma {:induction false} NoScriptIsCheaper<T>(
      script: Script<T>, t: Table, r: seq<T>, h: seq<T>, i: nat, j: nat)
    requires IsTable(t, r, h) && i <= |r| && j <= |h|
    requires Aligns(script, r[..i], h[..j])
    ensures t[i][j] <= Cost(script)
  {
    match script
    case Empty =>
      assert |r[..i]| == 0 && |h[..j]| == 0;
      assert CellRule(t, r, h, i, j);
    case Then(front, last) =>
      var x, y := ShortenAlignment(front, last, r, h, i, j);
      NoScriptIsCheaper(front, t, r, h, x, y);
      StepLowersAtMostItsCost(t, r, h, i, j, last);
  }

  lemma {:induction false} ShortenAlignment<T>(
      front: Script<T>, last: Step<T>, r: seq<T>, h: seq<T>, i: nat, j: nat)
    returns (x: nat, y: nat)
    requires i <= |r| && j <= |h| && Aligns(Then(front, last), r[..i], h[..j])
    ensures x + |last.Reads()| == i && y + |last.Writes()| == j && Aligns(front, r[..x], h[..y])
    ensures last.Match? ==> r[x] == h[y]
  {
    SplitLast(Reference(front), last.Reads(), r, i);
    SplitLast(Hypothesis(front), last.Writes(), h, j);
    x, y := i - |last.Reads()|, j - |last.Writes()|;
    assert last.Match? ==> r[x..i] == [last.token] && h[y..j] == [last.token];
  }

  lemma {:induction false} SplitLast<T>(front: seq<T>, last: seq<T>, whole: seq<T>, i: nat)
    requires i <= |whole| && front + last == whole[..i]
    ensures |last| <= i && front == whole[..i - |last|] && last == whole[i - |last|..i]
  {
    assert |front + last| == i;
    assert (front + last)[..i - |last|] == front;
    assert (front + last)[i - |last|..] == last;
  }

  /* ---------- upper bound: the traceback attains it ---------- */

  lemma {:induction false} ExtendAlignment<T>(
      front: Script<T>, step: Step<T>, r: seq<T>, h: seq<T>, x: nat, y: nat, i: nat, j: nat)
    requires x <= i <= |r| && y <= j <= |h| && Aligns(front, r[..x], h[..y])
    requires step.Reads() == r[x..i] && step.Writes() == h[y..j]
    ensures Aligns(Then(front, step), r[..i], h[..j])
  {
    assert r[..i] == r[..x] + r[x..i] && h[..j] == h[..y] + h[y..j];
  }

  // The traceback is a genuine alignment of the two prefixes whose cost is exactly the table cell.
  lemma {:induction false} TraceAttainsCell<T>(t: Table, r: seq<T>, h: seq<T>, i: nat, j: nat)
    requires IsTable(t, r, h) && i <= |r| && j <= |h|
    ensures Aligns(Trace(t, r, h, i, j), r[..i], h[..j])
    ensures Cost(Trace(t, r, h, i, j)) == t[i][j]
    ensures Genuine(Trace(t, r, h, i, j))
    decreases i + j
  {
    if i > 0 || j > 0 {
      var x, y, step := TraceUnfolds(t, r, h, i, j);
      TraceAttainsCell(t, r, h, x, y);
      ExtendAlignment(Trace(t, r, h, x, y), step, r, h, x, y, i, j);
    } else {
      assert CellRule(t, r, h, 0, 0);
    }
  }

  lemma {:induction false} TraceUnfolds<T>(t: Table, r: seq<T>, h: seq<T>, i: nat, j: nat)
    returns (x: nat, y: nat, step: Step<T>)
    requires IsTable(t, r, h) && i <= |r| && j <= |h| && (i > 0 || j > 0)
    ensures x <= i && y <= j && x + y < i + j && step.Reads() == r[x..i] && step.Writes() == h[y..j]
    ensures Trace(t, r, h, i, j) == Then(Trace(t, r, h, x, y), step)
    ensures t[i][j] == t[x][y] + step.Cost() && (step.Substitute? ==> step.expected != step.observed)
  {
    BackstepIsLegal(t, r, h, i, j);
    step := Backstep(t, r, h, i, j);
    x := if step.Insert? then i else i - 1;
    y := if step.Delete? then j else j - 1;
  }

  // A cell is the least cost of any script for its prefixes, and some genuine script has that cost.
  lemma {:induction false} CellIsMinimumCost<T>(t: Table, r: seq<T>, h: seq<T>, i: nat, j: nat)
    requires IsTable(t, r, h) && i <= |r| && j <= |h|
    ensures exists s :: Aligns(s, r[..i], h[..j]) && Genuine(s) && Cost(s) == t[i][j]
    ensures forall s :: Aligns(s, r[..i], h[..j]) ==> t[i][j] <= Cost(s)
  {
    TraceAttainsCell(t, r, h, i, j);
    forall s | Aligns(s, r[..i], h[..j]) ensures t[i][j] <= Cost(s) {
      NoScriptIsCheaper(s, t, r, h, i, j);
    }
  }

  ghost function OptimalScript<T>(r: seq<T>, h: seq<T>): Script<T> {
    Trace(DistanceTable(r, h), r, h, |r|, |h|)
  }

  // Whatever table a program filled, its walk is the optimal script: there is only one table.
  lemma {:induction false} AnyTableGivesOptimalScript<T>(t: Table, r: seq<T>, h: seq<T>)
    requires IsTable(t, r, h)
    ensures Trace(t, r, h, |r|, |h|) == OptimalScript(r, h)
  {
    var u := DistanceTable(r, h);
    forall i | 0 <= i <= |r| ensures t[i] == u[i] {
      forall j | 0 <= j <= |h| ensures t[i][j] == u[i][j] {
        TableIsUnique(t, u, r, h, i, j);
      }
    }
    assert t == u;
  }

  lemma {:induction false} TableExists<T>(r: seq<T>, h: seq<T>) returns (t: Table)
    ensures IsTable(t, r, h)
  {
    t := DistanceTable(r, h);
  }

  // Counting a script counts its two texts, so reference - deletions + insertions = hypothesis.
  lemma {:induction false} CountsBalance<T>(script: Script<T>)
    ensures Substitutions(script) + Deletions(script) + Insertions(script) == Cost(script)
    ensures |Mismatches(script)| == Cost(script)
    ensures |Reference(script)| - Deletions(script) + Insertions(script) == |Hypothesis(script)|
  {
    if script.Then? {
      CountsBalance(script.front);
    }
  }

  // The promise of both copies: a genuine alignment, the cheapest of all, with balanced counts.
  lemma {:induction false} OptimalScriptIsOptimal<T>(r: seq<T>, h: seq<T>, other: Script<T>)
    ensures Aligns(OptimalScript(r, h), r, h) && Genuine(OptimalScript(r, h))
    ensures Aligns(other, r, h) ==> Cost(OptimalScript(r, h)) <= Cost(other)
    ensures var c := CountsOf(OptimalScript(r, h));
            c.referenceCount == |r| && c.hypothesisCount == |h| && |r| - c.deletions + c.insertions == |h| &&
            c.substitutions + c.deletions + c.insertions == Cost(OptimalScript(r, h))
  {
    var t := DistanceTable(r, h);
    assert r[..|r|] == r && h[..|h|] == h;
    TraceAttainsCell(t, r, h, |r|, |h|);
    CountsBalance(OptimalScript(r, h));
    if Aligns(other, r, h) {
      NoScriptIsCheaper(other, t, r, h, |r|, |h|);
    }
  }

  /* ---------- the two programs ---------- */

  // The array holds every cell of the table that is filled before cell (i, j) is visited; the borders
  // are filled from the start.
  ghost predicate HoldsBefore(d: array2<nat>, t: Table, i: nat, j: nat)
    reads d
  {
    d.Length0 == |t| &&
    forall x, y | 0 <= x < |t| && 0 <= y < |t[x]| ::
      y < d.Length1 && (x == 0 || y == 0 || x < i || (x == i && y < j) ==> d[x, y] == t[x][y])
  }

  ghost predicate Holds(d: array2<nat>, t: Table)
    reads d
  {
    HoldsBefore(d, t, |t|, 0)
  }

  // The border loops, alike in both copies.
  method Borders<T>(r: seq<T>, h: seq<T>, ghost t: Table) returns (d: array2<nat>)
    requires IsTable(t, r, h)
    ensures fresh(d) && d.Length0 == |r| + 1 && d.Length1 == |h| + 1 && HoldsBefore(d, t, 1, 1)
  {
    d := new nat[|r| + 1, |h| + 1]((_, _) => 0);
    for i := 1 to |r| + 1
      invariant forall x {:trigger d[x, 0]} :: 0 <= x < i ==> d[x, 0] == x
      invariant d[0, 0] == 0
    {
      d[i, 0] := i;
    }
    for j := 1 to |h| + 1
      invariant forall x {:trigger d[x, 0]} :: 0 <= x <= |r| ==> d[x, 0] == x
      invariant forall y {:trigger d[0, y]} :: 0 <= y < j ==> d[0, y] == y
    {
      d[0, j] := j;
    }
    forall x, y | 0 <= x <= |r| && 0 <= y <= |h| && (x == 0 || y == 0) ensures d[x, y] == t[x][y] {
      assert CellRule(t, r, h, x, y);
    }
  }

  // What one iteration of either traceback takes off the walk.
  lemma {:induction false} WalkStep<T>(
      t: Table, r: seq<T>, h: seq<T>, i: nat, j: nat)
    returns (step: Step<T>, rest: Script<T>)
    requires IsTable(t, r, h) && i <= |r| && j <= |h| && (i > 0 || j > 0)
    ensures Trace(t, r, h, i, j) == Then(rest, step)
    ensures
      if i > 0 && j > 0 && r[i - 1] == h[j - 1] && t[i][j] == t[i - 1][j - 1] then
        step == Match(r[i - 1]) && rest == Trace(t, r, h, i - 1, j - 1)
      else if i > 0 && j > 0 && t[i][j] == t[i - 1][j - 1] + 1 then
        step == Substitute(r[i - 1], h[j - 1]) && rest == Trace(t, r, h, i - 1, j - 1)
      else if i > 0 && t[i][j] == t[i - 1][j] + 1 then
        step == Delete(r[i - 1]) && rest == Trace(t, r, h, i - 1, j)
      else
        j > 0 && step == Insert(h[j - 1]) && rest == Trace(t, r, h, i, j - 1)
  {
    BackstepIsLegal(t, r, h, i, j);
    step := Backstep(t, r, h, i, j);
    rest := Trace(t, r, h, i, j).front;
  }

  // gold_stt_dataset.py: table and traceback in one function, counting as it walks back.
  method CalculateErrorCounts<T(==)>(reference: seq<T>, hypothesis: seq<T>) returns (counts: TextErrorCounts)
    ensures counts == CountsOf(OptimalScript(reference, hypothesis))
  {
    ghost var t := TableExists(reference, hypothesis);
    var distances := Borders(reference, hypothesis, t);
    for i := 1 to |reference| + 1
      invariant HoldsBefore(distances, t, i, 1)
    {
      for j := 1 to |hypothesis| + 1
        invariant HoldsBefore(distances, t, i, j)
      {
        assert CellRule(t, reference, hypothesis, i, j);
        var substitutionCost := if reference[i - 1] == hypothesis[j - 1] then 0 else 1;
        distances[i, j] := Min3(distances[i - 1, j] + 1,
                                distances[i, j - 1] + 1,
                                distances[i - 1, j - 1] + substitutionCost);
      }
    }
    counts := WalkBack(reference, hypothesis, distances, t);
  }

  // The second half of that function.
  method WalkBack<T(==)>(reference: seq<T>, hypothesis: seq<T>, distances: array2<nat>, ghost t: Table)
    returns (counts: TextErrorCounts)
    requires IsTable(t, reference, hypothesis) && distances.Length1 == |hypothesis| + 1 && Holds(distances, t)
    ensures counts == CountsOf(OptimalScript(reference, hypothesis))
  {
    var substitutions, deletions, insertions := 0, 0, 0;
    var i, j := |reference|, |hypothesis|;
    ghost var whole := Trace(t, reference, hypothesis, i, j);
    ghost var rest := whole;
    while i > 0 || j > 0
      invariant 0 <= i <= |reference| && 0 <= j <= |hypothesis|
      invariant rest == Trace(t, reference, hypothesis, i, j)
      invariant Substitutions(whole) == Substitutions(rest) + substitutions
      invariant Deletions(whole) == Deletions(rest) + deletions
      invariant Insertions(whole) == Insertions(rest) + insertions
      decreases i + j
    {
      ghost var step;
      step, rest := WalkStep(t, reference, hypothesis, i, j);
      if i > 0 && j > 0 && reference[i - 1] == hypothesis[j - 1] && distances[i, j] == distances[i - 1, j - 1] {
        i, j := i - 1, j - 1;
      } else if i > 0 && j > 0 && distances[i, j] == distances[i - 1, j - 1] + 1 {
        substitutions := substitutions + 1;
        i, j := i - 1, j - 1;
      } else if i > 0 && distances[i, j] == distances[i - 1, j] + 1 {
        deletions := deletions + 1;
        i := i - 1;
      } else {
        insertions := insertions + 1;
        j := j - 1;
      }
    }
    counts := TextErrorCounts(|reference|, |hypothesis|, substitutions, deletions, insertions);
    AnyTableGivesOptimalScript(t, reference, hypothesis);
    OptimalScriptIsOptimal(reference, hypothesis, Empty);
  }

  // quality_baseline.py: the table on its own.
  method WordDistances<T(==)>(reference: seq<T>, observed: seq<T>) returns (distances: array2<nat>, ghost t: Table)
    ensures IsTable(t, reference, observed) && distances.Length1 == |observed| + 1 && Holds(distances, t)
  {
    t := TableExists(reference, observed);
    distances := Borders(reference, observed, t);
    for i := 1 to |reference| + 1
      invariant HoldsBefore(distances, t, i, 1)
    {
      for j := 1 to |observed| + 1
        invariant HoldsBefore(distances, t, i, j)
      {
        assert CellRule(t, reference, observed, i, j);
        var substitutionCost := if reference[i - 1] == observed[j - 1] then 0 else 1;
        distances[i, j] := Min3(distances[i - 1, j - 1] + substitutionCost,
                                distances[i - 1, j] + 1,
                                distances[i, j - 1] + 1);
      }
    }
  }

  function Reversed<T>(s: seq<T>): seq<T> {
    if s == [] then [] else Reversed(s[1..]) + [s[0]]
  }

  lemma {:induction false} ReversedAppend<T>(s: seq<T>, x: T)
    ensures Reversed(s + [x]) == [x] + Reversed(s)
  {
    if s != [] {
      assert (s + [x])[1..] == s[1..] + [x];
      ReversedAppend(s[1..], x);
    }
  }

  // quality_baseline.py: the traceback that collects the mismatches back to front, then reverses them.
  method TraceWordEdits<T(==)>(reference: seq<T>, observed: seq<T>, distances: array2<nat>, ghost t: Table)
    returns (edits: seq<Step<T>>)
    requires IsTable(t, reference, observed) && distances.Length1 == |observed| + 1 && Holds(distances, t)
    ensures edits == Mismatches(OptimalScript(reference, observed))
  {
    edits := [];
    var i, j := |reference|, |observed|;
    ghost var rest := Trace(t, reference, observed, i, j);
    ghost var all := Mismatches(rest);
    while i > 0 || j > 0
      invariant 0 <= i <= |reference| && 0 <= j <= |observed|
      invariant rest == Trace(t, reference, observed, i, j)
      invariant all == Mismatches(rest) + Reversed(edits)
      decreases i + j
    {
      ghost var step;
      step, rest := WalkStep(t, reference, observed, i, j);
      ReversedAppend(edits, step);
      if i > 0 && j > 0 && reference[i - 1] == observed[j - 1] && distances[i, j] == distances[i - 1, j - 1] {
        i, j := i - 1, j - 1;
        continue;
      }
      if i > 0 && j > 0 && distances[i, j] == distances[i - 1, j - 1] + 1 {
        edits := edits + [Substitute(reference[i - 1], observed[j - 1])];
        i, j := i - 1, j - 1;
        continue;
      }
      if i > 0 && distances[i, j] == distances[i - 1, j] + 1 {
        edits := edits + [Delete(reference[i - 1])];
        i := i - 1;
        continue;
      }
      edits := edits + [Insert(observed[j - 1])];
      j := j - 1;
    }
    edits := Reversed(edits);
    AnyTableGivesOptimalScript(t, reference, observed);
  }

  // How many edits of one kind a list holds, as the report sums them.
  function CountKind<T(!new)>(edits: seq<Step<T>>, kind: Step<T> -> bool): nat {
    if edits == [] then 0
    else CountKind(edits[..|edits| - 1], kind) + if kind(edits[|edits| - 1]) then 1 else 0
  }

  // The mismatch list of a script carries exactly its substitution, deletion and insertion counts.
  lemma {:induction false} MismatchesKeepCounts<T(!new)>(script: Script<T>)
    ensures CountKind(Mismatches(script), (s: Step<T>) => s.Substitute?) == Substitutions(script)
    ensures CountKind(Mismatches(script), (s: Step<T>) => s.Delete?) == Deletions(script)
    ensures CountKind(Mismatches(script), (s: Step<T>) => s.Insert?) == Insertions(script)
  {
    if script.Then? {
      MismatchesKeepCounts(script.front);
      if !script.last.Match? {
        assert Mismatches(script)[..|Mismatches(script)| - 1] == Mismatches(script.front);
      }
    }
  }

  // calculate_word_error_rate: counts taken from the edit list. They equal those of the other copy.
  method CalculateWordErrorRate<T(==, !new)>(reference: seq<T>, observed: seq<T>)
    returns (substitutions: nat, deletions: nat, insertions: nat, edits: seq<Step<T>>)
    ensures edits == Mismatches(OptimalScript(reference, observed))
    ensures CountsOf(OptimalScript(reference, observed)) ==
            TextErrorCounts(|reference|, |observed|, substitutions, deletions, insertions)
  {
    var distances, t := WordDistances(reference, observed);
    edits := TraceWordEdits(reference, observed, distances, t);
    substitutions := CountKind(edits, (s: Step<T>) => s.Substitute?);
    deletions := CountKind(edits, (s: Step<T>) => s.Delete?);
    insertions := CountKind(edits, (s: Step<T>) => s.Insert?);
    MismatchesKeepCounts(OptimalScript(reference, observed));
    OptimalScriptIsOptimal(reference, observed, Empty);
  }

  /* ---------- aggregation over segments ---------- */

  function Aggregate(items: seq<TextErrorCounts>): TextErrorCounts {
    if items == [] then TextErrorCounts(0, 0, 0, 0, 0)
    else Aggregate(items[..|items| - 1]).Plus(items[|items| - 1])
  }

  ghost function Joined<T>(parts: seq<seq<T>>): seq<T> {
    if parts == [] then [] else Joined(parts[..|parts| - 1]) + parts[|parts| - 1]
  }

  ghost function Append<T>(a: Script<T>, b: Script<T>): Script<T> {
    match b
    case Empty => a
    case Then(front, last) => Then(Append(a, front), last)
  }

  lemma {:induction false} AppendReads<T>(a: Script<T>, b: Script<T>)
    ensures Reference(Append(a, b)) == Reference(a) + Reference(b)
    ensures Hypothesis(Append(a, b)) == Hypothesis(a) + Hypothesis(b)
    ensures Substitutions(Append(a, b)) == Substitutions(a) + Substitutions(b)
    ensures Deletions(Append(a, b)) == Deletions(a) + Deletions(b)
    ensures Insertions(Append(a, b)) == Insertions(a) + Insertions(b)
  {
    if b.Then? {
      AppendReads(a, b.front);
    }
  }

  lemma {:induction false} JoinScripts<T>(
      references: seq<seq<T>>, hypotheses: seq<seq<T>>, scripts: seq<Script<T>>, items: seq<TextErrorCounts>)
    returns (script: Script<T>)
    requires |references| == |hypotheses| == |scripts| == |items|
    requires forall k :: 0 <= k < |items| ==>
      Aligns(scripts[k], references[k], hypotheses[k]) && items[k] == CountsOf(scripts[k])
    ensures Aligns(script, Joined(references), Joined(hypotheses))
    ensures Aggregate(items).referenceCount == |Joined(references)|
    ensures Aggregate(items).hypothesisCount == |Joined(hypotheses)|
    ensures Aggregate(items).substitutions == Substitutions(script)
    ensures Aggregate(items).deletions == Deletions(script)
    ensures Aggregate(items).insertions == Insertions(script)
    decreases |items|
  {
    script := Empty;
    if items != [] {
      var n := |items| - 1;
      var front := JoinScripts(references[..n], hypotheses[..n], scripts[..n], items[..n]);
      AppendReads(front, scripts[n]);
      script := Append(front, scripts[n]);
    }
  }

  // Aggregated segment counts are the counts of a script for the whole texts: they stay balanced, and
  // their errors are never below the least possible for the whole reference and the whole hypothesis.
  lemma {:induction false} AggregateBoundsWholeText<T>(
      references: seq<seq<T>>, hypotheses: seq<seq<T>>, scripts: seq<Script<T>>, items: seq<TextErrorCounts>)
    requires |references| == |hypotheses| == |scripts| == |items|
    requires forall k :: 0 <= k < |items| ==> scripts[k] == OptimalScript(references[k], hypotheses[k])
    requires forall k :: 0 <= k < |items| ==> items[k] == CountsOf(scripts[k])
    ensures var c := Aggregate(items);
            c.referenceCount == |Joined(references)| && c.hypothesisCount == |Joined(hypotheses)| &&
            c.referenceCount - c.deletions + c.insertions == c.hypothesisCount &&
            Cost(OptimalScript(Joined(references), Joined(hypotheses)))
              <= c.substitutions + c.deletions + c.insertions
  {
    forall k | 0 <= k < |items| ensures Aligns(scripts[k], references[k], hypotheses[k]) {
      OptimalScriptIsOptimal(references[k], hypotheses[k], Empty);
    }
    var script := JoinScripts(references, hypotheses, scripts, items);
    OptimalScriptIsOptimal(Joined(references), Joined(hypotheses), script);
    CountsBalance(script);
  }
}
