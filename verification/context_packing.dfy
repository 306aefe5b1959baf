/**
 * Greedy packing of complete sentences into bounded context units, and why no packing needs fewer units.
 *
 * A packing is given by its cut positions: unit k is the sentences cuts[k], ..., cuts[k + 1] - 1.
 */
module ContextPacking {
  import opened JoinedText

  const MAX_CHARACTERS := 1_000

  /* ---------- packings ---------- */

  ghost predicate Ascends(cuts: seq<nat>, k: nat)
    requires k + 1 < |cuts|
  {
    cuts[k] < cuts[k + 1]
  }

  // A division of all sentences into consecutive non-empty units.
  ghost predicate Packing(cuts: seq<nat>, n: nat) {
    cuts != [] && cuts[0] == 0 && cuts[|cuts| - 1] == n &&
    forall k {:trigger Ascends(cuts, k)} :: 0 <= k < |cuts| - 1 ==> Ascends(cuts, k)
  }

  lemma {:induction false} CutsAscend(cuts: seq<nat>, n: nat, j: nat, k: nat)
    requires Packing(cuts, n) && j <= k < |cuts|
    ensures cuts[j] + (k - j) <= cuts[k] <= n
    decreases |cuts| - j
  {
    CutsAscendTo(cuts, n, j, k);
    CutsAscendTo(cuts, n, k, |cuts| - 1);
  }

  lemma {:induction false} CutsAscendTo(cuts: seq<nat>, n: nat, j: nat, k: nat)
    requires Packing(cuts, n) && j <= k < |cuts|
    ensures cuts[j] + (k - j) <= cuts[k]
    decreases k
  {
    if j < k {
      CutsAscendTo(cuts, n, j, k - 1);
      assert Ascends(cuts, k - 1);
    }
  }

  predicate InRange(sentences: seq<string>, low: nat, high: nat) {
    low < high <= |sentences|
  }

  // A unit is at most 1,000 characters, or one sentence that cannot be split.
  ghost predicate UnitFits(sentences: seq<string>, cuts: seq<nat>, k: nat)
    requires k + 1 < |cuts|
  {
    InRange(sentences, cuts[k], cuts[k + 1]) &&
    (cuts[k + 1] == cuts[k] + 1 || |Join(' ', sentences[cuts[k]..cuts[k + 1]])| <= 1_000)
  }

  ghost predicate Fits(sentences: seq<string>, cuts: seq<nat>) {
    Packing(cuts, |sentences|) &&
    forall k {:trigger UnitFits(sentences, cuts, k)} :: 0 <= k < |cuts| - 1 ==> UnitFits(sentences, cuts, k)
  }

  // The unit could not have taken the next sentence too.
  ghost predicate UnitFull(sentences: seq<string>, cuts: seq<nat>, k: nat)
    requires k + 1 < |cuts|
  {
    InRange(sentences, cuts[k], cuts[k + 1]) &&
    (cuts[k + 1] < |sentences| ==> |Join(' ', sentences[cuts[k]..cuts[k + 1] + 1])| > 1_000)
  }

  ghost predicate Greedy(sentences: seq<string>, cuts: seq<nat>) {
    Fits(sentences, cuts) &&
    forall k {:trigger UnitFull(sentences, cuts, k)} :: 0 <= k < |cuts| - 1 ==> UnitFull(sentences, cuts, k)
  }

  // A unit that starts no later than a full one cannot end later.
  lemma {:induction false} FullUnitReachesFurthest(
      sentences: seq<string>, greedy: seq<nat>, other: seq<nat>, k: nat)
    requires k + 1 < |greedy| && k + 1 < |other|
    requires UnitFull(sentences, greedy, k) && UnitFits(sentences, other, k) && other[k] <= greedy[k]
    ensures other[k + 1] <= greedy[k + 1]
  {
    if other[k + 1] > greedy[k + 1] {
      JoinedLength(' ', sentences, greedy[k], greedy[k + 1] + 1);
      JoinedLength(' ', sentences, other[k], other[k + 1]);
      WeightGrows(sentences, other[k], greedy[k]);
      WeightGrows(sentences, greedy[k + 1] + 1, other[k + 1]);
      assert false;
    }
  }

  lemma {:induction false} GreedyStaysAhead(sentences: seq<string>, greedy: seq<nat>, other: seq<nat>, k: nat)
    requires Greedy(sentences, greedy) && Fits(sentences, other) && k < |greedy| && k < |other|
    ensures other[k] <= greedy[k]
  {
    if k > 0 {
      GreedyStaysAhead(sentences, greedy, other, k - 1);
      assert UnitFull(sentences, greedy, k - 1) && UnitFits(sentences, other, k - 1);
      FullUnitReachesFurthest(sentences, greedy, other, k - 1);
    }
  }

  // No packing that keeps the limit has fewer units than the greedy one.
  lemma {:induction false} GreedyIsOptimal(sentences: seq<string>, greedy: seq<nat>, other: seq<nat>)
    requires Greedy(sentences, greedy) && Fits(sentences, other)
    ensures |greedy| <= |other|
  {
    if |other| < |greedy| {
      var last := |other| - 1;
      GreedyStaysAhead(sentences, greedy, other, last);
      CutsAscend(greedy, |sentences|, last, |greedy| - 1);
      assert false;
    }
  }

  // So there is only one greedy packing.
  lemma {:induction false} GreedyIsUnique(sentences: seq<string>, a: seq<nat>, b: seq<nat>)
    requires Greedy(sentences, a) && Greedy(sentences, b)
    ensures a == b
  {
    GreedyIsOptimal(sentences, a, b);
    GreedyIsOptimal(sentences, b, a);
    forall k | 0 <= k < |a| ensures a[k] == b[k] {
      GreedyStaysAhead(sentences, a, b, k);
      GreedyStaysAhead(sentences, b, a, k);
    }
  }

  /* ---------- the units themselves ---------- */

  ghost function Units(sentences: seq<string>, cuts: seq<nat>): seq<string>
    requires Fits(sentences, cuts)
  {
    seq(|cuts| - 1, k requires 0 <= k < |cuts| - 1 =>
      assert UnitFits(sentences, cuts, k); Join(' ', sentences[cuts[k]..cuts[k + 1]]))
  }

  // Joining the units gives back the joined sentences, from the first cut to any later one.
  lemma {:induction false} UnitsJoinBack(sentences: seq<string>, cuts: seq<nat>, k: nat)
    requires Fits(sentences, cuts) && 0 < k < |cuts|
    ensures cuts[k] <= |sentences| && Join(' ', Units(sentences, cuts)[..k]) == Join(' ', sentences[..cuts[k]])
  {
    var units := Units(sentences, cuts);
    CutsAscend(cuts, |sentences|, 0, k);
    assert UnitFits(sentences, cuts, k - 1);
    if k == 1 {
      assert units[..1] == [units[0]];
      assert sentences[..cuts[1]] == sentences[cuts[0]..cuts[1]];
    } else {
      UnitsJoinBack(sentences, cuts, k - 1);
      CutsAscend(cuts, |sentences|, 0, k - 1);
      assert units[..k] == units[..k - 1] + [units[k - 1]];
      JoinSnoc(' ', units[..k - 1], units[k - 1]);
      JoinConcat(' ', sentences[..cuts[k - 1]], sentences[cuts[k - 1]..cuts[k]]);
      assert sentences[..cuts[k - 1]] + sentences[cuts[k - 1]..cuts[k]] == sentences[..cuts[k]];
    }
  }

  /* ---------- the packing loop ---------- */

  // split_german_context_units on its sentences: the units of the one greedy packing.
  method SplitContextUnits(sentences: seq<string>) returns (units: seq<string>, ghost cuts: seq<nat>)
    ensures Greedy(sentences, cuts) && units == Units(sentences, cuts)
    ensures Join(' ', units) == Join(' ', sentences)
    ensures forall other :: Fits(sentences, other) ==> |units| + 1 <= |other|
  {
    units, cuts := PackUnits(sentences);
    PrefixIsPacking(sentences, cuts, units);
    forall other | Fits(sentences, other) ensures |units| + 1 <= |other| {
      GreedyIsOptimal(sentences, cuts, other);
    }
  }

  method PackUnits(sentences: seq<string>) returns (units: seq<string>, ghost cuts: seq<nat>)
    ensures Prefix(sentences, cuts, units, |sentences|)
  {
    units, cuts := [], [0];
    var currentSentences: seq<string> := [];
    var currentLength := 0;
    ghost var low: nat := 0;
    for n := 0 to |sentences|
      invariant low <= n && (n > 0 ==> low < n) && currentSentences == sentences[low..n]
      invariant currentLength == |Join(' ', currentSentences)|
      invariant low + 1 < n ==> currentLength <= MAX_CHARACTERS
      invariant Prefix(sentences, cuts, units, low)
    {
      var sentence := sentences[n];
      var separatorLength := if currentSentences != [] then 1 else 0;
      var proposedLength := currentLength + separatorLength + |sentence|;
      TakeNext(sentences, low, n);
      if currentSentences != [] && proposedLength > MAX_CHARACTERS {
        PrefixGrows(sentences, cuts, units, low, n);
        units, cuts, low := units + [Join(' ', currentSentences)], cuts + [n], n;
        currentSentences := [sentence];
        currentLength := |sentence|;
      } else {
        currentSentences := currentSentences + [sentence];
        currentLength := proposedLength;
      }
    }
    if currentSentences != [] {
      PrefixGrows(sentences, cuts, units, low, |sentences|);
      units, cuts := units + [Join(' ', currentSentences)], cuts + [|sentences|];
    }
  }

  lemma {:induction false} TakeNext(sentences: seq<string>, low: nat, n: nat)
    requires low <= n < |sentences|
    ensures sentences[low..n] + [sentences[n]] == sentences[low..n + 1] && sentences[n..n + 1] == [sentences[n]]
    ensures |Join(' ', sentences[low..n + 1])| ==
      |Join(' ', sentences[low..n])| + (if low < n then 1 else 0) + |sentences[n]|
  {
    assert sentences[low..n] + [sentences[n]] == sentences[low..n + 1];
    if low < n {
      JoinSnoc(' ', sentences[low..n], sentences[n]);
    }
  }

  ghost predicate UnitDone(sentences: seq<string>, cuts: seq<nat>, units: seq<string>, k: nat)
    requires |cuts| == |units| + 1 && k < |units|
  {
    UnitFits(sentences, cuts, k) && UnitFull(sentences, cuts, k) && Ascends(cuts, k) &&
    units[k] == Join(' ', sentences[cuts[k]..cuts[k + 1]])
  }

  // The units finished so far, up to a cut.
  ghost predicate Prefix(sentences: seq<string>, cuts: seq<nat>, units: seq<string>, low: nat) {
    |cuts| == |units| + 1 && cuts[0] == 0 && cuts[|units|] == low &&
    forall k {:trigger UnitDone(sentences, cuts, units, k)} :: 0 <= k < |units| ==> UnitDone(sentences, cuts, units, k)
  }

  lemma {:induction false} PrefixGrows(sentences: seq<string>, cuts: seq<nat>, units: seq<string>, low: nat, high: nat)
    requires Prefix(sentences, cuts, units, low) && low < high <= |sentences|
    requires low + 1 < high ==> |Join(' ', sentences[low..high])| <= MAX_CHARACTERS
    requires high < |sentences| ==> |Join(' ', sentences[low..high + 1])| > MAX_CHARACTERS
    ensures Prefix(sentences, cuts + [high], units + [Join(' ', sentences[low..high])], high)
  {
    var longer, all := cuts + [high], units + [Join(' ', sentences[low..high])];
    forall k | 0 <= k < |all| ensures UnitDone(sentences, longer, all, k) {
      assert k < |units| ==> UnitDone(sentences, cuts, units, k);
    }
  }

  lemma {:induction false} PrefixIsPacking(sentences: seq<string>, cuts: seq<nat>, units: seq<string>)
    requires Prefix(sentences, cuts, units, |sentences|)
    ensures Greedy(sentences, cuts) && units == Units(sentences, cuts) && Join(' ', units) == Join(' ', sentences)
  {
    forall k | 0 <= k < |cuts| - 1
      ensures Ascends(cuts, k) && UnitFits(sentences, cuts, k) && UnitFull(sentences, cuts, k)
    {
      assert UnitDone(sentences, cuts, units, k);
    }
    forall k | 0 <= k < |units| ensures units[k] == Units(sentences, cuts)[k] {
      assert UnitDone(sentences, cuts, units, k);
    }
    if units != [] {
      UnitsJoinBack(sentences, cuts, |units|);
      assert units[..|units|] == units && sentences[..|sentences|] == sentences;
    }
  }
}
