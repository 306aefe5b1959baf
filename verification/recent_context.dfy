/**
 * The sliding window of recent transcript segments kept for reply coaching.
 *
 * However it is trimmed step by step, the window always is the longest suffix of the accepted history
 * that fits both limits.
 */
module RecentContext {
  import opened Wrappers
  import opened JoinedText

  const MAX_PREVIOUS_SEGMENTS := 6
  const MAX_CONTEXT_TEXT_LENGTH := 1_200

  type Text = string

  /* ---------- the reference definition ---------- */

  // A window that fits: at most seven segments, and their newline-joined text is within the limit.
  predicate Fits(window: seq<Text>) {
    |window| <= 7 && |Join('\n', window)| <= 1_200
  }

  ghost predicate TooLong(history: seq<Text>, k: nat)
    requires k <= |history|
  {
    !Fits(history[k..])
  }

  // Where the longest fitting suffix starts, searching from the left.
  function FirstFit(history: seq<Text>, from: nat): (start: nat)
    requires from <= |history|
    ensures from <= start <= |history| && Fits(history[start..])
    ensures forall k {:trigger TooLong(history, k)} :: from <= k < start ==> TooLong(history, k)
    decreases |history| - from
  {
    if from == |history| || Fits(history[from..]) then from else FirstFit(history, from + 1)
  }

  function LongestSuffix(history: seq<Text>): seq<Text> {
    history[FirstFit(history, 0)..]
  }

  // Every accepted segment fits on its own.
  predicate Acceptable(text: Text) {
    |text| <= 1_200
  }

  lemma {:induction false} FirstFitIs(history: seq<Text>, start: nat)
    requires start <= |history| && Fits(history[start..])
    requires forall k {:trigger TooLong(history, k)} :: 0 <= k < start ==> TooLong(history, k)
    ensures FirstFit(history, 0) == start && LongestSuffix(history) == history[start..]
  {
    var first := FirstFit(history, 0);
    assert first < start ==> TooLong(history, first);
    assert start < first ==> TooLong(history, start);
  }

  lemma {:induction false} SuffixLength(history: seq<Text>, k: nat)
    requires k < |history|
    ensures |Join('\n', history[k..])| == Weight(history, |history|) - Weight(history, k) - 1
  {
    JoinedLength('\n', history, k, |history|);
    assert history[k..|history|] == history[k..];
  }

  lemma {:induction false} WeightOfPrefix(history: seq<Text>, more: seq<Text>, k: nat)
    requires k <= |history|
    ensures Weight(history + more, k) == Weight(history, k)
  {
    if k > 0 {
      WeightOfPrefix(history, more, k - 1);
    }
  }

  // What did not fit before does not fit with another segment either.
  lemma {:induction false} TooLongStaysTooLong(history: seq<Text>, next: Text, k: nat)
    requires k <= |history| && TooLong(history, k)
    ensures TooLong(history + [next], k)
  {
    var all := history + [next];
    if k < |history| {
      SuffixLength(history, k);
      SuffixLength(all, k);
      WeightOfPrefix(history, [next], k);
      WeightOfPrefix(history, [next], |history|);
    }
  }

  lemma {:induction false} NewestAloneFits(history: seq<Text>)
    requires history != [] && Acceptable(history[|history| - 1])
    ensures Fits(history[|history| - 1..])
  {
    assert history[|history| - 1..] == [history[|history| - 1]];
  }

  lemma {:induction false} DropFurther(history: seq<Text>, next: Text, start: nat, k: nat)
    requires start <= |history| && start <= k <= |history| + 1
    ensures (history + [next])[k..] == (history[start..] + [next])[k - start..]
  {
  }

  // So the window forgets nothing it would need: it can be computed from the previous window alone.
  lemma {:induction false} WindowIsIncremental(history: seq<Text>, next: Text)
    requires Acceptable(next)
    ensures LongestSuffix(history + [next]) == LongestSuffix(LongestSuffix(history) + [next])
    ensures LongestSuffix(history + [next]) != []
  {
    var start := FirstFit(history, 0);
    var all, short := history + [next], history[start..] + [next];
    NewestAloneFits(all);
    NewestAloneFits(short);
    var inner := FirstFit(short, 0);
    forall k | 0 <= k < start + inner ensures TooLong(all, k) {
      if k < start {
        assert TooLong(history, k);
        TooLongStaysTooLong(history, next, k);
      } else {
        assert TooLong(short, k - start);
        DropFurther(history, next, start, k);
      }
    }
    DropFurther(history, next, start, start + inner);
    FirstFitIs(all, start + inner);
    assert inner == |short| ==> TooLong(short, |short| - 1);
  }

  /* ---------- the context object ---------- */

  class RecentTranscriptContext {
    var segments: seq<Text>
    ghost var history: seq<Text>     // every segment accepted since the last clear

    ghost predicate Valid()
      reads this
    {
      segments == LongestSuffix(history) && (forall i :: 0 <= i < |history| ==> Acceptable(history[i])) &&
      (history != [] ==> segments != [])
    }

    constructor ()
      ensures Valid() && history == []
    {
      segments, history := [], [];
    }

    // An oversized segment is refused and changes nothing; any other one is kept.
    method Add(segment: Text) returns (accepted: bool)
      requires Valid()
      modifies this
      ensures Valid() && (accepted <==> Acceptable(segment))
      ensures !accepted ==> unchanged(this)
      ensures accepted ==> history == old(history) + [segment]
      ensures accepted ==> segments != [] && segments[|segments| - 1] == segment
    {
      if |segment| > MAX_CONTEXT_TEXT_LENGTH {
        return false;
      }
      WindowIsIncremental(history, segment);
      history := history + [segment];
      segments := segments + [segment];
      TrimOldest();
      assert segments[|segments| - 1] == segment;
      return true;
    }

    // Drops only oldest entries, and no more of them than the limits require.
    method TrimOldest()
      requires segments != [] && Acceptable(segments[|segments| - 1])
      modifies this`segments
      ensures segments == LongestSuffix(old(segments)) && segments != []
      ensures segments[|segments| - 1] == old(segments)[|old(segments)| - 1]
    {
      ghost var all := segments;
      ghost var dropped: nat := 0;
      NewestAloneFits(all);
      while |segments| > MAX_PREVIOUS_SEGMENTS + 1
        invariant dropped < |all| && segments == all[dropped..]
        invariant forall k {:trigger TooLong(all, k)} :: 0 <= k < dropped ==> TooLong(all, k)
      {
        assert TooLong(all, dropped);
        segments := segments[1..];
        dropped := dropped + 1;
      }
      while |segments| > 1 && |Join('\n', segments)| > MAX_CONTEXT_TEXT_LENGTH
        invariant dropped < |all| && segments == all[dropped..] && |segments| <= MAX_PREVIOUS_SEGMENTS + 1
        invariant forall k {:trigger TooLong(all, k)} :: 0 <= k < dropped ==> TooLong(all, k)
      {
        assert TooLong(all, dropped);
        segments := segments[1..];
        dropped := dropped + 1;
      }
      assert dropped == |all| - 1 ==> Fits(all[dropped..]);
      FirstFitIs(all, dropped);
    }

    method Clear()
      modifies this
      ensures Valid() && history == [] && segments == []
    {
      segments, history := [], [];
    }

    // The newest segment and up to six earlier ones, together within the length limit.
    method BuildReplyContext() returns (context: Option<(Text, seq<Text>)>)
      requires Valid()
      ensures context.Some? <==> history != []
      ensures context.Some? ==>
        context.value.0 == history[|history| - 1] && |context.value.1| <= 6 &&
        context.value.1 + [context.value.0] == LongestSuffix(history) && Fits(context.value.1 + [context.value.0])
    {
      if segments == [] {
        return None;
      }
      var newest, previous := segments[|segments| - 1], segments[..|segments| - 1];
      assert previous + [newest] == segments;
      context := Some((newest, previous));
    }
  }

  /* ---------- whole histories ---------- */

  datatype Operation = Add(text: Text) | Clear

  // The object's window after some operations, one step at a time.
  function Window(operations: seq<Operation>): seq<Text> {
    if operations == [] then []
    else
      var before := Window(operations[..|operations| - 1]);
      match operations[|operations| - 1]
      case Clear => []
      case Add(text) => if Acceptable(text) then LongestSuffix(before + [text]) else before
  }

  // All segments accepted since the last clear.
  function SinceClear(operations: seq<Operation>): seq<Text> {
    if operations == [] then []
    else
      var before := SinceClear(operations[..|operations| - 1]);
      match operations[|operations| - 1]
      case Clear => []
      case Add(text) => if Acceptable(text) then before + [text] else before
  }

  lemma {:induction false} WindowIsLongestSuffix(operations: seq<Operation>)
    ensures Window(operations) == LongestSuffix(SinceClear(operations))
    decreases |operations|
  {
    if operations != [] {
      var front, last := operations[..|operations| - 1], operations[|operations| - 1];
      WindowIsLongestSuffix(front);
      if last.Add? && Acceptable(last.text) {
        WindowIsIncremental(SinceClear(front), last.text);
      }
    }
  }
}
