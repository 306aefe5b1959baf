/**
 * Removing the overlap between consecutive transcript texts, token by token.
 *
 * Which characters are white space, and how a token is normalized (lower case, outer punctuation off), are
 * parameters: every promise holds for all of them.
 */
module TranscriptDeduplication {
  import opened Wrappers

  datatype Rules = Rules(space: char -> bool, normalize: string -> string)

  // A token that normalizes to something, with its span in the original text.
  datatype Token = Token(normalized: string, start: nat, end: nat)

  /* ---------- white space and tokens ---------- */

  // The first position from i on that is not white space, and the first that is.
  function SkipSpace(r: Rules, text: string, i: nat): (j: nat)
    requires i <= |text|
    ensures i <= j <= |text| && (j < |text| ==> !r.space(text[j])) && forall k :: i <= k < j ==> r.space(text[k])
    decreases |text| - i
  {
    if i < |text| && r.space(text[i]) then SkipSpace(r, text, i + 1) else i
  }

  function SkipWord(r: Rules, text: string, i: nat): (j: nat)
    requires i <= |text|
    ensures i <= j <= |text| && (j < |text| ==> r.space(text[j])) && forall k :: i <= k < j ==> !r.space(text[k])
    decreases |text| - i
  {
    if i < |text| && !r.space(text[i]) then SkipWord(r, text, i + 1) else i
  }

  // All tokens from a position on, with their spans.
  function TokensFrom(r: Rules, text: string, i: nat): seq<Token>
    requires i <= |text|
    decreases |text| - i
  {
    var start := SkipSpace(r, text, i);
    if start == |text| then []
    else
      var end := SkipWord(r, text, start);
      var normalized := r.normalize(text[start..end]);
      if normalized != "" then [Token(normalized, start, end)] + TokensFrom(r, text, end) else TokensFrom(r, text, end)
  }

  // The normalized tokens from a position on.
  function WordsFrom(r: Rules, text: string, i: nat): seq<string>
    requires i <= |text|
    decreases |text| - i
  {
    var start := SkipSpace(r, text, i);
    if start == |text| then []
    else
      var end := SkipWord(r, text, start);
      var normalized := r.normalize(text[start..end]);
      if normalized != "" then [normalized] + WordsFrom(r, text, end) else WordsFrom(r, text, end)
  }

  function Words(r: Rules, text: string): seq<string> {
    WordsFrom(r, text, 0)
  }

  function StripEnd(r: Rules, text: string): string {
    if text != "" && r.space(text[|text| - 1]) then StripEnd(r, text[..|text| - 1]) else text
  }

  function Strip(r: Rules, text: string): string {
    StripEnd(r, text[SkipSpace(r, text, 0)..])
  }

  /* ---------- tokens of a part of a text ---------- */

  lemma {:induction false} SkipSpaceShifts(r: Rules, text: string, low: nat, i: nat)
    requires low <= i <= |text|
    ensures SkipSpace(r, text[low..], i - low) == SkipSpace(r, text, i) - low
    decreases |text| - i
  {
    if i < |text| && r.space(text[i]) {
      SkipSpaceShifts(r, text, low, i + 1);
    }
  }

  lemma {:induction false} SkipWordShifts(r: Rules, text: string, low: nat, i: nat)
    requires low <= i <= |text|
    ensures SkipWord(r, text[low..], i - low) == SkipWord(r, text, i) - low
    decreases |text| - i
  {
    if i < |text| && !r.space(text[i]) {
      SkipWordShifts(r, text, low, i + 1);
    }
  }

  // The words of a text's tail are the words from that position on.
  lemma {:induction false} WordsShift(r: Rules, text: string, low: nat, i: nat)
    requires low <= i <= |text|
    ensures WordsFrom(r, text[low..], i - low) == WordsFrom(r, text, i)
    decreases |text| - i
  {
    SkipSpaceShifts(r, text, low, i);
    var start := SkipSpace(r, text, i);
    if start < |text| {
      SkipWordShifts(r, text, low, start);
      var end := SkipWord(r, text, start);
      WordsShift(r, text, low, end);
      SliceShifts(text, low, start, end);
    }
  }

  lemma {:induction false} SliceShifts<T>(t: seq<T>, low: nat, a: nat, b: nat)
    requires low <= a <= b <= |t|
    ensures t[low..][a - low..b - low] == t[a..b]
  {
  }

  lemma {:induction false} SkipSpaceTwice(r: Rules, text: string, i: nat)
    requires i <= |text|
    ensures SkipSpace(r, text, SkipSpace(r, text, i)) == SkipSpace(r, text, i)
    ensures WordsFrom(r, text, SkipSpace(r, text, i)) == WordsFrom(r, text, i)
  {
  }

  lemma {:induction false} SkipSpaceBeforeEnd(r: Rules, text: string, i: nat)
    requires text != "" && r.space(text[|text| - 1]) && i < |text|
    ensures SkipSpace(r, text[..|text| - 1], i) ==
      if SkipSpace(r, text, i) == |text| then |text| - 1 else SkipSpace(r, text, i)
    decreases |text| - i
  {
    if i < |text| - 1 && r.space(text[i]) {
      SkipSpaceBeforeEnd(r, text, i + 1);
    }
  }

  lemma {:induction false} SkipWordBeforeEnd(r: Rules, text: string, i: nat)
    requires text != "" && r.space(text[|text| - 1]) && i < |text|
    ensures SkipWord(r, text[..|text| - 1], i) == SkipWord(r, text, i) < |text|
    decreases |text| - i
  {
    if i < |text| - 1 && !r.space(text[i]) {
      SkipWordBeforeEnd(r, text, i + 1);
    }
  }

  lemma {:induction false} WordsBeforeEnd(r: Rules, text: string, i: nat)
    requires text != "" && r.space(text[|text| - 1]) && i < |text|
    ensures WordsFrom(r, text[..|text| - 1], i) == WordsFrom(r, text, i)
    decreases |text| - i
  {
    SkipSpaceBeforeEnd(r, text, i);
    var start := SkipSpace(r, text, i);
    if start < |text| - 1 {
      SkipWordBeforeEnd(r, text, start);
      var end := SkipWord(r, text, start);
      WordsBeforeEnd(r, text, end);
      assert text[..|text| - 1][start..end] == text[start..end];
    }
  }

  lemma {:induction false} StripEndKeepsWords(r: Rules, text: string)
    ensures Words(r, StripEnd(r, text)) == Words(r, text)
    ensures StripEnd(r, text) != "" ==> !r.space(StripEnd(r, text)[|StripEnd(r, text)| - 1])
    decreases |text|
  {
    if text != "" && r.space(text[|text| - 1]) {
      StripEndKeepsWords(r, text[..|text| - 1]);
      WordsBeforeEnd(r, text, 0);
    }
  }

  // Stripping a text changes none of its words.
  lemma {:induction false} StripKeepsWords(r: Rules, text: string)
    ensures Words(r, Strip(r, text)) == Words(r, text)
    ensures Strip(r, text) != "" ==> !r.space(Strip(r, text)[|Strip(r, text)| - 1])
  {
    var start := SkipSpace(r, text, 0);
    StripEndKeepsWords(r, text[start..]);
    WordsShift(r, text, start, start);
    SkipSpaceTwice(r, text, 0);
  }

  lemma {:induction false} BlankHasNoWords(r: Rules, text: string)
    requires Strip(r, text) == ""
    ensures Words(r, text) == []
  {
    StripKeepsWords(r, text);
  }

  /* ---------- tokens and words ---------- */

  // Token k of a text, by the words before and after its end.
  lemma {:induction false} TokensSplitTheWords(r: Rules, text: string, i: nat, k: nat)
    requires i <= |text| && k < |TokensFrom(r, text, i)|
    ensures |WordsFrom(r, text, i)| == |TokensFrom(r, text, i)|
    ensures WordsFrom(r, text, i)[k] == TokensFrom(r, text, i)[k].normalized
    ensures i < TokensFrom(r, text, i)[k].end <= |text|
    ensures WordsFrom(r, text, i)[k + 1..] == WordsFrom(r, text, TokensFrom(r, text, i)[k].end)
    decreases |text| - i
  {
    SameCount(r, text, i);
    var start := SkipSpace(r, text, i);
    var end := SkipWord(r, text, start);
    if r.normalize(text[start..end]) == "" {
      TokensSplitTheWords(r, text, end, k);
    } else if k > 0 {
      TokensSplitTheWords(r, text, end, k - 1);
      TailOfCons(r.normalize(text[start..end]), WordsFrom(r, text, end), k);
    }
  }

  lemma {:induction false} TailOfCons(word: string, rest: seq<string>, k: nat)
    requires 0 < k <= |rest|
    ensures ([word] + rest)[k + 1..] == rest[k..] && ([word] + rest)[k] == rest[k - 1]
  {
  }

  lemma {:induction false} SameCount(r: Rules, text: string, i: nat)
    requires i <= |text|
    ensures |WordsFrom(r, text, i)| == |TokensFrom(r, text, i)|
    decreases |text| - i
  {
    var start := SkipSpace(r, text, i);
    if start < |text| {
      SameCount(r, text, SkipWord(r, text, start));
    }
  }

  /* ---------- the overlap ---------- */

  // The last size words of previous are the first size words of current.
  predicate Matches(previous: seq<string>, current: seq<string>, size: nat)
    requires size <= |previous| && size <= |current|
  {
    previous[|previous| - size..] == current[..size]
  }

  // The longest overlap of at most a given size.
  function Overlap(previous: seq<string>, current: seq<string>, atMost: nat): (size: nat)
    requires atMost <= |previous| && atMost <= |current|
    ensures size <= atMost && Matches(previous, current, size)
    ensures forall k :: size < k <= atMost ==> !Matches(previous, current, k)
  {
    if atMost == 0 || Matches(previous, current, atMost) then atMost else Overlap(previous, current, atMost - 1)
  }

  function Min(a: nat, b: nat): nat {
    if a <= b then a else b
  }

  function LongestOverlap(previous: seq<string>, current: seq<string>, cap: nat): nat {
    Overlap(previous, current, Min(cap, Min(|previous|, |current|)))
  }

  function WordsOf(r: Rules, text: Option<string>): seq<string> {
    if text.None? then [] else Words(r, text.value)
  }

  // What a call promises: the words kept are those after the longest overlap, so the current words are a
  // suffix of the previous ones followed by the accepted ones; accepted text is a stripped piece of the end.
  ghost predicate Keeps(r: Rules, cap: nat, previous: Option<string>, current: string, accepted: Option<string>) {
    var before, words, trimmed := WordsOf(r, previous), Words(r, current), Strip(r, current);
    var size := LongestOverlap(before, words, cap);
    size <= |before| && size <= |words| && Matches(before, words, size) &&
    WordsOf(r, accepted) == words[size..] &&
    (accepted.None? <==> trimmed == "" || (size == |words| && size > 0)) &&
    (accepted.Some? ==>
      accepted.value != "" && !r.space(accepted.value[0]) && !r.space(accepted.value[|accepted.value| - 1]) &&
      |accepted.value| <= |trimmed| && trimmed[|trimmed| - |accepted.value|..] == accepted.value) &&
    (accepted.Some? && size == 0 ==> accepted.value == trimmed)
  }

  lemma {:induction false} StripEndIsPrefix(r: Rules, text: string)
    ensures StripEnd(r, text) <= text
    ensures text != "" && !r.space(text[|text| - 1]) ==> StripEnd(r, text) == text
    decreases |text|
  {
    if text != "" && r.space(text[|text| - 1]) {
      StripEndIsPrefix(r, text[..|text| - 1]);
    }
  }

  lemma {:induction false} StripEndsAreWords(r: Rules, text: string)
    ensures var s := Strip(r, text); s != "" ==> !r.space(s[0]) && !r.space(s[|s| - 1])
  {
    StripKeepsWords(r, text);
    StripEndIsPrefix(r, text[SkipSpace(r, text, 0)..]);
  }

  // Stripping the rest of a stripped text only moves its start.
  lemma {:induction false} RestIsSuffix(r: Rules, trimmed: string, low: nat)
    requires trimmed != "" && !r.space(trimmed[|trimmed| - 1]) && low <= |trimmed|
    ensures var rest := Strip(r, trimmed[low..]);
            |rest| <= |trimmed| && trimmed[|trimmed| - |rest|..] == rest && Words(r, rest) == WordsFrom(r, trimmed, low)
  {
    var tail := trimmed[low..];
    var start := SkipSpace(r, tail, 0);
    StripEndIsPrefix(r, tail[start..]);
    assert tail[start..] == trimmed[low + start..];
    StripKeepsWords(r, tail);
    WordsShift(r, trimmed, low, low);
  }

  /* ---------- the deduplicator ---------- */

  // _normalized_current_tokens: one token after another.
  method NormalizedCurrentTokens(r: Rules, text: string) returns (tokens: seq<Token>)
    ensures tokens == TokensFrom(r, text, 0)
  {
    tokens := [];
    var position := SkipSpace(r, text, 0);
    SkipSpaceAgain(r, text, 0);
    while position < |text|
      invariant 0 <= position <= |text| && SkipSpace(r, text, position) == position
      invariant tokens + TokensFrom(r, text, position) == TokensFrom(r, text, 0)
    {
      var end := SkipWord(r, text, position);
      assert end > position;
      var normalized := r.normalize(text[position..end]);
      SkipSpaceAgain(r, text, end);
      if normalized != "" {
        SeqAssociates(tokens, [Token(normalized, position, end)], TokensFrom(r, text, end));
        tokens := tokens + [Token(normalized, position, end)];
      }
      position := SkipSpace(r, text, end);
    }
  }

  lemma {:induction false} SkipSpaceAgain(r: Rules, text: string, i: nat)
    requires i <= |text|
    ensures SkipSpace(r, text, SkipSpace(r, text, i)) == SkipSpace(r, text, i)
    ensures TokensFrom(r, text, SkipSpace(r, text, i)) == TokensFrom(r, text, i)
  {
  }

  lemma {:induction false} SeqAssociates<T>(a: seq<T>, b: seq<T>, c: seq<T>)
    ensures (a + b) + c == a + (b + c)
  {
  }

  // The descending search for the longest overlap.
  method FindOverlap(previousWords: seq<string>, currentWords: seq<string>, cap: nat) returns (size: nat)
    ensures size == LongestOverlap(previousWords, currentWords, cap)
  {
    size := Min(cap, Min(|previousWords|, |currentWords|));
    while size > 0 && !Matches(previousWords, currentWords, size)
      invariant size <= |previousWords| && size <= |currentWords|
      invariant Overlap(previousWords, currentWords, size) == LongestOverlap(previousWords, currentWords, cap)
    {
      size := size - 1;
    }
  }

  method Deduplicate(r: Rules, cap: nat, previous: Option<string>, current: string) returns (accepted: Option<string>)
    ensures Keeps(r, cap, previous, current, accepted)
  {
    var trimmed := Strip(r, current);
    KeepsTrimmed(r, cap, previous, current);
    if trimmed == "" {
      return None;
    }
    if previous.None? || Strip(r, previous.value) == "" {
      if previous.Some? {
        BlankHasNoWords(r, previous.value);
      }
      return Some(trimmed);
    }
    var previousWords := Words(r, previous.value);
    var tokens := NormalizedCurrentTokens(r, trimmed);
    TokensNameTheWords(r, trimmed);
    if previousWords == [] || tokens == [] {
      return Some(trimmed);
    }
    var currentWords := seq(|tokens|, k requires 0 <= k < |tokens| => tokens[k].normalized);
    var size := FindOverlap(previousWords, currentWords, cap);
    if size == 0 {
      return Some(trimmed);
    }
    KeepsRest(r, cap, previous, current, size);
    if size == |tokens| {
      return None;
    }
    var rest := Strip(r, trimmed[tokens[size - 1].end..]);
    accepted := if rest == "" then None else Some(rest);
  }

  // Without an overlap the trimmed text is kept whole, if there is any.
  lemma {:induction false} KeepsTrimmed(r: Rules, cap: nat, previous: Option<string>, current: string)
    ensures var trimmed := Strip(r, current);
            Words(r, trimmed) == Words(r, current) &&
            (trimmed == "" ==> Keeps(r, cap, previous, current, None)) &&
            (trimmed != "" && LongestOverlap(WordsOf(r, previous), Words(r, current), cap) == 0 ==>
              Keeps(r, cap, previous, current, Some(trimmed)))
  {
    StripKeepsWords(r, current);
    StripEndsAreWords(r, current);
    assert Words(r, current)[0..] == Words(r, current);
  }

  // What follows the last token of an overlap.
  lemma {:induction false} RestFollows(r: Rules, current: string, size: nat)
    requires 0 < size <= |Words(r, current)|
    ensures var trimmed, words := Strip(r, current), Words(r, current);
            var tokens := TokensFrom(r, trimmed, 0);
            |tokens| == |words| && tokens[size - 1].end <= |trimmed| &&
            var rest := Strip(r, trimmed[tokens[size - 1].end..]);
            Words(r, rest) == words[size..] &&
            |rest| <= |trimmed| && trimmed[|trimmed| - |rest|..] == rest &&
            (rest != "" ==> !r.space(rest[0]) && !r.space(rest[|rest| - 1]))
  {
    var trimmed := Strip(r, current);
    StripKeepsWords(r, current);
    SameCount(r, trimmed, 0);
    TokensSplitTheWords(r, trimmed, 0, size - 1);
    var end := TokensFrom(r, trimmed, 0)[size - 1].end;
    RestIsSuffix(r, trimmed, end);
    StripEndsAreWords(r, trimmed[end..]);
  }

  lemma {:induction false} EmptyHasNoWords(r: Rules)
    ensures Words(r, "") == []
  {
  }

  // With an overlap what follows its last token is kept.
  lemma {:induction false} KeepsRest(r: Rules, cap: nat, previous: Option<string>, current: string, size: nat)
    requires size == LongestOverlap(WordsOf(r, previous), Words(r, current), cap) > 0 && Strip(r, current) != ""
    ensures var trimmed, words := Strip(r, current), Words(r, current);
            var tokens := TokensFrom(r, trimmed, 0);
            size <= |tokens| == |words| && tokens[size - 1].end <= |trimmed| &&
            (size == |tokens| ==> Keeps(r, cap, previous, current, None)) &&
            (size < |tokens| ==>
              var rest := Strip(r, trimmed[tokens[size - 1].end..]);
              Keeps(r, cap, previous, current, if rest == "" then None else Some(rest)))
  {
    RestFollows(r, current, size);
    EmptyHasNoWords(r);
  }

  lemma {:induction false} TokensNameTheWords(r: Rules, text: string)
    ensures var tokens := TokensFrom(r, text, 0);
            Words(r, text) == seq(|tokens|, k requires 0 <= k < |tokens| => tokens[k].normalized)
  {
    SameCount(r, text, 0);
    var tokens := TokensFrom(r, text, 0);
    forall k | 0 <= k < |tokens| ensures Words(r, text)[k] == tokens[k].normalized {
      TokensSplitTheWords(r, text, 0, k);
    }
  }

  /* ---------- nothing is lost ---------- */

  ghost predicate IsSuffix(suffix: seq<string>, whole: seq<string>) {
    |suffix| <= |whole| && whole[|whole| - |suffix|..] == suffix
  }

  // The current words are a suffix of the previous words followed by the accepted ones.
  lemma {:induction false} NothingIsLost(
      r: Rules, cap: nat, previous: Option<string>, current: string, accepted: Option<string>)
    requires Keeps(r, cap, previous, current, accepted)
    ensures IsSuffix(Words(r, current), WordsOf(r, previous) + WordsOf(r, accepted))
  {
    var before, words := WordsOf(r, previous), Words(r, current);
    SuffixOfJoin(before, words, LongestOverlap(before, words, cap));
  }

  lemma {:induction false} SuffixOfJoin(before: seq<string>, words: seq<string>, size: nat)
    requires size <= |before| && size <= |words| && before[|before| - size..] == words[..size]
    ensures IsSuffix(words, before + words[size..])
  {
    var whole := before + words[size..];
    forall i | 0 <= i < |words| ensures whole[|whole| - |words|..][i] == words[i] {
      if i < size {
        assert before[|before| - size..][i] == words[..size][i];
      }
    }
  }

  /* ---------- the segments of one chunk ---------- */

  // The text accepted last before segment k.
  function PreviousAt(initial: Option<string>, outcomes: seq<Option<string>>, k: nat): Option<string>
    requires k <= |outcomes|
  {
    if k == 0 then initial
    else if outcomes[k - 1].Some? then outcomes[k - 1] else PreviousAt(initial, outcomes, k - 1)
  }

  // The texts accepted among the first k segments.
  function AcceptedAt(outcomes: seq<Option<string>>, k: nat): seq<string>
    requires k <= |outcomes|
  {
    if k == 0 then []
    else AcceptedAt(outcomes, k - 1) + if outcomes[k - 1].Some? then [outcomes[k - 1].value] else []
  }

  // All words known after k segments: those accepted before the chunk, then everything accepted since.
  function LogAt(r: Rules, initial: Option<string>, outcomes: seq<Option<string>>, k: nat): seq<string>
    requires k <= |outcomes|
  {
    if k == 0 then WordsOf(r, initial) else LogAt(r, initial, outcomes, k - 1) + WordsOf(r, outcomes[k - 1])
  }

  ghost predicate Link(
      r: Rules, cap: nat, initial: Option<string>, segments: seq<string>, outcomes: seq<Option<string>>, k: nat)
    requires k < |segments| && k < |outcomes|
  {
    Keeps(r, cap, PreviousAt(initial, outcomes, k), segments[k], outcomes[k])
  }

  // Every segment was compared with the text accepted last before it.
  ghost predicate Folds(
      r: Rules, cap: nat, initial: Option<string>, segments: seq<string>, outcomes: seq<Option<string>>)
  {
    |outcomes| <= |segments| &&
    forall k {:trigger Link(r, cap, initial, segments, outcomes, k)} :: 0 <= k < |outcomes| ==>
      Link(r, cap, initial, segments, outcomes, k)
  }

  lemma {:induction false} EarlierIsUnchanged(
      initial: Option<string>, outcomes: seq<Option<string>>, last: Option<string>, k: nat)
    requires k <= |outcomes|
    ensures PreviousAt(initial, outcomes + [last], k) == PreviousAt(initial, outcomes, k)
    ensures AcceptedAt(outcomes + [last], k) == AcceptedAt(outcomes, k)
  {
    if k > 0 {
      EarlierIsUnchanged(initial, outcomes, last, k - 1);
    }
  }

  lemma {:induction false} FoldGrows(
      r: Rules, cap: nat, initial: Option<string>, segments: seq<string>, outcomes: seq<Option<string>>,
        last: Option<string>)
    requires Folds(r, cap, initial, segments, outcomes) && |outcomes| < |segments|
    requires Keeps(r, cap, PreviousAt(initial, outcomes, |outcomes|), segments[|outcomes|], last)
    ensures Folds(r, cap, initial, segments, outcomes + [last])
  {
    var all := outcomes + [last];
    forall k | 0 <= k < |all| ensures Link(r, cap, initial, segments, all, k) {
      EarlierIsUnchanged(initial, outcomes, last, k);
      if k < |outcomes| {
        assert Link(r, cap, initial, segments, outcomes, k);
      }
    }
  }

  // The loop over a chunk's segments; silence is a chunk of which nothing was accepted.
  method AcceptSegments(r: Rules, cap: nat, previousAcceptedText: Option<string>, segments: seq<string>)
    returns (accepted: seq<string>, skippedSilence: bool, ghost outcomes: seq<Option<string>>)
    ensures |outcomes| == |segments| && Folds(r, cap, previousAcceptedText, segments, outcomes)
    ensures accepted == AcceptedAt(outcomes, |outcomes|) && (skippedSilence <==> accepted == [])
  {
    accepted, outcomes := [], [];
    var previousText := previousAcceptedText;
    for n := 0 to |segments|
      invariant |outcomes| == n && Folds(r, cap, previousAcceptedText, segments, outcomes)
      invariant previousText == PreviousAt(previousAcceptedText, outcomes, n)
      invariant accepted == AcceptedAt(outcomes, n)
    {
      var acceptedText := Deduplicate(r, cap, previousText, segments[n]);
      FoldGrows(r, cap, previousAcceptedText, segments, outcomes, acceptedText);
      EarlierIsUnchanged(previousAcceptedText, outcomes, acceptedText, n);
      outcomes := outcomes + [acceptedText];
      if acceptedText.Some? {
        accepted := accepted + [acceptedText.value];
        previousText := acceptedText;
      }
    }
    skippedSilence := accepted == [];
  }

  lemma {:induction false} PreviousEndsTheLog(
      r: Rules, initial: Option<string>, outcomes: seq<Option<string>>, k: nat)
    requires k <= |outcomes|
    ensures IsSuffix(WordsOf(r, PreviousAt(initial, outcomes, k)), LogAt(r, initial, outcomes, k))
  {
    if k == 0 {
      assert WordsOf(r, initial)[0..] == WordsOf(r, initial);
    } else if outcomes[k - 1].Some? {
      EndsItself(LogAt(r, initial, outcomes, k - 1), WordsOf(r, outcomes[k - 1]));
    } else {
      PreviousEndsTheLog(r, initial, outcomes, k - 1);
      assert LogAt(r, initial, outcomes, k - 1) + [] == LogAt(r, initial, outcomes, k - 1);
    }
  }

  lemma {:induction false} EndsItself(a: seq<string>, b: seq<string>)
    ensures IsSuffix(b, a + b)
  {
  }

  lemma {:induction false} SuffixExtends(suffix: seq<string>, a: seq<string>, b: seq<string>, more: seq<string>)
    requires IsSuffix(a, b) && IsSuffix(suffix, a + more)
    ensures IsSuffix(suffix, b + more)
  {
    assert (b + more)[|b| - |a|..] == a + more;
    var whole := a + more;
    assert whole[|whole| - |suffix|..] == (b + more)[|b + more| - |suffix|..];
  }

  // However a chunk's segments overlap, the words of each one end the log once it has been handled: a
  // segment whose text is dropped or shortened was already there.
  lemma {:induction false} FoldLosesNothing(
      r: Rules, cap: nat, initial: Option<string>, segments: seq<string>, outcomes: seq<Option<string>>, k: nat)
    requires Folds(r, cap, initial, segments, outcomes) && k < |outcomes|
    ensures IsSuffix(Words(r, segments[k]), LogAt(r, initial, outcomes, k + 1))
    ensures LogAt(r, initial, outcomes, k) <= LogAt(r, initial, outcomes, k + 1)
  {
    assert Link(r, cap, initial, segments, outcomes, k);
    var previous := PreviousAt(initial, outcomes, k);
    NothingIsLost(r, cap, previous, segments[k], outcomes[k]);
    PreviousEndsTheLog(r, initial, outcomes, k);
    SuffixExtends(Words(r, segments[k]), WordsOf(r, previous), LogAt(r, initial, outcomes, k), WordsOf(r, outcomes[k]));
  }
}
