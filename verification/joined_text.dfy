/** Texts joined by a one-character separator, and how long that is. */
module JoinedText {
  // separator.join(texts).
  function Join(separator: char, texts: seq<string>): string {
    if texts == [] then ""
    else if |texts| == 1 then texts[0]
    else Join(separator, texts[..|texts| - 1]) + [separator] + texts[|texts| - 1]
  }

  // Characters of the first n texts, each with one separator.
  function Weight(texts: seq<string>, n: nat): nat
    requires n <= |texts|
  {
    if n == 0 then 0 else Weight(texts, n - 1) + |texts[n - 1]| + 1
  }

  lemma {:induction false} JoinSnoc(separator: char, texts: seq<string>, last: string)
    requires texts != []
    ensures Join(separator, texts + [last]) == Join(separator, texts) + [separator] + last
  {
    assert (texts + [last])[..|texts|] == texts;
  }

  lemma {:induction false} JoinedLength(separator: char, texts: seq<string>, low: nat, high: nat)
    requires low < high <= |texts|
    ensures |Join(separator, texts[low..high])| == Weight(texts, high) - Weight(texts, low) - 1
    decreases high
  {
    if low + 1 == high {
      assert texts[low..high] == [texts[low]];
    } else {
      JoinedLength(separator, texts, low, high - 1);
      JoinedNext(separator, texts, low, high);
    }
  }

  lemma {:induction false} JoinedNext(separator: char, texts: seq<string>, low: nat, high: nat)
    requires low + 1 < high <= |texts|
    ensures Join(separator, texts[low..high]) ==
      Join(separator, texts[low..high - 1]) + [separator] + texts[high - 1]
  {
    assert texts[low..high] == texts[low..high - 1] + [texts[high - 1]];
    JoinSnoc(separator, texts[low..high - 1], texts[high - 1]);
  }

  lemma {:induction false} WeightGrows(texts: seq<string>, a: nat, b: nat)
    requires a <= b <= |texts|
    ensures Weight(texts, a) + (b - a) <= Weight(texts, b)
    decreases b
  {
    if a < b {
      WeightGrows(texts, a, b - 1);
    }
  }

  lemma {:induction false} JoinConcat(separator: char, a: seq<string>, b: seq<string>)
    requires a != [] && b != []
    ensures Join(separator, a + b) == Join(separator, a) + [separator] + Join(separator, b)
    decreases |b|
  {
    var front, last := b[..|b| - 1], b[|b| - 1];
    if front == [] {
      assert b == [last];
      JoinSnoc(separator, a, last);
    } else {
      JoinConcat(separator, a, front);
      JoinConcatSnoc(separator, a, front, last);
      assert b == front + [last];
    }
  }

  lemma {:induction false} JoinConcatSnoc(separator: char, a: seq<string>, front: seq<string>, last: string)
    requires a != [] && front != [] &&
      Join(separator, a + front) == Join(separator, a) + [separator] + Join(separator, front)
    ensures Join(separator, a + (front + [last])) == Join(separator, a) + [separator] + Join(separator, front + [last])
  {
    JoinSnoc(separator, a + front, last);
    JoinSnoc(separator, front, last);
    assert a + (front + [last]) == (a + front) + [last];
    Regroup(Join(separator, a) + [separator], Join(separator, front) + [separator], last);
    Regroup(Join(separator, a) + [separator], Join(separator, front), [separator]);
  }

  lemma {:induction false} Regroup(a: string, b: string, c: string)
    ensures (a + b) + c == a + (b + c)
  {
  }
}
