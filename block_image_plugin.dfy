/** BlockImagePlugin: after Markwon sets a text, every image span is put on a line of its
    own by inserting a newline before and after it where there is none. */
module BlockImage {

  /** The `[start, end)` range of an `AsyncDrawableSpan` in the text. */
  datatype ImageSpan = ImageSpan(start: int, end: int)

  /** A TextView's text: a `Spannable` with its image spans, or a plain char sequence. */
  datatype Text = Plain(chars: string) | Spannable(chars: string, images: seq<ImageSpan>)

  /** Span ranges as the framework reports them: inside the text. */
  predicate ValidSpans(s: string, images: seq<ImageSpan>) {
    forall k :: 0 <= k < |images| ==> 0 <= images[k].start <= images[k].end <= |s|
  }

  /** A newline is needed before an image starting at `start` unless it starts the text
      or follows a newline. */
  predicate NeedsBreakBefore(s: string, start: int)
    requires 0 <= start <= |s|
  {
    start > 0 && s[start - 1] != '\n'
  }

  /** A newline is needed after an image ending at `end` unless it ends the text or a
      newline follows. */
  predicate NeedsBreakAfter(s: string, end: int)
    requires 0 <= end <= |s|
  {
    end < |s| && s[end] != '\n'
  }

  /** The insertion offsets one image span asks for, decided against the original text:
      before it unless it starts the text or follows a newline, after it unless it ends
      the text or a newline follows. */
  function SpanInsertions(s: string, span: ImageSpan): (r: seq<nat>)
    requires 0 <= span.start <= span.end <= |s|
    ensures forall i :: 0 <= i < |r| ==> r[i] <= |s|
    ensures multiset(r) ==
      (if NeedsBreakBefore(s, span.start) then multiset{span.start as nat} else multiset{})
      + (if NeedsBreakAfter(s, span.end) then multiset{span.end as nat} else multiset{})
  {
    (if NeedsBreakBefore(s, span.start) then [span.start as nat] else [])
    + (if NeedsBreakAfter(s, span.end) then [span.end as nat] else [])
  }

  /** All insertion offsets, span by span in the order the spans are reported. */
  function Insertions(s: string, images: seq<ImageSpan>): (r: seq<nat>)
    requires ValidSpans(s, images)
    ensures AllAtMost(r, |s|)
    decreases |images|
  {
    if images == [] then []
    else Insertions(s, images[..|images| - 1]) + SpanInsertions(s, images[|images| - 1])
  }

  /** `n` newlines. */
  function Newlines(n: nat): (r: string)
    ensures |r| == n && forall i :: 0 <= i < n ==> r[i] == '\n'
  {
    if n == 0 then [] else ['\n'] + Newlines(n - 1)
  }

  /** The text from offset `k` on with `m[p]` newlines inserted before original offset `p`
      (at the end when `p` is the length). */
  function Expected(s: string, m: multiset<nat>, k: nat): (r: string)
    requires k <= |s|
    decreases |s| - k
  {
    Newlines(m[k]) + (if k < |s| then [s[k]] + Expected(s, m, k + 1) else [])
  }

  /** Every offset in `xs` is at most `bound`... */
  predicate AllAtMost(xs: seq<nat>, bound: int) {
    forall i :: 0 <= i < |xs| ==> xs[i] <= bound
  }

  /** ... and `xs` is in descending order. */
  predicate Descending(xs: seq<nat>) {
    forall i, j :: 0 <= i < j < |xs| ==> xs[i] >= xs[j]
  }

  /** `sortedByDescending`: the same offsets, largest first. */
  function SortDescending(xs: seq<nat>): (r: seq<nat>)
    ensures multiset(r) == multiset(xs) && Descending(r) && |r| == |xs|
    decreases |xs|
  {
    if xs == [] then []
    else
      assert xs == [xs[0]] + xs[1..];
      InsertDescending(xs[0], SortDescending(xs[1..]))
  }

  function InsertDescending(x: nat, xs: seq<nat>): (r: seq<nat>)
    requires Descending(xs)
    ensures multiset(r) == multiset{x} + multiset(xs) && Descending(r) && |r| == |xs| + 1
    decreases |xs|
  {
    if xs == [] || x >= xs[0] then [x] + xs
    else
      assert xs == [xs[0]] + xs[1..];
      var rest := InsertDescending(x, xs[1..]);
      assert forall i :: 0 <= i < |rest| ==> rest[i] in multiset{x} + multiset(xs[1..]);
      [xs[0]] + rest
  }

  /** `SpannableStringBuilder.insert(position, "\n")`. */
  function InsertNewline(t: string, position: nat): (r: string)
    requires position <= |t|
    ensures |r| == |t| + 1
  {
    t[..position] + ['\n'] + t[position..]
  }

  /** The TextView whose text the plugin replaces. */
  class TextView {
    var text: Text

    constructor (text: Text)
      ensures this.text == text
    {
      this.text := text;
    }
  }

  /** `afterSetText`: a plain text is left alone; a spannable one gets every decided
      newline, each at its original offset. Span positions after the insertions are not
      part of this model. */
  method AfterSetText(textView: TextView)
    requires textView.text.Spannable? ==> ValidSpans(textView.text.chars, textView.text.images)
    modifies textView
    ensures old(textView.text).Plain? ==> textView.text == old(textView.text)
    ensures old(textView.text).Spannable? ==>
      var s, images := old(textView.text).chars, old(textView.text).images;
      textView.text == Spannable(Expected(s, multiset(Insertions(s, images)), 0), images)
  {
    var text := textView.text;
    if text.Plain? {
      return;
    }
    var s := text.chars;
    var insertions := CollectInsertions(s, text.images);
    var sorted := SortDescending(insertions);
    assert AllAtMost(sorted, |s|) by {
      forall i | 0 <= i < |sorted|
        ensures sorted[i] <= |s|
      {
        assert sorted[i] in multiset(insertions);
      }
    }
    var spannable := InsertAll(s, sorted);
    textView.text := Spannable(spannable, text.images);
  }

  /** The loop over the image spans that records the insertions. */
  method CollectInsertions(s: string, images: seq<ImageSpan>) returns (insertions: seq<nat>)
    requires ValidSpans(s, images)
    ensures insertions == Insertions(s, images)
  {
    insertions := [];
    var k := 0;
    assert images[..0] == [];
    while k < |images|
      invariant 0 <= k <= |images|
      invariant insertions == Insertions(s, images[..k])
    {
      InsertionsSnoc(s, images, k);
      insertions := AddSpanInsertions(s, images[k], insertions);
      k := k + 1;
    }
    assert images[..|images|] == images;
  }

  /** One iteration of the loop: the decisions for one image span, appended. */
  method AddSpanInsertions(s: string, span: ImageSpan, insertions: seq<nat>) returns (r: seq<nat>)
    requires 0 <= span.start <= span.end <= |s|
    ensures r == insertions + SpanInsertions(s, span)
  {
    r := insertions;
    if span.start > 0 && s[span.start - 1] != '\n' {
      r := r + [span.start];
    }
    if span.end < |s| && s[span.end] != '\n' {
      r := r + [span.end];
    }
  }

  lemma InsertionsSnoc(s: string, images: seq<ImageSpan>, k: nat)
    requires ValidSpans(s, images) && k < |images|
    ensures ValidSpans(s, images[..k]) && ValidSpans(s, images[..k + 1])
    ensures Insertions(s, images[..k + 1]) == Insertions(s, images[..k]) + SpanInsertions(s, images[k])
  {
    assert images[..k + 1][..k] == images[..k];
  }

  /** Inserting in descending order: each newline lands at its original offset, because
      every later insertion is at or before it. */
  method InsertAll(s: string, sorted: seq<nat>) returns (t: string)
    requires Descending(sorted) && AllAtMost(sorted, |s|)
    ensures t == Expected(s, multiset(sorted), 0)
  {
    t := s;
    NoNewlinesIsOriginal(s, 0);
    var j := 0;
    while j < |sorted|
      invariant 0 <= j <= |sorted|
      invariant t == Expected(s, multiset(sorted[..j]), 0)
    {
      var p := sorted[j];
      EarlierAreLarger(sorted, j);
      InsertAtOriginalOffset(s, multiset(sorted[..j]), p, 0);
      t := InsertNewline(t, p);
      assert sorted[..j + 1] == sorted[..j] + [p];
      j := j + 1;
    }
    assert sorted[..|sorted|] == sorted;
  }

  // ------------------------------------------------------------ lemmas

  lemma EarlierAreLarger(sorted: seq<nat>, j: nat)
    requires Descending(sorted) && j < |sorted|
    ensures forall x :: x in multiset(sorted[..j]) ==> x >= sorted[j]
  {
    forall x | x in multiset(sorted[..j])
      ensures x >= sorted[j]
    {
      assert x in sorted[..j];
    }
  }

  lemma {:induction false} NoNewlinesIsOriginal(s: string, k: nat)
    requires k <= |s|
    ensures Expected(s, multiset{}, k) == s[k..]
    decreases |s| - k
  {
    if k < |s| {
      NoNewlinesIsOriginal(s, k + 1);
      assert s[k..] == [s[k]] + s[k + 1..];
    }
  }

  /** With no insertion before `p`, the text up to `p` is the original one... */
  lemma {:induction false} PrefixUntouched(s: string, m: multiset<nat>, p: nat, k: nat)
    requires k <= p <= |s|
    requires forall x :: x in m ==> x >= p
    ensures |Expected(s, m, k)| >= p - k
    ensures Expected(s, m, k)[..p - k] == s[k..p]
    decreases p - k
  {
    if k < p {
      assert m[k] == 0 && Newlines(0) == [];
      PrefixUntouched(s, m, p, k + 1);
      var rest := Expected(s, m, k + 1);
      assert Expected(s, m, k) == [s[k]] + rest;
      assert ([s[k]] + rest)[..p - k] == [s[k]] + rest[..p - k - 1];
      assert s[k..p] == [s[k]] + s[k + 1..p];
    }
  }

  /** ... and one more newline at `p` is an insertion at position `p` of the result. */
  lemma {:induction false} InsertAtOriginalOffset(s: string, m: multiset<nat>, p: nat, k: nat)
    requires k <= p <= |s|
    requires forall x :: x in m ==> x >= p
    ensures |Expected(s, m, k)| >= p - k
    ensures Expected(s, m + multiset{p}, k) == InsertNewline(Expected(s, m, k), p - k)
    decreases p - k
  {
    PrefixUntouched(s, m, p, k);
    if k == p {
      InsertAtHere(s, m, p);
    } else {
      InsertAtOriginalOffset(s, m, p, k + 1);
      InsertBelow(s, m, p, k);
    }
  }

  lemma InsertAtHere(s: string, m: multiset<nat>, p: nat)
    requires p <= |s|
    ensures Expected(s, m + multiset{p}, p) == InsertNewline(Expected(s, m, p), 0)
  {
    var e := Expected(s, m, p);
    assert (m + multiset{p})[p] == m[p] + 1;
    assert Newlines(m[p] + 1) == ['\n'] + Newlines(m[p]);
    var tail := if p < |s| then [s[p]] + Expected(s, m, p + 1) else [];
    if p < |s| {
      ExpectedAgree(s, m + multiset{p}, m, p + 1);
    }
    assert e == Newlines(m[p]) + tail;
    assert Expected(s, m + multiset{p}, p) == Newlines(m[p] + 1) + tail;
    assert e[..0] == [] && e[0..] == e;
  }

  lemma InsertBelow(s: string, m: multiset<nat>, p: nat, k: nat)
    requires k < p <= |s|
    requires forall x :: x in m ==> x >= p
    requires |Expected(s, m, k + 1)| >= p - k - 1
    requires Expected(s, m + multiset{p}, k + 1) == InsertNewline(Expected(s, m, k + 1), p - k - 1)
    ensures |Expected(s, m, k)| >= p - k
    ensures Expected(s, m + multiset{p}, k) == InsertNewline(Expected(s, m, k), p - k)
  {
    assert m[k] == 0 && (m + multiset{p})[k] == 0;
    assert Newlines(0) == [];
    var rest := Expected(s, m, k + 1);
    assert Expected(s, m, k) == [s[k]] + rest;
    assert Expected(s, m + multiset{p}, k) == [s[k]] + Expected(s, m + multiset{p}, k + 1);
    ConsInsert(s[k], rest, p - k - 1);
  }

  lemma ConsInsert(c: char, rest: string, q: nat)
    requires q <= |rest|
    ensures [c] + InsertNewline(rest, q) == InsertNewline([c] + rest, q + 1)
  {
    assert ([c] + rest)[..q + 1] == [c] + rest[..q];
    assert ([c] + rest)[q + 1..] == rest[q..];
  }

  /** The text from `k` on depends only on the counts at `k` and beyond. */
  lemma {:induction false} ExpectedAgree(s: string, m1: multiset<nat>, m2: multiset<nat>, k: nat)
    requires k <= |s|
    requires forall x: nat :: x >= k ==> m1[x] == m2[x]
    ensures Expected(s, m1, k) == Expected(s, m2, k)
    decreases |s| - k
  {
    if k < |s| {
      ExpectedAgree(s, m1, m2, k + 1);
    }
  }

  /** Each newline adds one character: the result is the original length plus the
      number of insertions. */
  lemma {:induction false} ExpectedLength(s: string, m: multiset<nat>, k: nat)
    requires k <= |s|
    requires forall x :: x in m ==> x <= |s|
    ensures |Expected(s, m, k)| == |s| - k + |SubmultisetFrom(m, k, |s|)|
    decreases |s| - k
  {
    if k < |s| {
      ExpectedLength(s, m, k + 1);
      SplitFrom(m, k, |s|);
    } else {
      SingletonFrom(m, k);
    }
  }

  /** The part of `m` whose offsets lie in [k, n]. */
  function SubmultisetFrom(m: multiset<nat>, k: nat, n: nat): (r: multiset<nat>)
    ensures forall x :: x in r ==> k <= x <= n
    decreases n - k
  {
    if k > n then multiset{}
    else SubmultisetFrom(m, k + 1, n)[k := m[k]]
  }

  lemma SplitFrom(m: multiset<nat>, k: nat, n: nat)
    requires k < n
    ensures |SubmultisetFrom(m, k, n)| == m[k] + |SubmultisetFrom(m, k + 1, n)|
  {
    var rest := SubmultisetFrom(m, k + 1, n);
    assert rest[k] == 0;
    assert SubmultisetFrom(m, k, n) == rest + multiset{}[k := m[k]];
  }

  lemma SingletonFrom(m: multiset<nat>, n: nat)
    ensures |SubmultisetFrom(m, n, n)| == m[n]
  {
    assert SubmultisetFrom(m, n, n) == multiset{}[n := m[n]];
  }

  /** A multiset whose elements all lie in [0, n] is its own part over [0, n]. */
  lemma {:induction false} WholeIsSubmultiset(m: multiset<nat>, n: nat)
    requires forall x :: x in m ==> x <= n
    ensures SubmultisetFrom(m, 0, n) == m
  {
    forall x: nat
      ensures SubmultisetFrom(m, 0, n)[x] == m[x]
    {
      CountIn(m, 0, n, x);
    }
  }

  lemma {:induction false} CountIn(m: multiset<nat>, k: nat, n: nat, x: nat)
    ensures SubmultisetFrom(m, k, n)[x] == if k <= x <= n then m[x] else 0
    decreases n - k
  {
    if k <= n {
      CountIn(m, k + 1, n, x);
    }
  }

  /** The plugin only adds newlines: its result is the original length plus one per
      insertion, and dropping the added newlines gives back the original characters. */
  lemma ResultLength(s: string, images: seq<ImageSpan>)
    requires ValidSpans(s, images)
    ensures |Expected(s, multiset(Insertions(s, images)), 0)| == |s| + |Insertions(s, images)|
  {
    var ins := Insertions(s, images);
    var m := multiset(ins);
    assert forall x :: x in m ==> x <= |s| by {
      forall x | x in m
        ensures x <= |s|
      {
        assert x in ins;
      }
    }
    ExpectedLength(s, m, 0);
    WholeIsSubmultiset(m, |s|);
  }

  /** The characters other than newlines, in order. */
  function NonNewlines(t: string): (r: string)
    ensures |r| <= |t|
  {
    if t == [] then [] else (if t[0] == '\n' then [] else [t[0]]) + NonNewlines(t[1..])
  }

  lemma {:induction false} NonNewlinesAppend(a: string, b: string)
    ensures NonNewlines(a + b) == NonNewlines(a) + NonNewlines(b)
    decreases |a|
  {
    if a == [] {
      assert a + b == b;
    } else {
      assert (a + b)[0] == a[0] && (a + b)[1..] == a[1..] + b;
      NonNewlinesAppend(a[1..], b);
    }
  }

  lemma {:induction false} NewlinesVanish(n: nat)
    ensures NonNewlines(Newlines(n)) == []
  {
    if n > 0 {
      assert Newlines(n)[1..] == Newlines(n - 1);
      NewlinesVanish(n - 1);
    }
  }

  /** Dropping the newlines of the result drops exactly the newlines of the original:
      the original characters are all kept, in order. */
  lemma {:induction false} OriginalCharactersKept(s: string, m: multiset<nat>, k: nat)
    requires k <= |s|
    ensures NonNewlines(Expected(s, m, k)) == NonNewlines(s[k..])
    decreases |s| - k
  {
    NewlinesVanish(m[k]);
    if k < |s| {
      OriginalCharactersKept(s, m, k + 1);
      NonNewlinesAppend(Newlines(m[k]), [s[k]] + Expected(s, m, k + 1));
      NonNewlinesAppend([s[k]], Expected(s, m, k + 1));
      NonNewlinesAppend([s[k]], s[k + 1..]);
      assert s[k..] == [s[k]] + s[k + 1..];
    } else {
      assert Expected(s, m, k) == Newlines(m[k]) + [];
      assert Newlines(m[k]) + [] == Newlines(m[k]);
      assert s[k..] == [];
    }
  }

  /** Text that already has every image on its own line is left unchanged. */
  lemma AlreadyBlockIsUnchanged(s: string, images: seq<ImageSpan>)
    requires ValidSpans(s, images)
    requires forall k :: 0 <= k < |images| ==>
      !NeedsBreakBefore(s, images[k].start) && !NeedsBreakAfter(s, images[k].end)
    ensures Insertions(s, images) == []
    ensures Expected(s, multiset(Insertions(s, images)), 0) == s
  {
    NoInsertions(s, images);
    NoNewlinesIsOriginal(s, 0);
  }

  lemma {:induction false} NoInsertions(s: string, images: seq<ImageSpan>)
    requires ValidSpans(s, images)
    requires forall k :: 0 <= k < |images| ==>
      !NeedsBreakBefore(s, images[k].start) && !NeedsBreakAfter(s, images[k].end)
    ensures Insertions(s, images) == []
    decreases |images|
  {
    if images != [] {
      var init := images[..|images| - 1];
      assert forall k :: 0 <= k < |init| ==> init[k] == images[k];
      NoInsertions(s, init);
      assert SpanInsertions(s, images[|images| - 1]) == [];
    }
  }
}
