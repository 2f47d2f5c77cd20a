/** The token-window chunker of the indexing pipeline (`chunk_markdown`).
    The text is encoded once into tokens; windows of at most `maxTokens` tokens are
    cut from it, each later window starting `overlap` tokens before the previous
    window's end, until a window reaches the end of the token sequence. */
module Chunker {
  import opened Common

  const DEFAULT_MAX_TOKENS: nat := 7000
  const DEFAULT_OVERLAP: nat := 300

  /** The half-open token range `[start, end)` of one chunk. */
  datatype Window = Window(start: nat, end: nat)

  /** `ceil(x / s)` for positive `x` and `s`, with the two bounds that characterise it. */
  lemma CeilDivBounds(x: nat, s: nat)
    requires x > 0 && s > 0
    ensures (x + s - 1) / s >= 1
    ensures ((x + s - 1) / s - 1) * s < x <= ((x + s - 1) / s) * s
  {
    var q, r := (x + s - 1) / s, (x + s - 1) % s;
    assert x + s - 1 == q * s + r && 0 <= r < s;
    assert q * s >= x;
    assert (q - 1) * s == q * s - s;
  }

  /** How many windows a text of `n` tokens is cut into. */
  function WindowCount(n: nat, maxTokens: nat, overlap: nat): nat
    requires overlap < maxTokens
  {
    if n == 0 then 0
    else if n <= maxTokens then 1
    else 1 + (n - maxTokens + (maxTokens - overlap) - 1) / (maxTokens - overlap)
  }

  /** The windows in closed form: the k-th starts at `k * (maxTokens - overlap)`. */
  function ChunkWindows(n: nat, maxTokens: nat, overlap: nat): seq<Window>
    requires overlap < maxTokens
  {
    seq(WindowCount(n, maxTokens, overlap),
        k requires 0 <= k => Window(k * (maxTokens - overlap), Min(k * (maxTokens - overlap) + maxTokens, n)))
  }

  /** The k-th window is the last one exactly when it reaches the end of the tokens. */
  lemma WindowIsLast(n: nat, maxTokens: nat, overlap: nat, k: nat)
    requires overlap < maxTokens
    requires k < WindowCount(n, maxTokens, overlap)
    ensures k * (maxTokens - overlap) + maxTokens >= n <==> k == WindowCount(n, maxTokens, overlap) - 1
    ensures k * (maxTokens - overlap) < n
  {
    var s := maxTokens - overlap;
    if n > maxTokens {
      CeilDivBounds(n - maxTokens, s);
      var c := (n - maxTokens + s - 1) / s;
      if k < c {
        assert k * s <= (c - 1) * s;
      } else {
        assert k == c;
      }
    }
  }

  /** The shape the chunker promises: windows are non-empty and at most `maxTokens`
      long, the first starts at 0, every window but the last is full, each later
      window starts `overlap` tokens before the previous end (so starts strictly
      increase), and the last window ends exactly at the token count. */
  lemma {:induction false} ChunkWindowsShape(n: nat, maxTokens: nat, overlap: nat)
    requires overlap < maxTokens
    ensures var ws := ChunkWindows(n, maxTokens, overlap);
      && (|ws| == 0 <==> n == 0)
      && (0 < n <= maxTokens ==> ws == [Window(0, n)])
      && (n > 0 ==> ws[0].start == 0 && ws[|ws| - 1].end == n)
      && (forall k :: 0 <= k < |ws| ==>
            ws[k].start < ws[k].end <= n && ws[k].end - ws[k].start <= maxTokens)
      && (forall k :: 0 <= k < |ws| - 1 ==>
            ws[k].end - ws[k].start == maxTokens
            && ws[k + 1].start == ws[k].end - overlap
            && ws[k].start < ws[k + 1].start)
  {
    var ws := ChunkWindows(n, maxTokens, overlap);
    forall k | 0 <= k < |ws|
      ensures ws[k].start < ws[k].end <= n && ws[k].end - ws[k].start <= maxTokens
    {
      WindowBounds(n, maxTokens, overlap, k);
    }
    forall k | 0 <= k < |ws| - 1
      ensures ws[k].end - ws[k].start == maxTokens
      ensures ws[k + 1].start == ws[k].end - overlap
      ensures ws[k].start < ws[k + 1].start
    {
      WindowStep(n, maxTokens, overlap, k);
    }
    WindowEnds(n, maxTokens, overlap);
  }

  /** There are no windows exactly for an empty text; a short text is one window, and
      otherwise the first window starts at 0 and the last ends at the token count. */
  lemma WindowEnds(n: nat, maxTokens: nat, overlap: nat)
    requires overlap < maxTokens
    ensures var ws := ChunkWindows(n, maxTokens, overlap);
      && (|ws| == 0 <==> n == 0)
      && (0 < n <= maxTokens ==> ws == [Window(0, n)])
      && (n > 0 ==> ws[0].start == 0 && ws[|ws| - 1].end == n)
  {
    if n > 0 {
      WindowIsLast(n, maxTokens, overlap, WindowCount(n, maxTokens, overlap) - 1);
    }
  }

  /** One window is non-empty, at most `maxTokens` long and within the tokens. */
  lemma WindowBounds(n: nat, maxTokens: nat, overlap: nat, k: nat)
    requires overlap < maxTokens
    requires k < WindowCount(n, maxTokens, overlap)
    ensures var w := ChunkWindows(n, maxTokens, overlap)[k];
      w.start < w.end <= n && w.end - w.start <= maxTokens
  {
    WindowIsLast(n, maxTokens, overlap, k);
  }

  /** A window that is not the last is full, and the next one starts `overlap` tokens
      before its end. */
  lemma WindowStep(n: nat, maxTokens: nat, overlap: nat, k: nat)
    requires overlap < maxTokens
    requires k + 1 < WindowCount(n, maxTokens, overlap)
    ensures var ws := ChunkWindows(n, maxTokens, overlap);
      && ws[k].end - ws[k].start == maxTokens
      && ws[k + 1].start == ws[k].end - overlap
      && ws[k].start < ws[k + 1].start
  {
    var s := maxTokens - overlap;
    WindowIsLast(n, maxTokens, overlap, k);
    assert (k + 1) * s == k * s + s;
  }

  /** Consecutive chunks share exactly `overlap` tokens, verbatim: the last `overlap`
      tokens of window k are the first `overlap` tokens of window k + 1. */
  lemma SharedTokens(tokens: seq<int>, maxTokens: nat, overlap: nat, k: nat)
    requires overlap < maxTokens
    requires k + 1 < |ChunkWindows(|tokens|, maxTokens, overlap)|
    ensures var ws := ChunkWindows(|tokens|, maxTokens, overlap);
      ws[k].start <= ws[k].end <= |tokens| && ws[k + 1].start <= ws[k + 1].end <= |tokens|
    ensures var ws := ChunkWindows(|tokens|, maxTokens, overlap);
      var a := tokens[ws[k].start..ws[k].end];
      var b := tokens[ws[k + 1].start..ws[k + 1].end];
      |a| >= overlap && |b| >= overlap && a[|a| - overlap..] == b[..overlap]
  {
    var n := |tokens|;
    var ws := ChunkWindows(n, maxTokens, overlap);
    var s := maxTokens - overlap;
    WindowIsLast(n, maxTokens, overlap, k);
    WindowIsLast(n, maxTokens, overlap, k + 1);
    var p := k * s;
    assert (k + 1) * s == p + s;
    assert ws[k] == Window(p, p + maxTokens);
    assert ws[k + 1] == Window(p + s, Min(p + s + maxTokens, n));
    var a := tokens[p..p + maxTokens];
    var b := tokens[p + s..Min(p + s + maxTokens, n)];
    assert a[|a| - overlap..] == tokens[p + s..p + maxTokens];
    assert b[..overlap] == tokens[p + s..p + maxTokens];
  }

  /** The worked example: 20,000 tokens, windows of 7,000 overlapping by 300. */
  lemma TwentyThousandTokens()
    ensures ChunkWindows(20000, 7000, 300)
         == [Window(0, 7000), Window(6700, 13700), Window(13400, 20000)]
  {
    assert WindowCount(20000, 7000, 300) == 3;
  }

  /** The decoded text of every window, in order. */
  function ChunkTexts(tokens: seq<int>, maxTokens: nat, overlap: nat, decode: seq<int> -> string): (chunks: seq<string>)
    requires overlap < maxTokens
    ensures |chunks| == |ChunkWindows(|tokens|, maxTokens, overlap)|
  {
    var ws := ChunkWindows(|tokens|, maxTokens, overlap);
    ChunkWindowsShape(|tokens|, maxTokens, overlap);
    seq(|ws|, i requires 0 <= i < |ws| => decode(tokens[ws[i].start..ws[i].end]))
  }

  /** `chunk_markdown(text, max_tokens, overlap)` on the already encoded `tokens`;
      `decode` stands for the tokenizer's decoding. Without `overlap < maxTokens`
      the source loop stops advancing on a text of more than `maxTokens` tokens and
      never ends; a negative overlap, which the source accepts, is not modelled. */
  method ChunkMarkdown(tokens: seq<int>, maxTokens: nat, overlap: nat, decode: seq<int> -> string)
    returns (windows: seq<Window>, chunks: seq<string>)
    requires overlap < maxTokens
    ensures windows == ChunkWindows(|tokens|, maxTokens, overlap)
    ensures |chunks| == |windows|
    ensures forall i :: 0 <= i < |windows| ==>
      windows[i].start <= windows[i].end <= |tokens|
      && chunks[i] == decode(tokens[windows[i].start..windows[i].end])
    ensures chunks == ChunkTexts(tokens, maxTokens, overlap, decode)
  {
    var n := |tokens|;
    var stride := maxTokens - overlap;
    ghost var ws := ChunkWindows(n, maxTokens, overlap);
    windows, chunks := [], [];
    var start := 0;
    while start < n
      invariant start == |windows| * stride
      invariant |windows| == 0 || start < n
      invariant start < n ==> |windows| < |ws|
      invariant |windows| <= |ws| && windows == ws[..|windows|]
      invariant |chunks| == |windows|
      invariant forall i :: 0 <= i < |windows| ==>
        windows[i].start <= windows[i].end <= n
        && chunks[i] == decode(tokens[windows[i].start..windows[i].end])
      decreases n - start
    {
      var end := Min(start + maxTokens, n);
      WindowIsLast(n, maxTokens, overlap, |windows|);
      windows := windows + [Window(start, end)];
      chunks := chunks + [decode(tokens[start..end])];
      if end == n {
        break;
      }
      start := end - overlap;
    }
  }
}
