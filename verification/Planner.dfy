/** Splitting an objective into work items, and handing the items to agents. */
module Planner {
  import opened Events

  const DEFAULT_TARGET_ITEMS := 4
  const MAX_TARGET_ITEMS := 12
  const MAX_AGENTS := 16

  type U16 = x: int | 0 <= x < 0x1_0000 witness 0

  /** The text "Step n: " followed by the chunk, or one of the stock steps. */
  datatype Description = StepOf(number: nat, text: string) | Stock(text: string)

  datatype WorkItem = WorkItem(id: Uuid, runId: Uuid, description: Description, agent: Option<Uuid>, status: ItemStatus)

  function Clamp(x: int, low: int, high: int): int {
    if x < low then low else if x > high then high else x
  }

  /** What was asked for, or 4 if nothing was, but at least 1 and at most 12. */
  function ResolveTargetItemCount(requested: Option<U16>): (n: nat)
    ensures 1 <= n <= MAX_TARGET_ITEMS
    ensures requested.None? ==> n == 4
    ensures requested.Some? && 1 <= requested.value <= 12 ==> n == requested.value
    ensures requested == Some(0) ==> n == 1
    ensures requested.Some? && requested.value > 12 ==> n == 12
  {
    Clamp(if requested.Some? then requested.value else DEFAULT_TARGET_ITEMS, 1, MAX_TARGET_ITEMS)
  }

  /** What was asked for, or 1 if nothing was, but at least 1 and at most 16. */
  function ResolveAgentCount(requested: Option<U16>): (n: nat)
    ensures 1 <= n <= MAX_AGENTS
    ensures requested.None? || requested == Some(0) ==> n == 1
    ensures requested.Some? && 1 <= requested.value <= 16 ==> n == requested.value
    ensures requested.Some? && requested.value > 16 ==> n == 16
  {
    Clamp(if requested.Some? then requested.value else 1, 1, MAX_AGENTS)
  }

  // ---- Words ---------------------------------------------------------------------------------------

  /** The Unicode White_Space property. */
  predicate IsWhitespace(c: char) {
    || '\U{0009}' <= c <= '\U{000D}' || c == ' ' || c == '\U{0085}' || c == '\U{00A0}' || c == '\U{1680}'
    || '\U{2000}' <= c <= '\U{200A}' || c == '\U{2028}' || c == '\U{2029}' || c == '\U{202F}' || c == '\U{205F}'
    || c == '\U{3000}'
  }

  /** The 25 characters that have that property, by their code points. */
  const WHITESPACE: set<int> := {9, 10, 11, 12, 13, 32, 133, 160, 5760, 8192, 8193, 8194, 8195, 8196, 8197, 8198, 8199,
                                 8200, 8201, 8202, 8232, 8233, 8239, 8287, 12288}

  lemma {:induction false} WhitespaceIs(c: char)
    ensures IsWhitespace(c) <==> c as int in WHITESPACE
  {
  }

  /** How many characters come before the first whitespace. */
  function WordLength(s: string): (n: nat)
    ensures n <= |s| && (forall k :: 0 <= k < n ==> !IsWhitespace(s[k])) && (n < |s| ==> IsWhitespace(s[n]))
  {
    if s == "" || IsWhitespace(s[0]) then 0 else 1 + WordLength(s[1..])
  }

  /** `split_whitespace`. */
  function Words(s: string): seq<string> {
    if s == "" then []
    else if IsWhitespace(s[0]) then Words(s[1..])
    else [s[..WordLength(s)]] + Words(s[WordLength(s)..])
  }

  /** `join(" ")`. */
  function Join(words: seq<string>): string {
    if words == [] then "" else if |words| == 1 then words[0] else words[0] + " " + Join(words[1..])
  }

  predicate IsWord(w: string) {
    w != "" && forall k :: 0 <= k < |w| ==> !IsWhitespace(w[k])
  }

  function Visible(s: string): string {
    if s == "" then "" else (if IsWhitespace(s[0]) then "" else [s[0]]) + Visible(s[1..])
  }

  lemma {:induction false} VisibleWord(w: string, rest: string)
    requires forall k :: 0 <= k < |w| ==> !IsWhitespace(w[k])
    ensures Visible(w + rest) == w + Visible(rest)
  {
    if w == "" {
      assert w + rest == rest;
    } else {
      VisibleWord(w[1..], rest);
      assert (w + rest)[1..] == w[1..] + rest;
    }
  }

  /** Splitting yields words, and loses nothing but whitespace. */
  lemma {:induction false} WordsLoseNothing(s: string)
    ensures forall k :: 0 <= k < |Words(s)| ==> IsWord(Words(s)[k])
    ensures Flatten(Words(s)) == Visible(s)
    decreases |s|
  {
    if s == "" {
    } else if IsWhitespace(s[0]) {
      WordsLoseNothing(s[1..]);
    } else {
      var n := WordLength(s);
      WordsLoseNothing(s[n..]);
      assert s == s[..n] + s[n..];
      VisibleWord(s[..n], s[n..]);
      ConsChunk(s[..n], Words(s[n..]));
    }
  }

  lemma {:induction false} FirstWord(w: string, rest: string)
    requires IsWord(w) && (rest == "" || IsWhitespace(rest[0]))
    ensures Words(w + rest) == [w] + Words(rest)
  {
    var s := w + rest;
    assert forall k :: 0 <= k < |w| ==> s[k] == w[k];
    assert rest != "" ==> s[|w|] == rest[0];
    assert WordLength(s) == |w|;
    assert s[..|w|] == w && s[|w|..] == rest;
  }

  /** Joining puts one space between two words, and nothing else. */
  lemma {:induction false} JoinPutsSpaces(words: seq<string>)
    requires words != [] && forall k :: 0 <= k < |words| ==> IsWord(words[k])
    ensures |Join(words)| == |Flatten(words)| + |words| - 1
    ensures forall k :: 0 <= k < |Join(words)| && IsWhitespace(Join(words)[k]) ==> Join(words)[k] == ' '
  {
    if |words| > 1 {
      var rest := Join(words[1..]);
      JoinPutsSpaces(words[1..]);
      assert Join(words) == words[0] + " " + rest;
    } else {
      assert words[1..] == [];
    }
  }

  /** Words joined by spaces split back into themselves. */
  lemma {:induction false} SplitJoin(words: seq<string>)
    requires forall k :: 0 <= k < |words| ==> IsWord(words[k])
    ensures Words(Join(words)) == words
  {
    if |words| == 1 {
      FirstWord(words[0], "");
      assert words[0] + "" == words[0];
      assert words == [words[0]];
    } else if |words| > 1 {
      var rest := Join(words[1..]);
      SplitJoin(words[1..]);
      FirstWord(words[0], " " + rest);
      assert words[0] + " " + rest == words[0] + (" " + rest);
      assert (" " + rest)[1..] == rest;
      assert words == [words[0]] + words[1..];
    }
  }

  // ---- Chunks ---------------------------------------------------------------------------------------

  /** `slice::chunks`. */
  function Chunks<T>(s: seq<T>, width: nat): seq<seq<T>>
    requires width > 0
  {
    if s == [] then [] else if |s| <= width then [s] else [s[..width]] + Chunks(s[width..], width)
  }

  function Take<T>(s: seq<T>, n: nat): seq<T> {
    if |s| <= n then s else s[..n]
  }

  /** The least width, from 1 on, of which `target` chunks hold all the words. */
  function ChunkWidth(words: nat, target: nat): (width: nat)
    requires target > 0
    ensures width > 0 && words <= width * target
    ensures width > 1 ==> (width - 1) * target < words
  {
    CeilingIsLeast(words, target);
    var width := (words + target - 1) / target;
    if width < 1 then 1 else width
  }

  lemma {:induction false} CeilingIsLeast(n: nat, d: nat)
    requires d > 0
    ensures var q := (n + d - 1) / d; (q - 1) * d < n <= q * d || q == n == 0
  {
    var q, r := (n + d - 1) / d, (n + d - 1) % d;
    assert n + d - 1 == q * d + r && 0 <= r < d;
    assert (q - 1) * d == q * d - d;
    if q == 0 {
      assert n == 0;
    }
  }

  const STOCK_STEPS := ["Understand objective", "Execute supporting checks", "Design follow-up actions",
                        "Evaluate risks", "Summarize outcome", "Post results"]

  /** `decompose_objective_with_target`; `newId` supplies item identifiers. */
  function Decompose(run: Uuid, objective: string, requested: nat, newId: nat -> Uuid): (items: seq<WorkItem>)
    ensures forall k :: 0 <= k < |items| ==> items[k].id == newId(k) && items[k].runId == run
  {
    var target, words := Clamp(requested, 1, MAX_TARGET_ITEMS), Words(objective);
    var chunks := Take(Chunks(words, ChunkWidth(|words|, target)), target);
    if chunks != [] then
      seq(|chunks|, k requires 0 <= k < |chunks| =>
        WorkItem(newId(k), run, StepOf(k + 1, Join(chunks[k])), None, Unassigned))
    else
      var stock := Take(STOCK_STEPS, Clamp(DEFAULT_TARGET_ITEMS, 0, target));
      seq(|stock|, k requires 0 <= k < |stock| => WorkItem(newId(k), run, Stock(stock[k]), None, Unassigned))
  }

  function Flatten<T>(parts: seq<seq<T>>): seq<T> {
    if parts == [] then [] else parts[0] + Flatten(parts[1..])
  }

  lemma {:induction false} ConsChunk<T>(first: seq<T>, rest: seq<seq<T>>)
    ensures Flatten([first] + rest) == first + Flatten(rest)
  {
    assert ([first] + rest)[1..] == rest;
  }

  lemma {:induction false} ChunksConcatenate<T>(s: seq<T>, width: nat)
    requires width > 0
    ensures Flatten(Chunks(s, width)) == s
  {
    if s == [] {
    } else if |s| <= width {
      ConsChunk(s, []);
      assert [s] + [] == [s];
    } else {
      ChunksConcatenate(s[width..], width);
      ConsChunk(s[..width], Chunks(s[width..], width));
      assert s == s[..width] + s[width..];
    }
  }

  lemma {:induction false} ChunksCount<T>(s: seq<T>, width: nat)
    requires width > 0
    ensures width * |Chunks(s, width)| < |s| + width
  {
    if |s| > width {
      ChunksCount(s[width..], width);
      var rest := |Chunks(s[width..], width)|;
      assert width * (1 + rest) == width + width * rest;
    }
  }

  lemma {:induction false} ChunksWidths<T>(s: seq<T>, width: nat)
    requires width > 0
    ensures forall k :: 0 <= k < |Chunks(s, width)| - 1 ==> |Chunks(s, width)[k]| == width
    ensures s != [] ==> Chunks(s, width) != [] && 0 < |Chunks(s, width)[|Chunks(s, width)| - 1]| <= width
  {
    if |s| > width {
      ChunksWidths(s[width..], width);
      var chunks, rest := Chunks(s, width), Chunks(s[width..], width);
      assert chunks == [s[..width]] + rest;
      forall k | 0 <= k < |chunks| - 1 ensures |chunks[k]| == width {
        if k > 0 {
          assert chunks[k] == rest[k - 1];
        }
      }
    }
  }

  /** Chunks wide enough for `target` of them to hold n words are no more than `target`. */
  lemma {:induction false} CeilingFits(n: nat, target: nat, width: nat, count: nat)
    requires n <= width * target && width * count < n + width
    ensures count <= target
  {
    if count > target {
      assert width * count >= width * (target + 1) by { Monotone(width, target + 1, count); }
    }
  }

  lemma {:induction false} Monotone(w: nat, a: nat, b: nat)
    requires a <= b
    ensures w * a <= w * b
  {
    assert w * b == w * a + w * (b - a);
  }

  lemma {:induction false} ChunksHoldElements<T>(s: seq<T>, width: nat, k: nat, j: nat)
    requires width > 0 && k < |Chunks(s, width)| && j < |Chunks(s, width)[k]|
    ensures Chunks(s, width)[k][j] in s
  {
    if |s| > width && k > 0 {
      ChunksHoldElements(s[width..], width, k - 1, j);
    }
  }

  /** The words of each item's text, without its number; a stock step has none of the objective's. */
  function WordsOf(items: seq<WorkItem>): seq<seq<string>> {
    seq(|items|, k requires 0 <= k < |items| =>
      if items[k].description.StepOf? then Words(items[k].description.text) else [])
  }

  /**
   * How an objective is split: into steps of w words each but for the last, with w the least width of which
   * `target` steps hold all the words, and into just as many steps as it takes.
   */
  ghost predicate Split(words: nat, target: nat, parts: seq<seq<string>>) {
    && parts != []
    && var w := |parts[0]|;
       && w > 0 && (w - 1) * target < words <= w * target
       && (|parts| - 1) * w < words <= |parts| * w
       && (forall k :: 0 <= k < |parts| - 1 ==> |parts[k]| == w)
       && 0 < |parts[|parts| - 1]| <= w
  }

  lemma {:induction false} FlattenLength<T>(parts: seq<seq<T>>, w: nat)
    requires parts != [] && forall k :: 0 <= k < |parts| - 1 ==> |parts[k]| == w
    ensures |Flatten(parts)| == (|parts| - 1) * w + |parts[|parts| - 1]|
  {
    if |parts| > 1 {
      FlattenLength(parts[1..], w);
      assert (|parts| - 1) * w == w + (|parts| - 2) * w;
    } else {
      assert parts[1..] == [];
    }
  }

  lemma {:induction false} SplitNumbers(n: nat, target: nat, width: nat, count: nat, w: nat, last: nat)
    requires target > 0 && count > 0 && 0 < last <= w && n == (count - 1) * w + last
    requires n <= width * target && (width > 1 ==> (width - 1) * target < n)
    requires if count > 1 then w == width else w == last <= width
    ensures (w - 1) * target < n <= w * target && (count - 1) * w < n <= count * w
  {
    assert count * w == (count - 1) * w + w;
    if count == 1 {
      Monotone(target, w - 1, width - 1);
      Monotone(w, 1, target);
    }
  }

  lemma {:induction false} ChunksSplit(words: seq<string>, target: nat)
    requires words != [] && target > 0
    ensures Split(|words|, target, Chunks(words, ChunkWidth(|words|, target)))
  {
    var width := ChunkWidth(|words|, target);
    var parts := Chunks(words, width);
    ChunksWidths(words, width);
    ChunksConcatenate(words, width);
    FlattenLength(parts, |parts[0]|);
    SplitNumbers(|words|, target, width, |parts|, |parts[0]|, |parts[|parts| - 1]|);
  }

  /** The steps of an objective that has words are its chunks. */
  lemma {:induction false} StepsAreChunks(run: Uuid, objective: string, requested: nat, newId: nat -> Uuid)
    requires Words(objective) != []
    ensures var words := Words(objective);
            var items, target := Decompose(run, objective, requested, newId), Clamp(requested, 1, MAX_TARGET_ITEMS);
            && 1 <= |items| <= target && WordsOf(items) == Chunks(words, ChunkWidth(|words|, target))
            && forall k :: 0 <= k < |items| ==>
                 items[k] == WorkItem(newId(k), run, StepOf(k + 1, Join(WordsOf(items)[k])), None, Unassigned)
  {
    var words, target := Words(objective), Clamp(requested, 1, MAX_TARGET_ITEMS);
    var width := ChunkWidth(|words|, target);
    ChunksCount(words, width);
    ChunksWidths(words, width);
    CeilingFits(|words|, target, width, |Chunks(words, width)|);
    ChunksSplitBack(objective, width);
    assert WordsOf(Decompose(run, objective, requested, newId)) == Chunks(words, width);
  }

  /**
   * Decomposition loses nothing: `take` never drops a chunk, the words of the steps' texts concatenate
   * back to the words of the objective in order, all steps but the last are equally wide, and no wider than
   * it takes; and there are always 1 to `target` items, the stock ones exactly when the objective has no words.
   */
  lemma {:induction false} DecomposeLosesNothing(run: Uuid, objective: string, requested: nat, newId: nat -> Uuid)
    ensures var words := Words(objective);
            var items, target := Decompose(run, objective, requested, newId), Clamp(requested, 1, MAX_TARGET_ITEMS);
            && 1 <= |items| <= target
            && Flatten(WordsOf(items)) == words
            && (words != [] ==> forall k :: 0 <= k < |items| - 1 ==> |WordsOf(items)[k]| == ChunkWidth(|words|, target))
            && (words != [] ==> forall k :: 0 <= k < |items| ==>
                  items[k].description == StepOf(k + 1, Join(WordsOf(items)[k])))
            && (words == [] ==> forall k :: 0 <= k < |items| ==> items[k].description == Stock(STOCK_STEPS[k]))
            && (words != [] ==> Split(|words|, target, WordsOf(items)))
            && (words == [] ==> |items| == if target < 4 then target else 4)
            && forall k :: 0 <= k < |items| ==> items[k].status == Unassigned && items[k].agent == None
  {
    var words, target := Words(objective), Clamp(requested, 1, MAX_TARGET_ITEMS);
    if words != [] {
      StepsAreChunks(run, objective, requested, newId);
      ChunksConcatenate(words, ChunkWidth(|words|, target));
      ChunksWidths(words, ChunkWidth(|words|, target));
      ChunksSplit(words, target);
    } else {
      EmptyWords(WordsOf(Decompose(run, objective, requested, newId)));
    }
  }

  /** The stock steps, of which only the first four are ever used. */
  lemma {:induction false} StockItems(run: Uuid, objective: string, requested: nat, newId: nat -> Uuid)
    requires Words(objective) == []
    ensures var items := Decompose(run, objective, requested, newId);
            && items[0].description == Stock("Understand objective")
            && (|items| > 1 ==> items[1].description == Stock("Execute supporting checks"))
            && (|items| > 2 ==> items[2].description == Stock("Design follow-up actions"))
            && (|items| > 3 ==> items[3].description == Stock("Evaluate risks"))
  {
    DecomposeLosesNothing(run, objective, requested, newId);
  }

  lemma {:induction false} ChunksSplitBack(objective: string, width: nat)
    requires width > 0
    ensures forall k :: 0 <= k < |Chunks(Words(objective), width)| ==>
              Words(Join(Chunks(Words(objective), width)[k])) == Chunks(Words(objective), width)[k]
  {
    var words := Words(objective);
    var chunks := Chunks(words, width);
    WordsLoseNothing(objective);
    forall k | 0 <= k < |chunks| ensures Words(Join(chunks[k])) == chunks[k] {
      forall j | 0 <= j < |chunks[k]| ensures IsWord(chunks[k][j]) {
        ChunksHoldElements(words, width, k, j);
      }
      SplitJoin(chunks[k]);
    }
  }

  lemma {:induction false} EmptyWords(parts: seq<seq<string>>)
    requires forall k :: 0 <= k < |parts| ==> parts[k] == []
    ensures Flatten(parts) == []
  {
    if parts != [] {
      EmptyWords(parts[1..]);
    }
  }
}
