/**
 * The text utilities of the ingestion pipeline (`DocumentProcessor` in
 * backend/documents/utils.py): whitespace normalisation, the sliding-window
 * chunker, the word counter and the DOCX/PDF extraction wrappers, with the
 * file parsing itself given as an oracle result.
 */
module DocumentProcessor {
  import opened Wrappers
  import opened PyStr

  const DefaultChunkSize := 1000
  const DefaultOverlap := 200

  /** `re.sub(r'\s+', ' ', s)`: every maximal run of whitespace becomes one space. */
  function Collapse(s: string): (r: string)
    ensures |r| <= |s|
    ensures r == [] <==> s == []
    ensures r != [] ==> (IsSpace(r[0]) <==> IsSpace(s[0]))
    ensures forall i :: 0 <= i < |r| && IsSpace(r[i]) ==> r[i] == ' '
    ensures forall i :: 0 <= i < |r| - 1 ==> !(IsSpace(r[i]) && IsSpace(r[i + 1]))
    ensures AllSpace(r) <==> AllSpace(s)
    decreases |s|
  {
    if s == [] then []
    else if IsSpace(s[0]) then
      var n := LeadingSpaces(s);
      var rest := Collapse(s[n..]);
      assert AllSpace(s) <==> n == |s|;
      assert AllSpace([' '] + rest) <==> rest == [] by {
        if rest != [] {
          assert ([' '] + rest)[1] == rest[0];
        }
      }
      [' '] + rest
    else
      [s[0]] + Collapse(s[1..])
  }

  /** The shape of normalised text: no outer whitespace, no whitespace but single spaces. */
  predicate Normalized(t: string)
  {
    && (t != [] ==> !IsSpace(t[0]) && !IsSpace(t[|t| - 1]))
    && (forall i :: 0 <= i < |t| && IsSpace(t[i]) ==> t[i] == ' ')
    && (forall i :: 0 <= i < |t| - 1 ==> !(IsSpace(t[i]) && IsSpace(t[i + 1])))
  }

  /** `re.sub(r'\s+', ' ', text).strip()` (utils.py:41). */
  function Normalize(text: string): string
  {
    Strip(Collapse(text))
  }

  /** Normalised text has the normalised shape, and is empty exactly when the input is all whitespace. */
  lemma NormalizeIsNormalized(text: string)
    ensures Normalized(Normalize(text))
    ensures Normalize(text) == [] <==> AllSpace(text)
  {
    var c := Collapse(text);
    var t := Strip(c);
    StripKeepsCore(c);
    var a := LeadingSpaces(c);
    forall i | 0 <= i < |t| && IsSpace(t[i])
      ensures t[i] == ' '
    {
      assert t[i] == c[a + i];
    }
    forall i | 0 <= i < |t| - 1
      ensures !(IsSpace(t[i]) && IsSpace(t[i + 1]))
    {
      assert t[i] == c[a + i] && t[i + 1] == c[a + i + 1];
    }
  }

  /** Collapsing whitespace keeps the words, in order, and whether the text starts with one. */
  lemma {:induction false} CollapseKeepsWords(s: string)
    ensures Split(Collapse(s)) == Split(s)
    ensures StartsWord(Collapse(s)) <==> StartsWord(s)
    decreases |s|
  {
    if s != [] {
      if IsSpace(s[0]) {
        var rest := s[LeadingSpaces(s)..];
        var r := Collapse(rest);
        assert Collapse(s) == [' '] + r;
        CollapseKeepsWords(rest);
        SplitSkipsSpace(' ', r);
        SplitSkipsLeadingSpaces(s);
      } else {
        var rest := s[1..];
        var r := Collapse(rest);
        assert Collapse(s) == [s[0]] + r;
        CollapseKeepsWords(rest);
        SplitCons(s[0], r, rest);
        SplitFront(s);
      }
    }
  }

  /** What follows a space inside normalised text is normalised. */
  lemma NormalizedSuffix(t: string, k: nat)
    requires Normalized(t) && 0 < k < |t| && !IsSpace(t[k])
    ensures Normalized(t[k..])
  {
    SliceKeepsSpacing(t, k, |t|);
    assert t[k..][|t| - k - 1] == t[|t| - 1];
  }

  /**
   * Normalised text that does not end with its first word continues with a
   * single space and more normalised text, which starts with the next word.
   */
  lemma NormalizedWordGap(t: string, n: nat)
    requires Normalized(t) && t != [] && n == WordLength(t) && n < |t|
    ensures n < |t| - 1 && t[n] == ' ' && t == t[..n] + (" " + t[n + 1..])
    ensures Normalized(t[n + 1..]) && StartsWord(t[n + 1..])
  {
    assert n < |t| - 1 && t[n] == ' ';
    NormalizedSuffix(t, n + 1);
    SplitAround(t, n);
    assert [t[n]] == " ";
  }

  /** Normalised text is its own words joined by single spaces. */
  lemma {:induction false} NormalizedIsJoinedWords(t: string)
    requires Normalized(t)
    ensures Join(Split(t), " ") == t
    decreases |t|
  {
    if t != [] {
      var n := WordLength(t);
      if n == |t| {
        SplitFirstWord(t);
        assert t[..n] == t && t[n..] == [];
      } else {
        NormalizedWordGap(t, n);
        SplitAfterGap(t, n);
        NormalizedIsJoinedWords(t[n + 1..]);
        JoinCons(t[..n], Split(t[n + 1..]), " ");
      }
    }
  }

  /**
   * `re.sub(r'\s+', ' ', text).strip()` is `' '.join(text.split())`: the
   * words of the text, in order, separated by single spaces.
   */
  lemma NormalizeJoinsWords(text: string)
    ensures Split(Normalize(text)) == Split(text)
    ensures Normalize(text) == Join(Split(text), " ")
  {
    var c := Collapse(text);
    CollapseKeepsWords(text);
    SplitIgnoresStrip(c);
    NormalizeIsNormalized(text);
    NormalizedIsJoinedWords(Normalize(text));
  }

  /**
   * Where the window starting at `start` ends (utils.py:50-55): at
   * `start + chunkSize`, except that a window reaching the end of the text is
   * pulled back to just after the text's last period when that period lies
   * strictly after `start`.
   */
  function WindowEnd(t: string, start: int, chunkSize: int): int
  {
    var edge := start + chunkSize;
    if edge >= |t| then
      var lastPeriod := RFind(t, '.', start, edge);
      if lastPeriod > start then lastPeriod + 1 else edge
    else edge
  }

  /** A period of `t` that the final window starting at `start` can be pulled back to. */
  predicate PeriodAfter(t: string, start: int, k: int)
  {
    Clamp(start, |t|) <= k < |t| && k > start && t[k] == '.'
  }

  /**
   * A window that does not reach the end of the text is cut at exactly
   * `start + chunkSize`. A window that does is cut just after the last period
   * of the text when that period lies strictly after `start`, and is left at
   * `start + chunkSize` otherwise.
   */
  lemma WindowEndCut(t: string, start: int, chunkSize: int)
    requires start >= 0
    ensures start + chunkSize < |t| ==> WindowEnd(t, start, chunkSize) == start + chunkSize
    ensures start + chunkSize >= |t| && (exists k :: PeriodAfter(t, start, k)) ==>
      var end := WindowEnd(t, start, chunkSize);
      start < end - 1 && 0 <= end - 1 < |t| && t[end - 1] == '.' && forall k :: end - 1 < k < |t| ==> t[k] != '.'
    ensures start + chunkSize >= |t| && (forall k :: !PeriodAfter(t, start, k)) ==>
      WindowEnd(t, start, chunkSize) == start + chunkSize
  {
    var edge := start + chunkSize;
    if edge >= |t| {
      var lastPeriod := RFind(t, '.', start, edge);
      RFindIsLast(t, '.', start, edge);
      if exists k :: PeriodAfter(t, start, k) {
        var k :| PeriodAfter(t, start, k);
        assert lastPeriod >= k;
      } else if lastPeriod != -1 {
        assert !PeriodAfter(t, start, lastPeriod);
      }
    }
  }

  /** The stripped slice a window yields (utils.py:57); it is kept only if non-empty. */
  function Piece(t: string, start: int, chunkSize: int): string
  {
    Strip(Slice(t, start, WindowEnd(t, start, chunkSize)))
  }

  /** What the window starting at `start` appends to the result: its piece, unless that is empty (utils.py:59-60). */
  function Emitted(t: string, start: int, chunkSize: int): seq<string>
  {
    var piece := Piece(t, start, chunkSize);
    if piece == [] then [] else [piece]
  }

  /**
   * The loop of utils.py:49-62 run from window start `start`, having
   * already visited the window starts `starts`, for at most `fuel` more
   * windows: all the window starts it visits, in order, once it exits;
   * `None` when it is still running. Each next start is the previous
   * window's end minus `overlap` (utils.py:62).
   */
  function Sweep(t: string, chunkSize: int, overlap: int, start: int, fuel: nat, starts: seq<int>): Option<seq<int>>
    decreases fuel
  {
    if start >= |t| then Some(starts)
    else if fuel == 0 then None
    else Sweep(t, chunkSize, overlap, WindowEnd(t, start, chunkSize) - overlap, fuel - 1, starts + [start])
  }

  /** One more window of the loop. */
  lemma SweepStep(t: string, chunkSize: int, overlap: int, start: int, fuel: nat, starts: seq<int>)
    requires start < |t| && fuel > 0
    ensures Sweep(t, chunkSize, overlap, start, fuel, starts)
         == Sweep(t, chunkSize, overlap, WindowEnd(t, start, chunkSize) - overlap, fuel - 1, starts + [start])
  {
  }

  /** The chunks that the windows starting at `starts` append, in order (utils.py:57-60). */
  function Pieces(t: string, chunkSize: int, starts: seq<int>): seq<string>
  {
    if starts == [] then []
    else Pieces(t, chunkSize, starts[..|starts| - 1]) + Emitted(t, starts[|starts| - 1], chunkSize)
  }

  /** Visiting one more window appends what that window emits. */
  lemma PiecesStep(t: string, chunkSize: int, starts: seq<int>, start: int)
    ensures Pieces(t, chunkSize, starts + [start]) == Pieces(t, chunkSize, starts) + Emitted(t, start, chunkSize)
  {
    assert (starts + [start])[..|starts|] == starts;
  }

  /** What `chunk_text(text, chunk_size, overlap)` returns, if it returns within `fuel` windows. */
  function Chunks(text: string, chunkSize: int, overlap: int, fuel: nat): Option<seq<string>>
  {
    var t := Normalize(text);
    if |t| <= chunkSize then Some([t])
    else match Sweep(t, chunkSize, overlap, 0, fuel, [])
      case None => None
      case Some(starts) => Some(Pieces(t, chunkSize, starts))
  }

  /**
   * One pass of the loop body (utils.py:50-62): the window's end, pulled
   * back to the last period when the window reaches the end of the text,
   * and the chunks with the window's stripped text appended unless empty.
   * The body follows the source statement by statement; its ensures tie it
   * to the specification functions `WindowEnd` and `Emitted`.
   */
  method NextWindow(t: string, chunkSize: int, start: int, chunks: seq<string>) returns (end: int, next: seq<string>)
    ensures end == WindowEnd(t, start, chunkSize) && next == chunks + Emitted(t, start, chunkSize)
  {
    end := start + chunkSize;
    if end >= |t| {
      var lastPeriod := RFind(t, '.', start, end);
      if lastPeriod > start {
        end := lastPeriod + 1;
      }
    }
    assert end == WindowEnd(t, start, chunkSize);
    var chunk := Strip(Slice(t, start, end));
    next := chunks;
    if chunk != [] {
      next := next + [chunk];
    } else {
      assert chunks + [] == chunks;
    }
  }

  /**
   * `DocumentProcessor.chunk_text` (utils.py:39-64). The source's `while`
   * loop has no bound; `fuel` caps the number of windows and `None` reports
   * that the loop had not exited after that many.
   */
  method ChunkText(text: string, chunkSize: int, overlap: int, fuel: nat) returns (r: Option<seq<string>>)
    ensures r == Chunks(text, chunkSize, overlap, fuel)
  {
    var t := Normalize(text);
    if |t| <= chunkSize {
      return Some([t]);
    }
    var chunks: seq<string> := [];
    var start := 0;
    var budget := fuel;
    ghost var visited: seq<int> := [];
    while start < |t|
      invariant Sweep(t, chunkSize, overlap, 0, fuel, []) == Sweep(t, chunkSize, overlap, start, budget, visited)
      invariant chunks == Pieces(t, chunkSize, visited)
      decreases budget
    {
      if budget == 0 {
        return None;
      }
      SweepStep(t, chunkSize, overlap, start, budget, visited);
      PiecesStep(t, chunkSize, visited, start);
      var end, next := NextWindow(t, chunkSize, start, chunks);
      assert Sweep(t, chunkSize, overlap, start, budget, visited)
          == Sweep(t, chunkSize, overlap, end - overlap, budget - 1, visited + [start]);
      start, chunks, budget, visited := end - overlap, next, budget - 1, visited + [start];
    }
    return Some(chunks);
  }

  /** The loop only ever appends: the window starts visited so far stay a prefix of what it returns. */
  lemma {:induction false} SweepKeepsPrefix(t: string, chunkSize: int, overlap: int, start: int, fuel: nat, starts: seq<int>)
    requires Sweep(t, chunkSize, overlap, start, fuel, starts).Some?
    ensures starts <= Sweep(t, chunkSize, overlap, start, fuel, starts).value
    decreases fuel
  {
    if start < |t| {
      var more := starts + [start];
      SweepKeepsPrefix(t, chunkSize, overlap, WindowEnd(t, start, chunkSize) - overlap, fuel - 1, more);
      assert starts <= more;
    }
  }

  /** More windows only add chunks at the end. */
  lemma {:induction false} PiecesKeepPrefix(t: string, chunkSize: int, starts: seq<int>, more: seq<int>)
    requires starts <= more
    ensures Pieces(t, chunkSize, starts) <= Pieces(t, chunkSize, more)
    decreases |more|
  {
    if |starts| < |more| {
      PiecesKeepPrefix(t, chunkSize, starts, more[..|more| - 1]);
    } else {
      assert starts == more;
    }
  }

  /** A chunk as the loop may emit it: non-empty, normalised, at most `chunkSize` long, a substring of `t`. */
  predicate WellFormedChunk(c: string, t: string, chunkSize: int)
  {
    c != [] && Normalized(c) && |c| <= chunkSize && IsInfix(c, t)
  }

  /** A window never spans more than `chunkSize` characters of the text. */
  lemma WindowWithinChunkSize(t: string, start: int, chunkSize: int)
    requires chunkSize >= 0
    ensures Clamp(WindowEnd(t, start, chunkSize), |t|) <= Clamp(start + chunkSize, |t|)
    ensures Clamp(start + chunkSize, |t|) - Clamp(start, |t|) <= chunkSize
  {
    var edge := start + chunkSize;
    var end := WindowEnd(t, start, chunkSize);
    if end != edge {
      RFindIsLast(t, '.', start, edge);
      assert Clamp(end, |t|) == end;
    }
    ClampSpread(start, edge, |t|);
  }

  /** Any slice of normalised text has only single spaces for whitespace. */
  lemma SliceKeepsSpacing(t: string, i: nat, j: nat)
    requires Normalized(t) && i <= j <= |t|
    ensures forall k :: 0 <= k < j - i && IsSpace(t[i..j][k]) ==> t[i..j][k] == ' '
    ensures forall k :: 0 <= k < j - i - 1 ==> !(IsSpace(t[i..j][k]) && IsSpace(t[i..j][k + 1]))
  {
    assert forall k :: 0 <= k < j - i ==> t[i..j][k] == t[i + k];
  }

  /** A stripped slice of normalised text is normalised, and occurs in the text. */
  lemma StrippedSliceNormalized(t: string, a: nat, b: nat)
    requires Normalized(t) && a <= b <= |t|
    ensures Normalized(Strip(t[a..b])) && IsInfix(Strip(t[a..b]), t)
  {
    var slice := t[a..b];
    var c := Strip(slice);
    StripKeepsCore(slice);
    var l := LeadingSpaces(slice);
    SliceOfSlice(t, a, b, l, l + |c|);
    SliceKeepsSpacing(t, a + l, a + l + |c|);
    assert OccursAt(c, t, a + l);
  }

  /** A non-empty piece of normalised text is a well-formed chunk. */
  lemma PieceWellFormed(t: string, start: int, chunkSize: int)
    requires Normalized(t) && chunkSize >= 0
    requires Piece(t, start, chunkSize) != []
    ensures WellFormedChunk(Piece(t, start, chunkSize), t, chunkSize)
  {
    var a, b := Clamp(start, |t|), Clamp(WindowEnd(t, start, chunkSize), |t|);
    var slice := Slice(t, start, WindowEnd(t, start, chunkSize));
    assert a < b;
    assert slice == t[a..b];
    WindowWithinChunkSize(t, start, chunkSize);
    StrippedSliceNormalized(t, a, b);
    StripKeepsCore(slice);
  }

  /** From normalised text, every window yields only well-formed chunks. */
  lemma {:induction false} PiecesWellFormed(t: string, chunkSize: int, starts: seq<int>)
    requires Normalized(t) && chunkSize >= 0
    ensures forall c :: c in Pieces(t, chunkSize, starts) ==> WellFormedChunk(c, t, chunkSize)
    decreases |starts|
  {
    if starts != [] {
      var last := starts[|starts| - 1];
      PiecesWellFormed(t, chunkSize, starts[..|starts| - 1]);
      if Piece(t, last, chunkSize) != [] {
        PieceWellFormed(t, last, chunkSize);
      }
    }
  }

  /** The first window of long normalised text is cut at exactly `chunkSize` and yields a chunk. */
  lemma FirstWindow(t: string, chunkSize: int)
    requires Normalized(t) && 1 <= chunkSize < |t|
    ensures WindowEnd(t, 0, chunkSize) == chunkSize
    ensures Emitted(t, 0, chunkSize) == [Strip(t[..chunkSize])]
  {
    assert Slice(t, 0, chunkSize) == t[..chunkSize];
    StripKeepsCore(t[..chunkSize]);
    assert !IsSpace(t[..chunkSize][0]);
  }

  /** The loop run on long normalised text: its first chunk is the first window, and all its chunks are well formed. */
  lemma LongTextChunks(t: string, chunkSize: int, overlap: int, fuel: nat)
    requires Normalized(t) && 1 <= chunkSize < |t|
    requires Sweep(t, chunkSize, overlap, 0, fuel, []).Some?
    ensures var r := Pieces(t, chunkSize, Sweep(t, chunkSize, overlap, 0, fuel, []).value);
      && r != [] && r[0] == Strip(t[..chunkSize])
      && forall c :: c in r ==> WellFormedChunk(c, t, chunkSize)
  {
    var starts := Sweep(t, chunkSize, overlap, 0, fuel, []).value;
    FirstWindow(t, chunkSize);
    SweepStep(t, chunkSize, overlap, 0, fuel, []);
    assert [] + [0] == [0];
    SweepKeepsPrefix(t, chunkSize, overlap, chunkSize - overlap, fuel - 1, [0]);
    PiecesStep(t, chunkSize, [], 0);
    assert [] + [0] == [0];
    PiecesKeepPrefix(t, chunkSize, [0], starts);
    PiecesWellFormed(t, chunkSize, starts);
  }

  /**
   * Normalised text that fits in one window comes back as that single chunk
   * (empty or all-whitespace input included, as `[""]`); longer text comes
   * back as non-empty, normalised substrings of at most `chunkSize`
   * characters, the first of which is the first window cut at exactly
   * `chunkSize`.
   */
  lemma ChunksWellFormed(text: string, chunkSize: int, overlap: int, fuel: nat)
    requires chunkSize >= 1
    requires Chunks(text, chunkSize, overlap, fuel).Some?
    ensures var t, r := Normalize(text), Chunks(text, chunkSize, overlap, fuel).value;
      && (|t| <= chunkSize ==> r == [t])
      && (|t| > chunkSize ==> r != [] && r[0] == Strip(t[..chunkSize])
                                && forall c :: c in r ==> WellFormedChunk(c, t, chunkSize))
  {
    var t := Normalize(text);
    if |t| > chunkSize {
      NormalizeIsNormalized(text);
      LongTextChunks(t, chunkSize, overlap, fuel);
    }
  }

  /** Whitespace-only input (the empty string included) yields the single chunk `""`. */
  lemma BlankTextIsOneEmptyChunk(text: string, chunkSize: int, overlap: int, fuel: nat)
    requires AllSpace(text) && chunkSize >= 0
    ensures Chunks(text, chunkSize, overlap, fuel) == Some([""])
  {
    NormalizeIsNormalized(text);
  }

  /** When the text ends in a period, a window starting before it that reaches the end is cut exactly at the end. */
  lemma FinalWindowEndsAtPeriod(t: string, start: int, chunkSize: int)
    requires |t| > 0 && t[|t| - 1] == '.'
    requires 0 <= start < |t| - 1
    ensures start + chunkSize >= |t| ==> WindowEnd(t, start, chunkSize) == |t|
  {
    if start + chunkSize >= |t| {
      RFindIsLast(t, '.', start, start + chunkSize);
    }
  }

  /**
   * Non-termination of `chunk_text` as written: for text whose last
   * character is a period, with `1 < overlap < chunkSize`, every window
   * start in `[0, |t| - overlap]` leads to the final window
   * `[|t| - overlap, |t|)`, which is pulled back to the same period and so
   * starts again at `|t| - overlap`: the loop exits for no fuel.
   */
  lemma {:induction false} StuckOnFinalPeriod(t: string, chunkSize: int, overlap: int, start: int, fuel: nat, starts: seq<int>)
    requires 1 < overlap < chunkSize
    requires |t| > 0 && t[|t| - 1] == '.'
    requires 0 <= start <= |t| - overlap
    ensures Sweep(t, chunkSize, overlap, start, fuel, starts) == None
    decreases fuel
  {
    if fuel > 0 {
      FinalWindowEndsAtPeriod(t, start, chunkSize);
      StuckOnFinalPeriod(t, chunkSize, overlap, WindowEnd(t, start, chunkSize) - overlap, fuel - 1, starts + [start]);
    }
  }

  /** `chunk_text` does not return on text whose normalised form is longer than `chunkSize` and ends in '.'. */
  lemma ChunkTextDiverges(text: string, chunkSize: int, overlap: int, fuel: nat)
    requires 1 < overlap < chunkSize < |Normalize(text)|
    requires Normalize(text)[|Normalize(text)| - 1] == '.'
    ensures Chunks(text, chunkSize, overlap, fuel) == None
  {
    StuckOnFinalPeriod(Normalize(text), chunkSize, overlap, 0, fuel, []);
  }

  /** The same with the defaults the ingestion task uses (1000 and 200). */
  lemma DefaultChunkTextDiverges(text: string, fuel: nat)
    requires |Normalize(text)| > DefaultChunkSize
    requires Normalize(text)[|Normalize(text)| - 1] == '.'
    ensures Chunks(text, DefaultChunkSize, DefaultOverlap, fuel) == None
  {
    ChunkTextDiverges(text, DefaultChunkSize, DefaultOverlap, fuel);
  }

  /** In text without a period every window ends at exactly `start + chunkSize`. */
  lemma NoPeriodNoPullBack(t: string, start: int, chunkSize: int)
    requires start >= 0
    requires forall k :: 0 <= k < |t| ==> t[k] != '.'
    ensures WindowEnd(t, start, chunkSize) == start + chunkSize
  {
    RFindIsLast(t, '.', start, start + chunkSize);
  }

  /**
   * When no window is pulled back to a period, each window starts
   * `chunkSize - overlap` after the previous one, so with
   * `0 <= overlap < chunkSize` the loop exits within `|t| - start` windows.
   */
  lemma {:induction false} FinishesWithoutPullBack(t: string, chunkSize: int, overlap: int, start: int, fuel: nat, starts: seq<int>)
    requires 0 <= overlap < chunkSize
    requires forall s :: 0 <= s ==> WindowEnd(t, s, chunkSize) == s + chunkSize
    requires 0 <= start && |t| - start <= fuel
    ensures Sweep(t, chunkSize, overlap, start, fuel, starts).Some?
    decreases fuel
  {
    if start < |t| {
      var next, rest := start + chunkSize - overlap, fuel - 1;
      assert WindowEnd(t, start, chunkSize) - overlap == next;
      SweepStep(t, chunkSize, overlap, start, fuel, starts);
      FinishesWithoutPullBack(t, chunkSize, overlap, next, rest, starts + [start]);
    }
  }

  lemma ChunkTextTerminatesWithoutPeriod(text: string, chunkSize: int, overlap: int, fuel: nat)
    requires 0 <= overlap < chunkSize
    requires forall k :: 0 <= k < |Normalize(text)| ==> Normalize(text)[k] != '.'
    requires |Normalize(text)| <= fuel
    ensures Chunks(text, chunkSize, overlap, fuel).Some?
  {
    var t := Normalize(text);
    forall s | 0 <= s
      ensures WindowEnd(t, s, chunkSize) == s + chunkSize
    {
      NoPeriodNoPullBack(t, s, chunkSize);
    }
    FinishesWithoutPullBack(t, chunkSize, overlap, 0, fuel, []);
  }

  /** The fuel bound only decides whether the loop is seen to exit, never what it returns. */
  lemma {:induction false} SweepFuelIrrelevant(t: string, chunkSize: int, overlap: int, start: int, fuel: nat, more: nat, starts: seq<int>)
    requires Sweep(t, chunkSize, overlap, start, fuel, starts).Some? && fuel <= more
    ensures Sweep(t, chunkSize, overlap, start, more, starts) == Sweep(t, chunkSize, overlap, start, fuel, starts)
    decreases fuel
  {
    if start < |t| {
      SweepFuelIrrelevant(t, chunkSize, overlap, WindowEnd(t, start, chunkSize) - overlap, fuel - 1, more - 1, starts + [start]);
    }
  }

  lemma ChunksFuelIrrelevant(text: string, chunkSize: int, overlap: int, fuel: nat, more: nat)
    requires Chunks(text, chunkSize, overlap, fuel).Some? && fuel <= more
    ensures Chunks(text, chunkSize, overlap, more) == Chunks(text, chunkSize, overlap, fuel)
  {
    if |Normalize(text)| > chunkSize {
      SweepFuelIrrelevant(Normalize(text), chunkSize, overlap, 0, fuel, more, []);
    }
  }

  /** Number of word starts: non-whitespace characters at the front or after whitespace. */
  function WordStarts(s: string, afterSpace: bool): nat
  {
    if s == [] then 0
    else (if afterSpace && !IsSpace(s[0]) then 1 else 0) + WordStarts(s[1..], IsSpace(s[0]))
  }

  /**
   * `DocumentProcessor.count_words` (utils.py:67-69), counted by word
   * starts; `CountWordsCountsRuns` shows it is `len(text.split())`.
   */
  function CountWords(text: string): nat
  {
    WordStarts(text, true)
  }

  lemma {:induction false} WordStartsSkipSpaces(s: string)
    ensures WordStarts(s, true) == WordStarts(s[LeadingSpaces(s)..], true)
    decreases |s|
  {
    if s != [] && IsSpace(s[0]) {
      WordStartsSkipSpaces(s[1..]);
      assert s[1..][LeadingSpaces(s[1..])..] == s[LeadingSpaces(s)..];
    }
  }

  lemma {:induction false} WordStartsInsideWord(s: string)
    ensures WordStarts(s, false) == WordStarts(s[WordLength(s)..], true)
    decreases |s|
  {
    if s != [] && !IsSpace(s[0]) {
      WordStartsInsideWord(s[1..]);
      assert s[1..][WordLength(s[1..])..] == s[WordLength(s)..];
    }
  }

  /** The word count is `len(text.split())`, the number of maximal runs of non-whitespace characters. */
  lemma {:induction false} CountWordsCountsRuns(text: string)
    ensures CountWords(text) == |Split(text)|
    decreases |text|
  {
    var a := LeadingSpaces(text);
    WordStartsSkipSpaces(text);
    if a < |text| {
      var t := text[a..];
      var n := WordLength(t);
      WordStartsInsideWord(t[1..]);
      assert t[1..][WordLength(t[1..])..] == t[n..];
      CountWordsCountsRuns(t[n..]);
    }
  }

  /** The word count is zero exactly for empty or whitespace-only text. */
  lemma CountWordsZero(text: string)
    ensures CountWords(text) == 0 <==> AllSpace(text)
  {
    CountWordsCountsRuns(text);
  }

  /** `max(1, len(paragraphs) // 20)` (utils.py:33-34): twenty paragraphs a page, never fewer than one page. */
  function DocxPageCount(paragraphCount: nat): (pages: nat)
    ensures pages >= 1
    ensures paragraphCount >= 20 ==> 20 * pages <= paragraphCount < 20 * (pages + 1)
    ensures paragraphCount < 40 ==> pages == 1
  {
    var estimate := paragraphCount / 20;
    if estimate < 1 then 1 else estimate
  }

  /** `[p for p in paragraphs if p]`. */
  function NonEmpty(paragraphs: seq<string>): (r: seq<string>)
    ensures |r| <= |paragraphs|
    ensures forall p :: p in r ==> p != [] && p in paragraphs
    ensures forall p :: p in paragraphs && p != [] ==> p in r
  {
    if paragraphs == [] then []
    else (if paragraphs[0] == [] then [] else [paragraphs[0]]) + NonEmpty(paragraphs[1..])
  }

  /** The filter of a concatenation is the concatenation of the filters. */
  lemma {:induction false} NonEmptyDistributes(a: seq<string>, b: seq<string>)
    ensures NonEmpty(a + b) == NonEmpty(a) + NonEmpty(b)
  {
    if a == [] {
      assert a + b == b;
    } else {
      var h := if a[0] == [] then [] else [a[0]];
      var ab := a + b;
      calc {
        NonEmpty(ab);
        { assert ab[0] == a[0] && ab[1..] == a[1..] + b; }
        h + NonEmpty(a[1..] + b);
        { NonEmptyDistributes(a[1..], b); }
        h + (NonEmpty(a[1..]) + NonEmpty(b));
        (h + NonEmpty(a[1..])) + NonEmpty(b);
        NonEmpty(a) + NonEmpty(b);
      }
    }
  }

  /**
   * The filter works paragraph by paragraph and keeps the order: a single
   * paragraph is kept exactly when it is non-empty, and the filter of a
   * concatenation is the concatenation of the filters. Together these fix
   * the result, with order and repetitions, for every list.
   */
  lemma NonEmptyKeepsOrder(a: seq<string>, b: seq<string>, p: string)
    ensures NonEmpty([p]) == if p == [] then [] else [p]
    ensures NonEmpty(a + b) == NonEmpty(a) + NonEmpty(b)
  {
    assert [p][1..] == [];
    NonEmptyDistributes(a, b);
  }

  /**
   * `extract_text_from_docx` (utils.py:27-36), with the file opened and
   * parsed by the caller: `paragraphs` is the document's paragraph list, or
   * the message of the exception raised while reading it.
   */
  function ExtractDocx(paragraphs: Result<seq<string>>): (r: Result<(string, int)>)
    ensures paragraphs.Failure? ==> r == Failure("Error extracting text from DOCX: " + paragraphs.error)
    ensures paragraphs.Success? ==> r.Success? && r.value.1 >= 1
    ensures paragraphs.Success? ==> r.value.1 == DocxPageCount(|paragraphs.value|)
    ensures paragraphs.Success? ==> r.value.0 == Join(NonEmpty(paragraphs.value), "\n\n")
  {
    match paragraphs
    case Failure(e) => Failure("Error extracting text from DOCX: " + e)
    case Success(ps) => Success((Join(NonEmpty(ps), "\n\n"), DocxPageCount(|ps|)))
  }

  const PdfReaderNameError := "name 'PdfReader' is not defined"

  /**
   * `extract_text_from_pdf` (utils.py:10-24) as written: `pages` is the
   * outcome of opening and reading the file with PyPDF2 (line 15). Once that
   * succeeds, the bare `PdfReader(file)` call on line 16 raises `NameError`,
   * so the function never returns text.
   */
  function ExtractPdf(pages: Result<seq<string>>): (r: Result<(string, int)>)
    ensures r.Failure?
    ensures pages.Failure? ==> r.error == "Error extracting text from PDF: " + pages.error
    ensures pages.Success? ==> r.error == "Error extracting text from PDF: " + PdfReaderNameError
  {
    var message := if pages.Failure? then pages.error else PdfReaderNameError;
    Failure("Error extracting text from PDF: " + message)
  }
}
