/**
 * `splitIntoChunks(text, maxChunkSize)`: cut a text into sentence pieces and
 * pack consecutive pieces greedily into trimmed chunks of bounded size.
 */
module SplitIntoChunks {
  import opened Text

  // ---------------------------------------------------------------------------
  // Cutting the text: `text.split(/(?<=\.)|\n/)`
  // ---------------------------------------------------------------------------

  /**
   * The ECMAScript split loop for the pattern `(?<=\.)|\n`, run from the end
   * `p` of the last cut with the scan at `q`. The first alternative matches
   * the empty string right after a '.', and it is tried first, so a '\n'
   * that directly follows a '.' is not consumed: it begins the next piece.
   * An empty match at the end of the previous cut (`q == p`) is skipped.
   */
  function SplitFrom(s: string, p: nat, q: nat): (pieces: seq<string>)
    requires p <= q <= |s|
    ensures |pieces| >= 1
    decreases |s| - q, q - p
  {
    if q == |s| then [s[p..]]
    else if q > 0 && s[q - 1] == '.' then
      if q == p then SplitFrom(s, p, q + 1) else [s[p..q]] + SplitFrom(s, q, q)
    else if s[q] == '\n' then [s[p..q]] + SplitFrom(s, q + 1, q + 1)
    else SplitFrom(s, p, q + 1)
  }

  /** The sentence pieces of `text`; the empty text gives the single piece "". */
  function SplitSentences(text: string): (pieces: seq<string>)
    ensures |pieces| >= 1
  {
    SplitFrom(text, 0, 0)
  }

  predicate EndsWithPeriod(x: string) {
    |x| > 0 && x[|x| - 1] == '.'
  }

  /**
   * Puts the pieces back together: a piece that ends with '.' was cut after
   * its period and is followed directly by the next piece; any other cut
   * consumed a '\n', which is put back.
   */
  function Rejoin(pieces: seq<string>): string {
    if |pieces| == 0 then []
    else if |pieces| == 1 then pieces[0]
    else pieces[0] + (if EndsWithPeriod(pieces[0]) then [] else ['\n']) + Rejoin(pieces[1..])
  }

  lemma {:induction false} RejoinSplitFrom(s: string, p: nat, q: nat)
    requires p <= q <= |s|
    ensures Rejoin(SplitFrom(s, p, q)) == s[p..]
    decreases |s| - q, q - p
  {
    if q == |s| {
      assert SplitFrom(s, p, q) == [s[p..]];
    } else if q > 0 && s[q - 1] == '.' {
      if q == p {
        RejoinSplitFrom(s, p, q + 1);
      } else {
        RejoinSplitFrom(s, q, q);
        assert SplitFrom(s, p, q) == [s[p..q]] + SplitFrom(s, q, q);
        RejoinCut(s, p, q, q);
      }
    } else if s[q] == '\n' {
      RejoinSplitFrom(s, q + 1, q + 1);
      assert SplitFrom(s, p, q) == [s[p..q]] + SplitFrom(s, q + 1, q + 1);
      RejoinCut(s, p, q, q + 1);
    } else {
      RejoinSplitFrom(s, p, q + 1);
    }
  }

  /** One cut of the scan: after a period nothing is consumed, at a newline the newline is. */
  lemma RejoinCut(s: string, p: nat, q: nat, r: nat)
    requires p <= q <= r <= |s|
    requires (r == q && EndsWithPeriod(s[p..q])) || (r == q + 1 && s[q] == '\n' && !EndsWithPeriod(s[p..q]))
    requires Rejoin(SplitFrom(s, r, r)) == s[r..]
    requires SplitFrom(s, p, q) == [s[p..q]] + SplitFrom(s, r, r)
    ensures Rejoin(SplitFrom(s, p, q)) == s[p..]
  {
    RejoinCons(s[p..q], SplitFrom(s, r, r));
    if r == q {
      assert s[p..] == s[p..q] + s[q..];
    } else {
      assert s[p..] == s[p..q] + ['\n'] + s[q + 1..];
    }
  }

  lemma RejoinCons(x: string, rest: seq<string>)
    requires |rest| > 0
    ensures Rejoin([x] + rest) == x + (if EndsWithPeriod(x) then [] else ['\n']) + Rejoin(rest)
  {
    assert ([x] + rest)[0] == x;
    assert ([x] + rest)[1..] == rest;
  }

  /** Splitting loses nothing: the text is its pieces with the consumed newlines put back. */
  lemma SplitRoundTrip(text: string)
    ensures Rejoin(SplitSentences(text)) == text
  {
    RejoinSplitFrom(text, 0, 0);
  }

  /**
   * The shape of a piece: a '.' can only be its last character, and a '\n'
   * only its first (the newline that follows a period).
   */
  predicate PieceShape(x: string) {
    (forall i :: 0 <= i < |x| - 1 ==> x[i] != '.') && (forall i :: 0 < i < |x| ==> x[i] != '\n')
  }

  /** The positions `p..q-1` were scanned without finding a cut. */
  predicate Scanned(s: string, p: nat, q: nat) {
    p <= q <= |s|
    && (forall j :: p <= j < q - 1 ==> s[j] != '.')
    && (forall k :: p <= k < q ==> s[k] != '\n' || (k == p && p > 0 && s[p - 1] == '.'))
  }

  lemma {:induction false} SplitFromShape(s: string, p: nat, q: nat)
    requires Scanned(s, p, q)
    ensures forall i :: 0 <= i < |SplitFrom(s, p, q)| ==> PieceShape(SplitFrom(s, p, q)[i])
    decreases |s| - q, q - p
  {
    var pieces := SplitFrom(s, p, q);
    if q == |s| {
      assert PieceShape(s[p..]);
    } else if q > 0 && s[q - 1] == '.' {
      if q == p {
        SplitFromShape(s, p, q + 1);
      } else {
        SplitFromShape(s, q, q);
        assert PieceShape(s[p..q]);
        assert pieces == [s[p..q]] + SplitFrom(s, q, q);
      }
    } else if s[q] == '\n' {
      SplitFromShape(s, q + 1, q + 1);
      assert PieceShape(s[p..q]);
      assert pieces == [s[p..q]] + SplitFrom(s, q + 1, q + 1);
    } else {
      SplitFromShape(s, p, q + 1);
    }
  }

  /** Every '.' ends its piece, and a piece holds a '\n' at most at its start. */
  lemma PiecesShape(text: string)
    ensures forall i :: 0 <= i < |SplitSentences(text)| ==> PieceShape(SplitSentences(text)[i])
  {
    SplitFromShape(text, 0, 0);
  }

  /**
   * How the two kinds of cut show in the pieces after the first: a piece cut
   * after a period is followed by a non-empty piece (the scan never cuts at
   * the end of the text), and a piece can start with '\n' only when the
   * piece before it ends with the period the newline followed.
   */
  predicate CutsAfterFirst(pieces: seq<string>) {
    forall i :: 0 < i < |pieces| ==> CutOk(pieces[i - 1], pieces[i])
  }

  /** How two neighbouring pieces meet at the cut between them. */
  predicate CutOk(prev: string, next: string) {
    (EndsWithPeriod(prev) ==> |next| > 0) && (|next| > 0 && next[0] == '\n' ==> EndsWithPeriod(prev))
  }

  /** Adding a piece in front keeps the shape, given how it meets the next piece. */
  lemma CutsCons(x: string, rest: seq<string>)
    requires |rest| > 0 && CutsAfterFirst(rest) && CutOk(x, rest[0])
    ensures CutsAfterFirst([x] + rest)
  {
    var pieces := [x] + rest;
    forall i | 0 < i < |pieces|
      ensures CutOk(pieces[i - 1], pieces[i])
    {
      if i > 1 {
        assert pieces[i - 1] == rest[i - 2] && pieces[i] == rest[i - 1];
      }
    }
  }

  /** The first piece of a scan from `p` starts with '\n' only after a period, and is not empty there. */
  lemma {:induction false} SplitFromFirst(s: string, p: nat, q: nat)
    requires Scanned(s, p, q)
    ensures var first := SplitFrom(s, p, q)[0];
      && (|first| > 0 && first[0] == '\n' ==> p > 0 && s[p - 1] == '.')
      && (p > 0 && s[p - 1] == '.' && p < |s| ==> |first| > 0)
    decreases |s| - q, q - p
  {
    if q == |s| {
      assert SplitFrom(s, p, q)[0] == s[p..];
    } else if q > 0 && s[q - 1] == '.' {
      if q == p {
        SplitFromFirst(s, p, q + 1);
      } else {
        assert SplitFrom(s, p, q)[0] == s[p..q];
      }
    } else if s[q] == '\n' {
      assert SplitFrom(s, p, q)[0] == s[p..q];
    } else {
      SplitFromFirst(s, p, q + 1);
    }
  }

  lemma {:induction false} SplitFromCuts(s: string, p: nat, q: nat)
    requires p <= q <= |s|
    ensures CutsAfterFirst(SplitFrom(s, p, q))
    decreases |s| - q, q - p
  {
    if q == |s| {
    } else if (q > 0 && s[q - 1] == '.' && q != p) || (!(q > 0 && s[q - 1] == '.') && s[q] == '\n') {
      var r := if q > 0 && s[q - 1] == '.' then q else q + 1;
      SplitFromCuts(s, r, r);
      CutAt(s, p, q, r);
    } else {
      SplitFromCuts(s, p, q + 1);
    }
  }

  /** A cut at `q`, the scan resuming at `r`: the first piece `s[p..q]` meets the pieces of the rest as `CutsAfterFirst` needs. */
  lemma CutAt(s: string, p: nat, q: nat, r: nat)
    requires p <= q < |s|
    requires (q > 0 && s[q - 1] == '.' && q != p && r == q) || (!(q > 0 && s[q - 1] == '.') && s[q] == '\n' && r == q + 1)
    requires CutsAfterFirst(SplitFrom(s, r, r))
    ensures CutsAfterFirst(SplitFrom(s, p, q))
  {
    var rest := SplitFrom(s, r, r);
    assert CutOk(s[p..q], rest[0]) by {
      SplitFromFirst(s, r, r);
    }
    assert SplitFrom(s, p, q) == [s[p..q]] + rest;
    CutsCons(s[p..q], rest);
  }

  /**
   * The newline a piece may start with is the one that follows a period: the
   * first piece never starts with '\n', any later piece that does comes
   * right after a piece ending in '.', and the piece after a '.'-ended piece
   * is never empty.
   */
  lemma PiecesAfterPeriod(text: string)
    ensures var pieces := SplitSentences(text);
      && (|pieces[0]| > 0 ==> pieces[0][0] != '\n')
      && (forall i :: 0 < i < |pieces| && |pieces[i]| > 0 && pieces[i][0] == '\n' ==> EndsWithPeriod(pieces[i - 1]))
      && (forall i :: 0 < i < |pieces| && EndsWithPeriod(pieces[i - 1]) ==> |pieces[i]| > 0)
  {
    var pieces := SplitSentences(text);
    SplitFromCuts(text, 0, 0);
    SplitFromFirst(text, 0, 0);
    forall i | 0 < i < |pieces|
      ensures CutOk(pieces[i - 1], pieces[i])
    {
    }
  }

  // ---------------------------------------------------------------------------
  // Packing the pieces: the `for` loop over the sentences
  // ---------------------------------------------------------------------------

  /**
   * The state of the packing loop as runs of consecutive pieces: the runs
   * already pushed as chunks and the run that makes up `currentChunk`.
   */
  datatype Packing = Packing(closed: seq<seq<string>>, current: seq<string>)
  {
    function Runs(): seq<seq<string>> {
      closed + [current]
    }
  }

  /** One iteration: push the current chunk when the piece would overflow it, then add the piece. */
  function PackStep(pk: Packing, piece: string, maxChunkSize: int): (next: Packing)
    ensures next.closed == pk.closed || next.closed == pk.closed + [pk.current]
    ensures |next.current| > 0 && next.current[|next.current| - 1] == piece
  {
    if |Concat(pk.current)| + |piece| > maxChunkSize then Packing(pk.closed + [pk.current], [piece])
    else Packing(pk.closed, pk.current + [piece])
  }

  /** The packing after the loop has consumed `pieces`. */
  function Pack(pieces: seq<string>, maxChunkSize: int): (pk: Packing)
    ensures |pk.closed| <= |pieces|
    ensures |pieces| > 0 ==> |pk.current| > 0 && pk.current[|pk.current| - 1] == pieces[|pieces| - 1]
  {
    if |pieces| == 0 then Packing([], [])
    else PackStep(Pack(pieces[..|pieces| - 1], maxChunkSize), pieces[|pieces| - 1], maxChunkSize)
  }

  /** The runs laid end to end. */
  function Flatten(runs: seq<seq<string>>): seq<string> {
    if |runs| == 0 then [] else Flatten(runs[..|runs| - 1]) + runs[|runs| - 1]
  }

  /** The chunks the loop has pushed: each closed run, concatenated and trimmed. */
  function TrimmedRuns(runs: seq<seq<string>>): seq<string> {
    seq(|runs|, i requires 0 <= i < |runs| => Trim(Concat(runs[i])))
  }

  lemma TrimmedRunsPush(runs: seq<seq<string>>, run: seq<string>)
    ensures TrimmedRuns(runs + [run]) == TrimmedRuns(runs) + [Trim(Concat(run))]
  {
    var a, b := TrimmedRuns(runs + [run]), TrimmedRuns(runs) + [Trim(Concat(run))];
    assert |a| == |b|;
    forall i | 0 <= i < |a|
      ensures a[i] == b[i]
    {
      if i < |runs| {
        assert (runs + [run])[i] == runs[i];
        assert a[i] == Trim(Concat(runs[i]));
        assert b[i] == TrimmedRuns(runs)[i];
      } else {
        assert (runs + [run])[i] == run;
      }
    }
  }

  /** What the function returns for a packing: the pushed chunks, then the last one unless it trims to "". */
  function Emitted(pk: Packing): (chunks: seq<string>)
    ensures |pk.closed| <= |chunks| <= |pk.closed| + 1
    ensures chunks[..|pk.closed|] == TrimmedRuns(pk.closed)
  {
    TrimmedRuns(pk.closed) + (if Trim(Concat(pk.current)) != [] then [Trim(Concat(pk.current))] else [])
  }

  /** The result of `splitIntoChunks(text, maxChunkSize)`. */
  function ChunksOf(text: string, maxChunkSize: int): (chunks: seq<string>)
    ensures |chunks| <= |SplitSentences(text)| + 1
  {
    Emitted(Pack(SplitSentences(text), maxChunkSize))
  }

  // ---------------------------------------------------------------------------
  // What the packing guarantees
  // ---------------------------------------------------------------------------

  /** The untrimmed text of each run: the value `currentChunk` had when the run ended. */
  function RunTexts(runs: seq<seq<string>>): seq<string> {
    seq(|runs|, i requires 0 <= i < |runs| => Concat(runs[i]))
  }

  /** Adding the `k`-th piece of `run` kept the chunk within the limit. */
  predicate FitsAt(run: seq<string>, k: nat, maxChunkSize: int)
    requires k < |run|
  {
    |Concat(run[..k])| + |run[k]| <= maxChunkSize
  }

  /**
   * Greedy packing: every piece added to a chunk fitted (for the first run,
   * its first piece fitted into the empty chunk too), and every later run
   * starts with a piece that did not fit into the run before it.
   */
  predicate Greedy(runs: seq<seq<string>>, maxChunkSize: int) {
    (forall i, k :: 0 <= i < |runs| && 0 < k < |runs[i]| ==> FitsAt(runs[i], k, maxChunkSize))
    && (|runs| > 0 && |runs[0]| > 0 ==> FitsAt(runs[0], 0, maxChunkSize))
    && (forall i :: 0 < i < |runs| ==> |runs[i]| > 0 && |Concat(runs[i - 1])| + |runs[i][0]| > maxChunkSize)
  }

  /** No piece is split, dropped or reordered: the runs laid end to end are the pieces. */
  lemma {:induction false} PackCovers(pieces: seq<string>, maxChunkSize: int)
    ensures Flatten(Pack(pieces, maxChunkSize).Runs()) == pieces
  {
    if |pieces| > 0 {
      PackCovers(pieces[..|pieces| - 1], maxChunkSize);
      PackCoversStep(pieces, maxChunkSize);
    }
  }

  /** The step of `PackCovers`: covering all but the last piece, the last step covers them all. */
  lemma PackCoversStep(pieces: seq<string>, maxChunkSize: int)
    requires |pieces| > 0
    requires Flatten(Pack(pieces[..|pieces| - 1], maxChunkSize).Runs()) == pieces[..|pieces| - 1]
    ensures Flatten(Pack(pieces, maxChunkSize).Runs()) == pieces
  {
    var n := |pieces| - 1;
    PackStepCovers(Pack(pieces[..n], maxChunkSize), pieces[n], maxChunkSize);
    InitLast(pieces);
  }

  /** A non-empty sequence is its prefix followed by its last element. */
  lemma InitLast(xs: seq<string>)
    requires |xs| > 0
    ensures xs[..|xs| - 1] + [xs[|xs| - 1]] == xs
  {
  }

  /** One step of the packing adds its piece at the end of the last run, or as a run of its own. */
  lemma PackStepCovers(pk: Packing, p: string, maxChunkSize: int)
    ensures Flatten(PackStep(pk, p, maxChunkSize).Runs()) == Flatten(pk.Runs()) + [p]
  {
    FlattenPush(pk.closed, pk.current);
    if |Concat(pk.current)| + |p| > maxChunkSize {
      FlattenPush(pk.Runs(), [p]);
      assert PackStep(pk, p, maxChunkSize).Runs() == pk.Runs() + [[p]];
    } else {
      FlattenPush(pk.closed, pk.current + [p]);
      assert PackStep(pk, p, maxChunkSize).Runs() == pk.closed + [pk.current + [p]];
    }
  }

  lemma FlattenPush(runs: seq<seq<string>>, run: seq<string>)
    ensures Flatten(runs + [run]) == Flatten(runs) + run
  {
    assert (runs + [run])[..|runs|] == runs;
  }

  /** A new chunk is started exactly when the next piece would push the chunk past the limit. */
  lemma {:induction false} PackGreedy(pieces: seq<string>, maxChunkSize: int)
    ensures Greedy(Pack(pieces, maxChunkSize).Runs(), maxChunkSize)
  {
    if |pieces| > 0 {
      var init := pieces[..|pieces| - 1];
      PackGreedy(init, maxChunkSize);
      var pk := Pack(init, maxChunkSize);
      var p := pieces[|pieces| - 1];
      if |Concat(pk.current)| + |p| > maxChunkSize {
        assert Pack(pieces, maxChunkSize).Runs() == pk.Runs() + [[p]];
        GreedyStartRun(pk.Runs(), p, maxChunkSize);
      } else {
        assert Pack(pieces, maxChunkSize).Runs() == pk.closed + [pk.current + [p]];
        GreedyExtendRun(pk.closed, pk.current, p, maxChunkSize);
      }
    }
  }

  /** A piece that does not fit starts a new run, and the packing stays greedy. */
  lemma GreedyStartRun(runs: seq<seq<string>>, p: string, maxChunkSize: int)
    requires Greedy(runs, maxChunkSize) && |runs| > 0
    requires |Concat(runs[|runs| - 1])| + |p| > maxChunkSize
    ensures Greedy(runs + [[p]], maxChunkSize)
  {
    var runs' := runs + [[p]];
    forall i, k | 0 <= i < |runs'| && 0 < k < |runs'[i]|
      ensures FitsAt(runs'[i], k, maxChunkSize)
    {
      assert runs'[i] == runs[i];
    }
    assert runs'[0] == runs[0];
    forall i | 0 < i < |runs'|
      ensures |runs'[i]| > 0 && |Concat(runs'[i - 1])| + |runs'[i][0]| > maxChunkSize
    {
      assert runs'[i - 1] == runs[i - 1];
      if i < |runs| {
        assert runs'[i] == runs[i];
      }
    }
  }

  /** A piece that fits joins the last run, and the packing stays greedy. */
  lemma GreedyExtendRun(closed: seq<seq<string>>, current: seq<string>, p: string, maxChunkSize: int)
    requires Greedy(closed + [current], maxChunkSize)
    requires |Concat(current)| + |p| <= maxChunkSize
    ensures Greedy(closed + [current + [p]], maxChunkSize)
  {
    var runs := closed + [current];
    var cur := current + [p];
    var runs' := closed + [cur];
    GreedyExtendFits(closed, current, p, maxChunkSize);
    if |closed| == 0 {
      if |current| == 0 {
        assert cur[..0] == [];
      } else {
        assert cur[..0] == current[..0];
        assert FitsAt(runs[0], 0, maxChunkSize);
      }
    } else {
      assert runs'[0] == runs[0];
    }
    forall i | 0 < i < |runs'|
      ensures |runs'[i]| > 0 && |Concat(runs'[i - 1])| + |runs'[i][0]| > maxChunkSize
    {
      assert runs'[i - 1] == runs[i - 1];
      if i < |closed| {
        assert runs'[i] == runs[i];
      } else {
        assert |runs[i]| > 0;
        assert runs'[i][0] == runs[i][0];
      }
    }
  }

  lemma GreedyExtendFits(closed: seq<seq<string>>, current: seq<string>, p: string, maxChunkSize: int)
    requires Greedy(closed + [current], maxChunkSize)
    requires |Concat(current)| + |p| <= maxChunkSize
    ensures forall i, k :: 0 <= i < |closed| + 1 && 0 < k < |(closed + [current + [p]])[i]| ==>
      FitsAt((closed + [current + [p]])[i], k, maxChunkSize)
  {
    var runs := closed + [current];
    var cur := current + [p];
    var runs' := closed + [cur];
    forall i, k | 0 <= i < |runs'| && 0 < k < |runs'[i]|
      ensures FitsAt(runs'[i], k, maxChunkSize)
    {
      if i < |closed| {
        assert runs'[i] == runs[i];
      } else if k < |current| {
        assert runs'[i] == cur && runs[i] == current;
        assert cur[..k] == current[..k];
        assert FitsAt(runs[i], k, maxChunkSize);
      } else {
        assert runs'[i] == cur;
        assert cur[..k] == current;
      }
    }
  }

  /**
   * The size bound: a run of two or more pieces stays within the limit, so a
   * chunk exceeds `maxChunkSize` only when one piece alone is longer.
   */
  lemma RunsBounded(runs: seq<seq<string>>, maxChunkSize: int)
    requires Greedy(runs, maxChunkSize)
    ensures forall i :: 0 <= i < |runs| ==> |runs[i]| <= 1 || |Concat(runs[i])| <= maxChunkSize
  {
    forall i | 0 <= i < |runs| && |runs[i]| > 1
      ensures |Concat(runs[i])| <= maxChunkSize
    {
      assert FitsAt(runs[i], |runs[i]| - 1, maxChunkSize);
    }
  }

  /** Every returned chunk is its own trim: no leading or trailing white space. */
  lemma ChunksTrimmed(text: string, maxChunkSize: int)
    ensures forall i :: 0 <= i < |ChunksOf(text, maxChunkSize)| ==>
      Trim(ChunksOf(text, maxChunkSize)[i]) == ChunksOf(text, maxChunkSize)[i]
  {
    forall i | 0 <= i < |ChunksOf(text, maxChunkSize)|
      ensures Trim(ChunksOf(text, maxChunkSize)[i]) == ChunksOf(text, maxChunkSize)[i]
    {
      var pk := Pack(SplitSentences(text), maxChunkSize);
      if i < |pk.closed| {
        TrimIdempotent(Concat(pk.closed[i]));
      } else {
        TrimIdempotent(Concat(pk.current));
      }
    }
  }

  /**
   * The chunks are the runs in order: chunk `i` is the trimmed text of run
   * `i`, and only the last run can be missing, exactly when its text is all
   * white space. The runs' texts laid end to end are the pieces laid end to end.
   */
  lemma ChunksAreRuns(text: string, maxChunkSize: int)
    ensures var runs := Pack(SplitSentences(text), maxChunkSize).Runs();
      var chunks := ChunksOf(text, maxChunkSize);
      && |chunks| == (if AllSpace(Concat(runs[|runs| - 1])) then |runs| - 1 else |runs|)
      && (forall i :: 0 <= i < |chunks| ==> chunks[i] == Trim(Concat(runs[i])))
      && Concat(RunTexts(runs)) == Concat(SplitSentences(text))
  {
    var pk := Pack(SplitSentences(text), maxChunkSize);
    var runs := pk.Runs();
    ChunksAreTrimmedRuns(pk);
    PackCovers(SplitSentences(text), maxChunkSize);
    ConcatFlatten(runs);
  }

  lemma ChunksAreTrimmedRuns(pk: Packing)
    ensures var runs, chunks := pk.Runs(), Emitted(pk);
      && |chunks| == (if AllSpace(Concat(runs[|runs| - 1])) then |runs| - 1 else |runs|)
      && (forall i :: 0 <= i < |chunks| ==> chunks[i] == Trim(Concat(runs[i])))
  {
    var runs, chunks := pk.Runs(), Emitted(pk);
    var n := |pk.closed|;
    assert runs[|runs| - 1] == pk.current;
    assert |chunks| == (if AllSpace(Concat(pk.current)) then n else n + 1) by {
      TrimEmptyIff(Concat(pk.current));
    }
    forall i | 0 <= i < |chunks|
      ensures chunks[i] == Trim(Concat(runs[i]))
    {
      if i < n {
        assert runs[i] == pk.closed[i];
        assert chunks[i] == chunks[..n][i];
      } else {
        assert chunks[i] == Trim(Concat(pk.current));
      }
    }
  }

  lemma {:induction false} ConcatFlatten(runs: seq<seq<string>>)
    ensures Concat(Flatten(runs)) == Concat(RunTexts(runs))
  {
    if |runs| > 0 {
      var init := runs[..|runs| - 1];
      ConcatFlatten(init);
      ConcatAppend(Flatten(init), runs[|runs| - 1]);
      assert RunTexts(runs)[..|runs| - 1] == RunTexts(init);
    }
  }

  /** Each chunk stays within the limit unless it is made of a single piece (or none). */
  lemma ChunksBounded(text: string, maxChunkSize: int)
    ensures var runs := Pack(SplitSentences(text), maxChunkSize).Runs();
      forall i :: 0 <= i < |ChunksOf(text, maxChunkSize)| ==>
        |ChunksOf(text, maxChunkSize)[i]| <= maxChunkSize || |runs[i]| <= 1
  {
    var runs := Pack(SplitSentences(text), maxChunkSize).Runs();
    var chunks := ChunksOf(text, maxChunkSize);
    PackGreedy(SplitSentences(text), maxChunkSize);
    RunsBounded(runs, maxChunkSize);
    ChunksAreRuns(text, maxChunkSize);
    forall i | 0 <= i < |chunks|
      ensures |chunks[i]| <= maxChunkSize || |runs[i]| <= 1
    {
      assert chunks[i] == Trim(Concat(runs[i]));
    }
  }

  /** The empty text gives no chunks at all. */
  lemma EmptyTextNoChunks(maxChunkSize: int)
    requires maxChunkSize >= 0
    ensures ChunksOf("", maxChunkSize) == []
  {
    assert SplitSentences("") == [""];
    assert Pack([""], maxChunkSize) == Packing([], [""]) by {
      assert [""][..0] == [];
    }
    assert Concat([""]) == "" by {
      assert [""][..0] == [];
    }
  }

  /** When the first piece alone exceeds the limit, the first chunk is the empty string. */
  lemma FirstPieceTooLong(text: string, maxChunkSize: int)
    requires |SplitSentences(text)[0]| > maxChunkSize
    ensures |ChunksOf(text, maxChunkSize)| > 0 && ChunksOf(text, maxChunkSize)[0] == ""
  {
    var pieces := SplitSentences(text);
    var pk := Pack(pieces, maxChunkSize);
    var runs := pk.Runs();
    PackGreedy(pieces, maxChunkSize);
    PackCovers(pieces, maxChunkSize);
    FlattenHead(runs);
    assert |pk.closed| > 0;
    assert ChunksOf(text, maxChunkSize)[0] == Trim(Concat(pk.closed[0]));
  }

  /** The first piece of a flattening comes from the first run unless that run is empty. */
  lemma {:induction false} FlattenHead(runs: seq<seq<string>>)
    requires |runs| > 0 && |Flatten(runs)| > 0
    ensures |runs[0]| > 0 ==> Flatten(runs)[0] == runs[0][0]
    ensures |runs[0]| == 0 && |runs| > 1 && |runs[1]| > 0 ==> Flatten(runs)[0] == runs[1][0]
  {
    if |runs| > 1 {
      var init := runs[..|runs| - 1];
      if |Flatten(init)| > 0 {
        FlattenHead(init);
      } else {
        FlattenEmpty(init);
      }
    }
  }

  lemma {:induction false} FlattenEmpty(runs: seq<seq<string>>)
    requires |Flatten(runs)| == 0
    ensures forall i :: 0 <= i < |runs| ==> runs[i] == []
  {
    if |runs| > 0 {
      FlattenEmpty(runs[..|runs| - 1]);
    }
  }

  method SplitIntoChunks(text: string, maxChunkSize: int) returns (chunks: seq<string>)
    ensures chunks == ChunksOf(text, maxChunkSize)
  {
    chunks := [];
    var currentChunk := "";
    var sentences := SplitSentences(text);
    ghost var runs: seq<seq<string>> := [];
    ghost var run: seq<string> := [];
    for i := 0 to |sentences|
      invariant Pack(sentences[..i], maxChunkSize) == Packing(runs, run)
      invariant chunks == TrimmedRuns(runs)
      invariant currentChunk == Concat(run)
    {
      PackSnoc(sentences, i, maxChunkSize);
      var sentence := sentences[i];
      if |currentChunk| + |sentence| > maxChunkSize {
        TrimmedRunsPush(runs, run);
        chunks := chunks + [Trim(currentChunk)];
        runs := runs + [run];
        currentChunk := "";
        run := [];
      }
      ConcatSnoc(run, sentence);
      currentChunk := currentChunk + sentence;
      run := run + [sentence];
    }
    assert sentences[..|sentences|] == sentences;
    if |Trim(currentChunk)| > 0 {
      chunks := chunks + [Trim(currentChunk)];
    }
  }

  /** One more iteration of the loop is one more step of the packing. */
  lemma PackSnoc(pieces: seq<string>, i: nat, maxChunkSize: int)
    requires i < |pieces|
    ensures Pack(pieces[..i + 1], maxChunkSize) == PackStep(Pack(pieces[..i], maxChunkSize), pieces[i], maxChunkSize)
  {
    assert pieces[..i + 1][..i] == pieces[..i];
  }

  lemma ConcatSnoc(xs: seq<string>, x: string)
    ensures Concat(xs + [x]) == Concat(xs) + x
  {
    assert (xs + [x])[..|xs|] == xs;
  }

  // ---------------------------------------------------------------------------
  // Empty chunks
  // ---------------------------------------------------------------------------

  /**
   * As written, the loop pushes `currentChunk.trim()` without checking it, so
   * an empty chunk comes out whenever the chunk so far is white space only
   * and the next piece does not fit: at the start, and after an empty piece.
   */
  lemma EmptyChunksEmitted()
    ensures ChunksOf("ab\n\ncd", 1) == ["", "ab", "", "cd"]
  {
    ExampleSplit();
    ExamplePack();
    ExampleEmitted();
  }

  lemma ExampleEmitted()
    ensures Emitted(Packing([[], ["ab"], [""]], ["cd"])) == ["", "ab", "", "cd"]
  {
    EmittedOfSingletons("ab", "cd");
  }

  lemma EmittedOfSingletons(a: string, c: string)
    requires |a| > 0 && !IsSpace(a[0]) && !IsSpace(a[|a| - 1])
    requires |c| > 0 && !IsSpace(c[0]) && !IsSpace(c[|c| - 1])
    ensures Emitted(Packing([[], [a], [""]], [c])) == ["", a, "", c]
  {
    ConcatSingleton(a);
    ConcatSingleton(c);
    ConcatSingleton("");
    TrimOfTrimmed(a);
    TrimOfTrimmed(c);
    TrimOfTrimmed("");
    var runs: seq<seq<string>> := [[], [a], [""]];
    var trimmed := TrimmedRuns(runs);
    assert trimmed[0] == Trim(Concat([])) == "";
    assert trimmed[1] == Trim(Concat([a])) == a;
    assert trimmed[2] == Trim(Concat([""])) == "";
    assert trimmed == ["", a, ""];
  }

  lemma ConcatSingleton(x: string)
    ensures Concat([x]) == x
  {
    assert [x][..0] == [];
  }

  lemma ExampleSplit()
    ensures SplitSentences("ab\n\ncd") == ["ab", "", "cd"]
  {
    var s := "ab\n\ncd";
    assert s[0] == 'a' && s[1] == 'b' && s[2] == '\n' && s[3] == '\n' && s[4] == 'c' && s[5] == 'd';
    assert s[4..] == "cd" && s[3..3] == "" && s[0..2] == "ab";
    assert SplitFrom(s, 4, 4) == ["cd"];
    assert SplitFrom(s, 3, 3) == [""] + SplitFrom(s, 4, 4);
    assert SplitFrom(s, 0, 0) == ["ab"] + SplitFrom(s, 3, 3);
  }

  lemma ExamplePack()
    ensures Pack(["ab", "", "cd"], 1) == Packing([[], ["ab"], [""]], ["cd"])
  {
    PackOfThree("ab", "", "cd", 1);
  }

  /** Three pieces none of which fits after the one before it each get a run of their own, after an empty first run. */
  lemma PackOfThree(a: string, b: string, c: string, maxChunkSize: int)
    requires |a| > maxChunkSize && |a| + |b| > maxChunkSize && |b| + |c| > maxChunkSize
    ensures Pack([a, b, c], maxChunkSize) == Packing([[], [a], [b]], [c])
  {
    var pieces := [a, b, c];
    assert pieces[..2] == [a, b] && [a, b][..1] == [a] && [a][..0] == [];
    assert Concat([a]) == a by { assert [a][..0] == []; }
    assert Concat([b]) == b by { assert [b][..0] == []; }
    var p1 := Pack([a], maxChunkSize);
    assert Pack([a][..0], maxChunkSize) == Packing([], []);
    assert p1 == PackStep(Packing([], []), a, maxChunkSize);
    assert p1 == Packing([[]], [a]);
    var p2 := Pack([a, b], maxChunkSize);
    assert p2 == PackStep(p1, b, maxChunkSize);
    assert p2 == Packing([[], [a]], [b]);
    assert Pack(pieces, maxChunkSize) == PackStep(p2, c, maxChunkSize);
  }

  /**
   * The loop with the check the final push already has: a chunk is pushed
   * only when its trimmed text is not empty. It returns the same chunks
   * without the empty ones, so every chunk it returns has content.
   */
  method SplitIntoNonEmptyChunks(text: string, maxChunkSize: int) returns (chunks: seq<string>)
    ensures chunks == Truthy(ChunksOf(text, maxChunkSize))
    ensures forall i :: 0 <= i < |chunks| ==> chunks[i] != [] && Trim(chunks[i]) == chunks[i]
  {
    chunks := [];
    var currentChunk := "";
    var sentences := SplitSentences(text);
    ghost var runs: seq<seq<string>> := [];
    ghost var run: seq<string> := [];
    ghost var pushed: seq<string> := [];
    for i := 0 to |sentences|
      invariant Pack(sentences[..i], maxChunkSize) == Packing(runs, run)
      invariant pushed == TrimmedRuns(runs)
      invariant chunks == Truthy(pushed)
      invariant currentChunk == Concat(run)
    {
      PackSnoc(sentences, i, maxChunkSize);
      var sentence := sentences[i];
      if |currentChunk| + |sentence| > maxChunkSize {
        TrimmedRunsPush(runs, run);
        TruthySnoc(pushed, Trim(currentChunk));
        if |Trim(currentChunk)| > 0 {
          chunks := chunks + [Trim(currentChunk)];
        }
        pushed := pushed + [Trim(currentChunk)];
        runs := runs + [run];
        currentChunk := "";
        run := [];
      }
      ConcatSnoc(run, sentence);
      currentChunk := currentChunk + sentence;
      run := run + [sentence];
    }
    assert Truthy(ChunksOf(text, maxChunkSize)) == chunks + (if |Trim(currentChunk)| > 0 then [Trim(currentChunk)] else []) by {
      assert sentences[..|sentences|] == sentences;
      NonEmptyLast(text, maxChunkSize, runs, run);
    }
    if |Trim(currentChunk)| > 0 {
      chunks := chunks + [Trim(currentChunk)];
    }
    NonEmptyChunksTrimmed(text, maxChunkSize, chunks);
  }

  /** One more pushed chunk is one more non-empty chunk exactly when it is not empty. */
  lemma TruthySnoc(xs: seq<string>, x: string)
    ensures Truthy(xs + [x]) == Truthy(xs) + (if x != [] then [x] else [])
  {
    assert (xs + [x])[..|xs|] == xs;
  }

  /** After the loop, the non-empty chunks so far and the last chunk, when it has content, are all the non-empty chunks. */
  lemma NonEmptyLast(text: string, maxChunkSize: int, runs: seq<seq<string>>, run: seq<string>)
    requires Pack(SplitSentences(text), maxChunkSize) == Packing(runs, run)
    ensures Truthy(ChunksOf(text, maxChunkSize)) == Truthy(TrimmedRuns(runs))
      + (if |Trim(Concat(run))| > 0 then [Trim(Concat(run))] else [])
  {
    NonEmptyEmitted(Packing(runs, run));
  }

  lemma NonEmptyEmitted(pk: Packing)
    ensures Truthy(Emitted(pk)) == Truthy(TrimmedRuns(pk.closed))
      + (if Trim(Concat(pk.current)) != [] then [Trim(Concat(pk.current))] else [])
  {
    if Trim(Concat(pk.current)) != [] {
      TruthyAppend(TrimmedRuns(pk.closed), [Trim(Concat(pk.current))]);
    } else {
      assert Emitted(pk) == TrimmedRuns(pk.closed);
    }
  }

  lemma NonEmptyChunksTrimmed(text: string, maxChunkSize: int, chunks: seq<string>)
    requires chunks == Truthy(ChunksOf(text, maxChunkSize))
    ensures forall i :: 0 <= i < |chunks| ==> chunks[i] != [] && Trim(chunks[i]) == chunks[i]
  {
    var all := ChunksOf(text, maxChunkSize);
    ChunksTrimmed(text, maxChunkSize);
    forall i | 0 <= i < |chunks|
      ensures Trim(chunks[i]) == chunks[i]
    {
      TruthyMembers(all, chunks[i]);
    }
  }
}
