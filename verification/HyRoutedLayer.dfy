/** One prefix layer in which text and vision positions use different weights around one shared
    attention.  The routed form works run by run and sweeps over override segments; the reference
    form picks the weights position by position.  Row operators are arbitrary functions: `X` is a
    hidden row, `P` a projected query/key/value row, `A` an attention output row. */
module HyRoutedLayer {
  import opened Common
  import opened HyPrefixScan

  /** Everything before the attention (norm, Wq, Wk, Wv) and after it (Wo, residual, norm, MLP). */
  datatype Weights<!X, !P, !A> = Weights(project: X -> P, finish: (X, A) -> X)

  /** Which columns each row may attend to. */
  type Mask = seq<seq<bool>>

  /** `place` rotates and normalises a row for its position; it uses the text norms for both kinds.
      `attend` is the attention over a stretch of rows, with a mask or with none; `mask` is the one of the run. */
  datatype Layer<!X, !P, !A> = Layer(
    text: Weights<X, P, A>,
    vision: Weights<X, P, A>,
    place: (P, nat) -> P,
    attend: (seq<P>, Option<Mask>) -> seq<A>,
    mask: Mask,
    round: A -> A)

  ghost predicate WellFormed<X, P(!new), A>(m: Layer<X, P, A>) {
    forall ps: seq<P>, mask: Option<Mask> :: |m.attend(ps, mask)| == |ps|
  }

  function For<X, P, A>(m: Layer<X, P, A>, vision: bool): Weights<X, P, A> {
    if vision then m.vision else m.text
  }

  // ---------------------------------------------------------------- reference form

  function Placed<X, P, A>(m: Layer<X, P, A>, x: seq<X>, bits: seq<bool>): (p: seq<P>)
    requires |x| == |bits|
    ensures |p| == |x|
  {
    seq(|x|, i requires 0 <= i < |x| => m.place(For(m, bits[i]).project(x[i]), i))
  }

  /** Attention output of row `i`: inside a segment from that segment alone, elsewhere from all rows. */
  ghost function AttendedAt<X, P(!new), A>(m: Layer<X, P, A>, ps: seq<P>, segments: seq<Range>, i: nat): A
    requires WellFormed(m) && OrderedRanges(segments, |ps|) && i < |ps|
    decreases |segments|
  {
    if segments == [] then m.attend(ps, Some(m.mask))[i]
    else
      var s := segments[|segments| - 1];
      if s.start <= i < s.end then m.attend(ps[s.start..s.end], None)[i - s.start]
      else AttendedAt(m, ps, segments[..|segments| - 1], i)
  }

  ghost function Attended<X, P(!new), A>(m: Layer<X, P, A>, ps: seq<P>, segments: seq<Range>): (a: seq<A>)
    requires WellFormed(m) && OrderedRanges(segments, |ps|)
    ensures |a| == |ps|
  {
    seq(|ps|, i requires 0 <= i < |ps| => AttendedAt(m, ps, segments, i))
  }

  function Rounded<X, P, A>(m: Layer<X, P, A>, a: seq<A>, cast: bool): (r: seq<A>)
    ensures |r| == |a|
  {
    if cast then seq(|a|, i requires 0 <= i < |a| => m.round(a[i])) else a
  }

  function Finished<X, P, A>(m: Layer<X, P, A>, x: seq<X>, bits: seq<bool>, a: seq<A>): (out: seq<X>)
    requires |x| == |bits| == |a|
    ensures |out| == |x|
  {
    seq(|x|, i requires 0 <= i < |x| => For(m, bits[i]).finish(x[i], a[i]))
  }

  ghost function Reference<X, P(!new), A>(m: Layer<X, P, A>, x: seq<X>, bits: seq<bool>, segments: seq<Range>,
                                          cast: bool): seq<X>
    requires WellFormed(m) && |x| == |bits| && OrderedRanges(segments, |x|)
  {
    Finished(m, x, bits, Rounded(m, Attended(m, Placed(m, x, bits), segments), cast))
  }

  // ---------------------------------------------------------------- concatenation

  function Flatten<T>(xs: seq<seq<T>>): seq<T> {
    if xs == [] then [] else Flatten(xs[..|xs| - 1]) + xs[|xs| - 1]
  }

  lemma {:induction false} FlattenConcat<T>(a: seq<seq<T>>, b: seq<seq<T>>)
    ensures Flatten(a + b) == Flatten(a) + Flatten(b)
    decreases |b|
  {
    if b == [] {
      assert a + b == a;
    } else {
      assert (a + b)[..|a + b| - 1] == a + b[..|b| - 1];
      FlattenConcat(a, b[..|b| - 1]);
      Reassociate(Flatten(a), Flatten(b[..|b| - 1]), b[|b| - 1]);
    }
  }

  function ConcatRange<T>(xs: seq<seq<T>>, lo: nat, hi: nat): seq<T>
    requires lo < hi <= |xs|
    decreases hi - lo
  {
    if hi - lo == 1 then xs[lo]
    else
      var mid := lo + (hi - lo) / 2;
      ConcatRange(xs, lo, mid) + ConcatRange(xs, mid, hi)
  }

  /** Concatenation by halving; nothing for an empty list. */
  function ConcatSeq<T>(xs: seq<seq<T>>): Option<seq<T>> {
    if xs == [] then None else Some(ConcatRange(xs, 0, |xs|))
  }

  lemma FlattenSplit<T>(xs: seq<seq<T>>, lo: nat, mid: nat, hi: nat)
    requires lo <= mid <= hi <= |xs|
    ensures Flatten(xs[lo..hi]) == Flatten(xs[lo..mid]) + Flatten(xs[mid..hi])
  {
    FlattenConcat(xs[lo..mid], xs[mid..hi]);
    assert xs[lo..hi] == xs[lo..mid] + xs[mid..hi];
  }

  lemma FlattenOne<T>(xs: seq<seq<T>>, lo: nat)
    requires lo < |xs|
    ensures ConcatRange(xs, lo, lo + 1) == Flatten(xs[lo..lo + 1])
  {
    assert xs[lo..lo + 1] == [xs[lo]];
  }

  lemma Halves<T>(xs: seq<seq<T>>, lo: nat, mid: nat, hi: nat)
    requires lo + 1 < hi <= |xs| && mid == lo + (hi - lo) / 2
    ensures lo < mid < hi && ConcatRange(xs, lo, hi) == ConcatRange(xs, lo, mid) + ConcatRange(xs, mid, hi)
  {
  }

  lemma {:induction false} ConcatRangeFlattens<T>(xs: seq<seq<T>>, lo: nat, hi: nat)
    requires lo < hi <= |xs|
    ensures ConcatRange(xs, lo, hi) == Flatten(xs[lo..hi])
    decreases hi - lo
  {
    if hi - lo == 1 {
      FlattenOne(xs, lo);
    } else {
      var mid := lo + (hi - lo) / 2;
      Halves(xs, lo, mid, hi);
      ConcatRangeFlattens(xs, lo, mid);
      ConcatRangeFlattens(xs, mid, hi);
      FlattenSplit(xs, lo, mid, hi);
    }
  }

  /** The halving concatenation is the left-to-right one. */
  lemma ConcatSeqFlattens<T>(xs: seq<seq<T>>)
    ensures ConcatSeq(xs) == if xs == [] then None else Some(Flatten(xs))
  {
    if xs != [] {
      ConcatRangeFlattens(xs, 0, |xs|);
      assert xs[0..|xs|] == xs;
    }
  }

  // ---------------------------------------------------------------- routed form

  function Projected<X, P, A>(m: Layer<X, P, A>, x: seq<X>, bits: seq<bool>): (ps: seq<P>)
    requires |x| == |bits|
    ensures |ps| == |x|
  {
    seq(|x|, i requires 0 <= i < |x| => For(m, bits[i]).project(x[i]))
  }

  /** One more piece takes a flattened front of `whole` from `from` to `to`. */
  lemma FrontGrows<T>(pieces: seq<seq<T>>, piece: seq<T>, whole: seq<T>, from: nat, to: nat)
    requires from <= to <= |whole| && Flatten(pieces) == whole[..from] && piece == whole[from..to]
    ensures Flatten(pieces + [piece]) == whole[..to]
  {
  }

  function ProjectRows<X, P, A>(w: Weights<X, P, A>, rows: seq<X>): (ps: seq<P>)
    ensures |ps| == |rows|
  {
    seq(|rows|, i requires 0 <= i < |rows| => w.project(rows[i]))
  }

  function FinishRows<X, P, A>(w: Weights<X, P, A>, rows: seq<X>, att: seq<A>): (out: seq<X>)
    requires |rows| == |att|
    ensures |out| == |rows|
  {
    seq(|rows|, i requires 0 <= i < |rows| => w.finish(rows[i], att[i]))
  }

  method ProjectRuns<X, P, A>(m: Layer<X, P, A>, x: seq<X>, ghost bits: seq<bool>, runs: seq<Run>)
    returns (placed: seq<P>)
    requires |x| == |bits| && x != [] && RunsOf(runs, bits)
    ensures placed == Placed(m, x, bits)
  {
    var pieces: seq<seq<P>> := [];
    ghost var done, whole := 0, Projected(m, x, bits);
    for k := 0 to |runs|
      invariant done == (if k == 0 then 0 else runs[k - 1].start + runs[k - 1].len) <= |x|
      invariant |pieces| == k
      invariant Flatten(pieces) == whole[..done]
    {
      RunWindow(runs, bits, k);
      var r := runs[k];
      var w := For(m, r.vision);
      var rows := x[r.start..r.start + r.len];
      var piece := ProjectRows(w, rows);
      FrontGrows(pieces, piece, whole, r.start, r.start + r.len);
      pieces := pieces + [piece];
      done := r.start + r.len;
    }
    assert runs != [];
    RunWindow(runs, bits, |runs| - 1);
    assert whole[..|x|] == whole;
    ConcatSeqFlattens(pieces);
    var joined := ConcatSeq(pieces).value;
    placed := seq(|joined|, i requires 0 <= i < |joined| => m.place(joined[i], i));
  }

  method FinishRuns<X, P, A>(m: Layer<X, P, A>, x: seq<X>, ghost bits: seq<bool>, runs: seq<Run>, a: seq<A>)
    returns (out: seq<X>)
    requires |x| == |bits| == |a| && x != [] && RunsOf(runs, bits)
    ensures out == Finished(m, x, bits, a)
  {
    var pieces: seq<seq<X>> := [];
    ghost var done, whole := 0, Finished(m, x, bits, a);
    for k := 0 to |runs|
      invariant done == (if k == 0 then 0 else runs[k - 1].start + runs[k - 1].len) <= |x|
      invariant |pieces| == k
      invariant Flatten(pieces) == whole[..done]
    {
      RunWindow(runs, bits, k);
      var r := runs[k];
      var w := For(m, r.vision);
      var rows, att := x[r.start..r.start + r.len], a[r.start..r.start + r.len];
      var piece := FinishRows(w, rows, att);
      FrontGrows(pieces, piece, whole, r.start, r.start + r.len);
      pieces := pieces + [piece];
      done := r.start + r.len;
    }
    assert runs != [];
    RunWindow(runs, bits, |runs| - 1);
    ConcatSeqFlattens(pieces);
    out := ConcatSeq(pieces).value;
  }

  lemma {:induction false} AttendedInside<X, P(!new), A>(m: Layer<X, P, A>, ps: seq<P>, segments: seq<Range>, k: nat,
                                                         i: nat)
    requires WellFormed(m) && OrderedRanges(segments, |ps|) && k < |segments|
    requires segments[k].start <= i < segments[k].end
    ensures AttendedAt(m, ps, segments, i) ==
            m.attend(ps[segments[k].start..segments[k].end], None)[i - segments[k].start]
    decreases |segments|
  {
    var n := |segments| - 1;
    if k < n {
      assert segments[k].end <= segments[n].start;
      AttendedInside(m, ps, segments[..n], k, i);
    }
  }

  lemma {:induction false} AttendedOutside<X, P(!new), A>(m: Layer<X, P, A>, ps: seq<P>, segments: seq<Range>, i: nat)
    requires WellFormed(m) && OrderedRanges(segments, |ps|) && i < |ps| && !Covered(segments, i)
    ensures AttendedAt(m, ps, segments, i) == m.attend(ps, Some(m.mask))[i]
    decreases |segments|
  {
    if segments != [] {
      var n := |segments| - 1;
      assert forall k :: 0 <= k < n ==> segments[..n][k] == segments[k];
      AttendedOutside(m, ps, segments[..n], i);
    }
  }

  function Bounded(lo: int, hi: int, v: int): int {
    var w := if v < hi then v else hi;
    if w < lo then lo else w
  }

  /** The stretch from the end of the previous segment up to `to`, which no segment covers. */
  lemma GapPiece<X, P(!new), A>(m: Layer<X, P, A>, ps: seq<P>, segments: seq<Range>, k: nat, from: nat, to: nat)
    requires WellFormed(m) && OrderedRanges(segments, |ps|) && k <= |segments|
    requires from == if k == 0 then 0 else segments[k - 1].end
    requires from <= to <= |ps| && (k < |segments| ==> to <= segments[k].start)
    ensures Attended(m, ps, segments)[from..to] == m.attend(ps, Some(m.mask))[from..to]
  {
    forall i | from <= i < to ensures Attended(m, ps, segments)[i] == m.attend(ps, Some(m.mask))[i] {
      BetweenSeparators(segments, |ps|, k, i);
      AttendedOutside(m, ps, segments, i);
    }
  }

  lemma SegmentPiece<X, P(!new), A>(m: Layer<X, P, A>, ps: seq<P>, segments: seq<Range>, k: nat)
    requires WellFormed(m) && OrderedRanges(segments, |ps|) && k < |segments|
    ensures Attended(m, ps, segments)[segments[k].start..segments[k].end] ==
            m.attend(ps[segments[k].start..segments[k].end], None)
  {
    var s, e := segments[k].start, segments[k].end;
    forall i | s <= i < e ensures Attended(m, ps, segments)[i] == m.attend(ps[s..e], None)[i - s] {
      AttendedInside(m, ps, segments, k, i);
    }
  }

  /** The sweep over the segments: it covers every row once, in order. */
  method Sweep<X, P(!new), A>(m: Layer<X, P, A>, ps: seq<P>, segments: seq<Range>) returns (att: seq<A>)
    requires WellFormed(m) && OrderedRanges(segments, |ps|) && ps != []
    ensures att == Attended(m, ps, segments)
  {
    att := m.attend(ps, Some(m.mask));
    if segments == [] {
      GapPiece(m, ps, segments, 0, 0, |ps|);
      return;
    }
    ghost var whole := Attended(m, ps, segments);
    var pieces: seq<seq<A>> := [];
    var cur := 0;
    for k := 0 to |segments|
      invariant cur == (if k == 0 then 0 else segments[k - 1].end) <= |ps|
      invariant k > 0 ==> pieces != []
      invariant Flatten(pieces) == whole[..cur]
    {
      var s := Bounded(0, |ps|, segments[k].start);
      var e := Bounded(s, |ps|, segments[k].end);
      if cur < s {
        GapPiece(m, ps, segments, k, cur, s);
        FrontGrows(pieces, att[cur..s], whole, cur, s);
        pieces := pieces + [att[cur..s]];
      }
      if e > s {
        SegmentPiece(m, ps, segments, k);
        FrontGrows(pieces, m.attend(ps[s..e], None), whole, s, e);
        pieces := pieces + [m.attend(ps[s..e], None)];
      }
      cur := e;
    }
    if cur < |ps| {
      GapPiece(m, ps, segments, |segments|, cur, |ps|);
      FrontGrows(pieces, att[cur..|ps|], whole, cur, |ps|);
      pieces := pieces + [att[cur..|ps|]];
    }
    ConcatSeqFlattens(pieces);
    att := ConcatSeq(pieces).value;
  }

  /** The routed layer computes the reference layer, and hands out the same keys and values. */
  method RoutedLayer<X, P(!new), A>(m: Layer<X, P, A>, x: seq<X>, ghost bits: seq<bool>, runs: seq<Run>,
                                    segments: seq<Range>, cast: bool) returns (out: seq<X>, kv: seq<P>)
    requires WellFormed(m) && |x| == |bits| && x != []
    requires RunsOf(runs, bits) && OrderedRanges(segments, |x|)
    ensures out == Reference(m, x, bits, segments, cast)
    ensures kv == Placed(m, x, bits)
  {
    kv := ProjectRuns(m, x, bits, runs);
    var att := Sweep(m, kv, segments);
    if cast {
      att := seq(|att|, i requires 0 <= i < |att| => m.round(att[i]));
    }
    out := FinishRuns(m, x, bits, runs, att);
  }

  // ---------------------------------------------------------------- two-segment form

  /** Text rows first, vision rows second: each half with its own weights, one attention over both. */
  function TwoSegmentLayer<X, P(!new), A>(m: Layer<X, P, A>, xText: seq<X>, xVis: seq<X>): seq<X>
    requires |m.attend(TwoSegmentRows(m, xText, xVis), Some(m.mask))| == |xText| + |xVis|
  {
    var att := m.attend(TwoSegmentRows(m, xText, xVis), Some(m.mask));
    var attText, attVis := att[..|xText|], att[|xText|..];
    seq(|xText|, i requires 0 <= i < |xText| => m.text.finish(xText[i], attText[i])) +
    seq(|xVis|, i requires 0 <= i < |xVis| => m.vision.finish(xVis[i], attVis[i]))
  }

  function TwoSegmentRows<X, P, A>(m: Layer<X, P, A>, xText: seq<X>, xVis: seq<X>): seq<P> {
    var p := seq(|xText|, i requires 0 <= i < |xText| => m.text.project(xText[i])) +
             seq(|xVis|, i requires 0 <= i < |xVis| => m.vision.project(xVis[i]));
    seq(|p|, i requires 0 <= i < |p| => m.place(p[i], i))
  }

  /** The two-segment layer is the reference layer for the mask 0...01...1 without segments. */
  lemma TwoSegmentIsReference<X, P(!new), A>(m: Layer<X, P, A>, xText: seq<X>, xVis: seq<X>)
    requires WellFormed(m)
    ensures |m.attend(TwoSegmentRows(m, xText, xVis), Some(m.mask))| == |xText| + |xVis|
    ensures TwoSegmentLayer(m, xText, xVis) ==
            Reference(m, xText + xVis, seq(|xText|, _ => false) + seq(|xVis|, _ => true), [], false)
  {
    var x := xText + xVis;
    var bits := seq(|xText|, _ => false) + seq(|xVis|, _ => true);
    var rows, placed := TwoSegmentRows(m, xText, xVis), Placed(m, x, bits);
    forall i | 0 <= i < |x| ensures rows[i] == placed[i] {
      assert placed[i] == m.place(For(m, bits[i]).project(x[i]), i);
    }
    assert rows == placed;
    var att := m.attend(rows, Some(m.mask));
    var out, ref := TwoSegmentLayer(m, xText, xVis), Reference(m, x, bits, [], false);
    GapPiece(m, rows, [], 0, 0, |rows|);
    assert Attended(m, rows, [])[0..|rows|] == Attended(m, rows, []) && att[0..|rows|] == att;
    forall i | 0 <= i < |x| ensures out[i] == ref[i] {
      assert ref[i] == For(m, bits[i]).finish(x[i], att[i]);
    }
  }

  /** The prefix mask of a run: causal, and in the joint run open between the patches of one image and closed
      between those of different images. */
  ghost function PrefixMask(modality: seq<int>, joint: bool): Mask {
    seq(|modality|, r requires 0 <= r < |modality| =>
      seq(|modality|, c requires 0 <= c < |modality| =>
        if joint && modality[r] != 0 && modality[c] != 0 then SameImage(modality, r, c) else c <= r))
  }

  function Entries(mask: array2<bool>): Mask
    reads mask
  {
    seq(mask.Length0, r requires 0 <= r < mask.Length0 reads mask =>
      seq(mask.Length1, c requires 0 <= c < mask.Length1 reads mask => mask[r, c]))
  }

  method MaskOfRun(modality: seq<int>, joint: bool) returns (mask: Mask)
    ensures mask == PrefixMask(modality, joint)
  {
    var entries: array2<bool>;
    if joint {
      entries := MakeJointMask(modality);
    } else {
      entries := MakePrefixMask(|modality|, false, []);
    }
    mask := Entries(entries);
    forall r: nat | r < |modality|
      ensures mask[r] == PrefixMask(modality, joint)[r]
    {
    }
  }

  /** Attention of every row: within its segment alone and without a mask, else over all rows with the mask. */
  ghost predicate AttendedRows<X, P(!new), A>(m: Layer<X, P, A>, mask: Mask, segments: seq<Range>, kv: seq<P>,
                                              att: seq<A>)
    requires WellFormed(m) && OrderedRanges(segments, |kv|)
  {
    && |att| == |kv|
    && (forall i :: 0 <= i < |kv| && !Covered(segments, i) ==> att[i] == m.attend(kv, Some(mask))[i])
    && forall k, i :: 0 <= k < |segments| && segments[k].start <= i < segments[k].end ==>
         att[i] == m.attend(kv[segments[k].start..segments[k].end], None)[i - segments[k].start]
  }

  /** Row `i` before the attention: projected by its own kind and placed at `i`. */
  predicate ProjectedAs<X, P(==), A>(m: Layer<X, P, A>, x: X, value: int, i: nat, kv: P) {
    kv == m.place(if value != 0 then m.vision.project(x) else m.text.project(x), i)
  }

  /** A row behind the attention: finished by its own kind, on the attention or, in the joint run, its rounding. */
  predicate FinishedAs<X(==), P, A>(m: Layer<X, P, A>, x: X, value: int, att: A, joint: bool, out: X) {
    var a := if joint then m.round(att) else att;
    out == if value != 0 then m.vision.finish(x, a) else m.text.finish(x, a)
  }

  /** The reference layer, row by row. */
  lemma ReferenceRows<X, P(!new), A>(m: Layer<X, P, A>, x: seq<X>, modality: seq<int>, segments: seq<Range>,
                                     joint: bool)
    returns (att: seq<A>)
    requires WellFormed(m) && |x| == |modality| && OrderedRanges(segments, |x|)
    ensures AttendedRows(m, m.mask, segments, Placed(m, x, Bits(modality)), att)
    ensures forall i :: 0 <= i < |x| ==> ProjectedAs(m, x[i], modality[i], i, Placed(m, x, Bits(modality))[i])
    ensures |Reference(m, x, Bits(modality), segments, joint)| == |x|
    ensures forall i :: 0 <= i < |x| ==>
              FinishedAs(m, x[i], modality[i], att[i], joint, Reference(m, x, Bits(modality), segments, joint)[i])
  {
    var bits := Bits(modality);
    var kv, out := Placed(m, x, bits), Reference(m, x, bits, segments, joint);
    att := Attended(m, kv, segments);
    forall i | 0 <= i < |kv| && !Covered(segments, i)
      ensures att[i] == m.attend(kv, Some(m.mask))[i]
    {
      AttendedOutside(m, kv, segments, i);
    }
    forall k, i | 0 <= k < |segments| && segments[k].start <= i < segments[k].end
      ensures att[i] == m.attend(kv[segments[k].start..segments[k].end], None)[i - segments[k].start]
    {
      AttendedInside(m, kv, segments, k, i);
    }
    forall i | 0 <= i < |x|
      ensures ProjectedAs(m, x[i], modality[i], i, kv[i])
      ensures FinishedAs(m, x[i], modality[i], att[i], joint, out[i])
    {
      assert bits[i] == (modality[i] != 0);
      assert kv[i] == m.place(For(m, bits[i]).project(x[i]), i);
      assert out[i] == For(m, bits[i]).finish(x[i], Rounded(m, att, joint)[i]);
    }
  }

  /** A layer of the routed run: without the joint attention the override segments of the mask apply and the
      prefix mask is causal; with it there are none, images see themselves and the attention output is rounded.
      Patches go through the vision weights, everything else through the text weights. */
  method RunRoutedLayer<X, P(!new), A>(m: Layer<X, P, A>, x: seq<X>, modality: seq<int>, joint: bool)
    returns (out: seq<X>, kv: seq<P>, segments: seq<Range>, ghost att: seq<A>)
    requires WellFormed(m) && |x| == |modality| && x != []
    ensures OrderedRanges(segments, |modality|)
    ensures out == Reference(m.(mask := PrefixMask(modality, joint)), x, Bits(modality), segments, joint)
    ensures joint || |modality| <= 1 ==> segments == []
    ensures !joint && |modality| > 1 ==>
              forall p: nat :: p < |modality| ==> (Covered(segments, p) <==> Overridden(modality, p))
    ensures |kv| == |out| == |x| && AttendedRows(m, PrefixMask(modality, joint), segments, kv, att)
    ensures forall i :: 0 <= i < |x| ==> ProjectedAs(m, x[i], modality[i], i, kv[i])
    ensures forall i :: 0 <= i < |x| ==> FinishedAs(m, x[i], modality[i], att[i], joint, out[i])
  {
    var runs := MakePrefixRuns(modality);
    segments := [];
    if !joint {
      segments := MakeVisualOverrideSegments(modality);
    }
    var mask := MaskOfRun(modality, joint);
    var masked := m.(mask := mask);
    out, kv := RoutedLayer(masked, x, Bits(modality), runs, segments, joint);
    att := ReferenceRows(masked, x, modality, segments, joint);
  }
}
