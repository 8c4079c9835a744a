/** The scanners that recover structure from a modality mask (0 = text, anything else = vision):
    runs, per-image patch groups, override segments, and the attention mask built from the groups. */
module HyPrefixScan {

  // ---------------------------------------------------------------- runs

  datatype Run = Run(start: nat, len: nat, vision: bool)

  function Bits(mask: seq<int>): seq<bool> {
    seq(|mask|, i requires 0 <= i < |mask| => mask[i] != 0)
  }

  /** The bits a list of runs stands for. */
  function Decode(runs: seq<Run>): seq<bool> {
    if runs == [] then []
    else
      var r := runs[|runs| - 1];
      Decode(runs[..|runs| - 1]) + seq(r.len, _ => r.vision)
  }

  /** Consecutive from position 0, non-empty and alternating: no run could be longer. */
  predicate Maximal(runs: seq<Run>) {
    && (forall k :: 0 <= k < |runs| ==> runs[k].len > 0)
    && (runs != [] ==> runs[0].start == 0)
    && (forall k :: 0 < k < |runs| ==> runs[k].start == runs[k - 1].start + runs[k - 1].len)
    && (forall k :: 0 < k < |runs| ==> runs[k].vision != runs[k - 1].vision)
  }

  predicate RunsOf(runs: seq<Run>, bits: seq<bool>) {
    Maximal(runs) && Decode(runs) == bits
  }

  lemma {:induction false} DecodeEnd(runs: seq<Run>)
    requires Maximal(runs) && runs != []
    ensures |Decode(runs)| == runs[|runs| - 1].start + runs[|runs| - 1].len
  {
    var n := |runs| - 1;
    if n > 0 {
      DecodeEnd(runs[..n]);
    } else {
      assert Decode(runs[..0]) == [];
    }
  }

  lemma MaximalAppend(runs: seq<Run>, r: Run)
    requires Maximal(runs) && r.len > 0
    requires runs == [] ==> r.start == 0
    requires runs != [] ==> var q := runs[|runs| - 1]; r.start == q.start + q.len && r.vision != q.vision
    ensures Maximal(runs + [r])
  {
  }

  lemma DecodeAppend(runs: seq<Run>, r: Run)
    ensures Decode(runs + [r]) == Decode(runs) + seq(r.len, _ => r.vision)
  {
    assert (runs + [r])[..|runs|] == runs;
  }

  lemma ExtendRuns(runs: seq<Run>, bits: seq<bool>, start: nat, end: nat, vision: bool)
    requires start < end <= |bits| && RunsOf(runs, bits[..start])
    requires forall p :: start <= p < end ==> bits[p] == vision
    requires start > 0 ==> bits[start - 1] != vision
    ensures RunsOf(runs + [Run(start, end - start, vision)], bits[..end])
  {
    var r := Run(start, end - start, vision);
    if runs != [] {
      LastRunStart(runs, bits[..start]);
    }
    MaximalAppend(runs, r);
    DecodeAppend(runs, r);
    assert bits[..end] == bits[..start] + seq(r.len, _ => vision);
  }

  predicate OfKind(mask: seq<int>, p: int, vision: bool) {
    0 <= p < |mask| && (vision <==> mask[p] != 0)
  }

  /** The runs cover the mask from end to end, and the vision runs hold exactly its non-zero positions. */
  ghost predicate Describe(runs: seq<Run>, mask: seq<int>) {
    && (runs == [] ==> mask == [])
    && (runs != [] ==> runs[|runs| - 1].start + runs[|runs| - 1].len == |mask|)
    && forall k, p :: 0 <= k < |runs| && runs[k].start <= p < runs[k].start + runs[k].len ==>
         OfKind(mask, p, runs[k].vision)
  }

  lemma RunsDescribe(runs: seq<Run>, mask: seq<int>)
    requires RunsOf(runs, Bits(mask))
    ensures Describe(runs, mask)
  {
    forall k, p | 0 <= k < |runs| && runs[k].start <= p < runs[k].start + runs[k].len
      ensures OfKind(mask, p, runs[k].vision)
    {
      RunWindow(runs, Bits(mask), k);
      assert Bits(mask)[p] == (mask[p] != 0);
    }
    assert |Bits(mask)| == |mask|;
    if runs != [] {
      LastRunStart(runs, Bits(mask));
    } else {
      assert Decode(runs) == [];
    }
  }

  /** Where run `k` starts in the bits, and that its bits are its kind. */
  lemma {:induction false} RunWindow(runs: seq<Run>, bits: seq<bool>, k: nat)
    requires RunsOf(runs, bits) && k < |runs|
    ensures var r := runs[k];
      && r.start + r.len <= |bits|
      && (forall i :: r.start <= i < r.start + r.len ==> bits[i] == r.vision)
      && (k == |runs| - 1 ==> r.start + r.len == |bits|)
    decreases |runs|
  {
    LastRunStart(runs, bits);
    if k < |runs| - 1 {
      DropLastRun(runs, bits);
      RunWindow(runs[..|runs| - 1], bits[..runs[|runs| - 1].start], k);
    }
  }

  method MakePrefixRuns(mask: seq<int>) returns (runs: seq<Run>)
    ensures RunsOf(runs, Bits(mask)) && Describe(runs, mask)
  {
    runs := PrefixRuns(mask);
    RunsDescribe(runs, mask);
  }

  /** The runs in front of `start` are known, and from there to `end` all bits are of one kind. */
  ghost predicate Scanning(runs: seq<Run>, bits: seq<bool>, start: nat, end: nat, vision: bool) {
    && start < end <= |bits| && RunsOf(runs, bits[..start])
    && (forall p :: start <= p < end ==> bits[p] == vision)
    && (start > 0 ==> bits[start - 1] != vision)
  }

  lemma RunGoesOn(runs: seq<Run>, bits: seq<bool>, start: nat, end: nat, vision: bool)
    requires Scanning(runs, bits, start, end, vision) && end < |bits| && bits[end] == vision
    ensures Scanning(runs, bits, start, end + 1, vision)
  {
  }

  lemma RunStarts(runs: seq<Run>, bits: seq<bool>, at: nat)
    requires 0 < at < |bits| && RunsOf(runs, bits[..at]) && bits[at] != bits[at - 1]
    ensures Scanning(runs, bits, at, at + 1, bits[at])
  {
  }

  lemma RunEnds(runs: seq<Run>, bits: seq<bool>, start: nat, end: nat, vision: bool)
    requires Scanning(runs, bits, start, end, vision)
    ensures RunsOf(runs + [Run(start, end - start, vision)], bits[..end]) && bits[end - 1] == vision
  {
    ExtendRuns(runs, bits, start, end, vision);
  }

  method PrefixRuns(mask: seq<int>) returns (runs: seq<Run>)
    ensures RunsOf(runs, Bits(mask))
  {
    runs := [];
    var n := |mask|;
    if n <= 0 {
      return;
    }
    var start, vision := 0, mask[0] != 0;
    ghost var bits := Bits(mask);
    for i := 1 to n + 1
      invariant i <= n ==> Scanning(runs, bits, start, i, vision)
      invariant i == n + 1 ==> RunsOf(runs, bits[..n])
    {
      if i < n && (mask[i] != 0) == vision {
        RunGoesOn(runs, bits, start, i, vision);
      }
      if i == n || (mask[i] != 0) != vision {
        RunEnds(runs, bits, start, i, vision);
        runs := runs + [Run(start, i - start, vision)];
        if i < n {
          RunStarts(runs, bits, i);
          start, vision := i, mask[i] != 0;
        }
      }
    }
    assert bits[..n] == bits;
  }

  lemma LastRunsAgree(a: seq<Run>, b: seq<Run>, bits: seq<bool>)
    requires RunsOf(a, bits) && RunsOf(b, bits) && a != [] && b != []
    ensures a[|a| - 1] == b[|b| - 1]
  {
    LastRunStart(a, bits);
    LastRunStart(b, bits);
    var ra, rb, last := a[|a| - 1], b[|b| - 1], |bits| - 1;
    assert bits[last] == ra.vision && bits[last] == rb.vision;
    assert ra.start > 0 ==> !(rb.start <= ra.start - 1);
    assert rb.start > 0 ==> !(ra.start <= rb.start - 1);
  }

  lemma DropLastRun(a: seq<Run>, bits: seq<bool>)
    requires RunsOf(a, bits) && a != []
    ensures a[|a| - 1].start <= |bits| && RunsOf(a[..|a| - 1], bits[..a[|a| - 1].start])
  {
    LastRunStart(a, bits);
    assert Decode(a[..|a| - 1]) == bits[..a[|a| - 1].start];
  }

  /** A mask has only one decomposition into maximal runs. */
  lemma {:induction false} RunsUnique(a: seq<Run>, b: seq<Run>, bits: seq<bool>)
    requires RunsOf(a, bits) && RunsOf(b, bits)
    ensures a == b
    decreases |a|
  {
    if a == [] {
      if b != [] { LastRunStart(b, bits); }
    } else if b == [] {
      LastRunStart(a, bits);
    } else {
      LastRunsAgree(a, b, bits);
      DropLastRun(a, bits);
      DropLastRun(b, bits);
      RunsUnique(a[..|a| - 1], b[..|b| - 1], bits[..a[|a| - 1].start]);
      assert a == a[..|a| - 1] + [a[|a| - 1]] && b == b[..|b| - 1] + [b[|b| - 1]];
    }
  }

  /** The last run fills the end of the bits and is preceded by the opposite bit. */
  lemma LastRunStart(a: seq<Run>, bits: seq<bool>)
    requires RunsOf(a, bits) && a != []
    ensures var r := a[|a| - 1];
      && r.len > 0 && r.start + r.len == |bits|
      && (forall p :: r.start <= p < |bits| ==> bits[p] == r.vision)
      && (r.start > 0 ==> bits[r.start - 1] != r.vision)
  {
    DecodeEnd(a);
    var m := |a| - 1;
    var front := a[..m];
    if m > 0 {
      DecodeEnd(front);
      assert Maximal(front);
      var q := front[m - 1];
      assert Decode(front) == Decode(front[..m - 1]) + seq(q.len, _ => q.vision);
      assert Decode(front)[|Decode(front)| - 1] == q.vision;
    } else {
      assert Decode(front) == [];
    }
  }

  // ---------------------------------------------------------------- patch groups

  /** Two neighbouring zeros strictly between `p` and `q`. */
  ghost predicate Gap(mask: seq<int>, p: int, q: int) {
    exists k :: p < k && k + 1 < q && 0 <= k && k + 1 < |mask| && mask[k] == 0 && mask[k + 1] == 0
  }

  /** The state of the group scan after the first `n` positions: closed groups, the open group and the
      number of zeros just read.  The open group closes at the second zero in a row. */
  datatype Scan = Scan(groups: seq<seq<nat>>, open: seq<nat>, zeros: nat)

  function ScanStep(s: Scan, value: int, at: nat): Scan {
    if value != 0 then Scan(s.groups, s.open + [at], 0)
    else if s.zeros == 1 && s.open != [] then Scan(s.groups + [s.open], [], 2)
    else s.(zeros := s.zeros + 1)
  }

  function ScanPrefix(mask: seq<int>, n: nat): Scan
    requires n <= |mask|
  {
    if n == 0 then Scan([], [], 0) else ScanStep(ScanPrefix(mask, n - 1), mask[n - 1], n - 1)
  }

  function PatchGroups(mask: seq<int>): seq<seq<nat>> {
    var s := ScanPrefix(mask, |mask|);
    if s.open == [] then s.groups else s.groups + [s.open]
  }

  /** Zeros are read in whole runs, so the group is closed when the run has ended. */
  method MakeVisualPatchGroups(mask: seq<int>) returns (groups: seq<seq<nat>>)
    ensures groups == PatchGroups(mask)
  {
    groups := [];
    var n := |mask|;
    if n <= 0 {
      return;
    }
    var cur: seq<nat> := [];
    var i := 0;
    while i < n
      invariant 0 <= i <= n
      invariant ScanPrefix(mask, i).groups == groups && ScanPrefix(mask, i).open == cur
      invariant i < n && mask[i] == 0 ==> ScanPrefix(mask, i).zeros == 0
      decreases n - i
    {
      if mask[i] == 0 {
        var z0 := i;
        while i < n && mask[i] == 0
          invariant z0 <= i <= n
          invariant i == z0 ==> mask[i] == 0
          invariant ScanPrefix(mask, i) ==
                    if i - z0 >= 2 && cur != [] then Scan(groups + [cur], [], i - z0) else Scan(groups, cur, i - z0)
        {
          i := i + 1;
        }
        var zeroRun := i - z0;
        if zeroRun >= 2 && cur != [] {
          groups := groups + [cur];
          cur := [];
        }
        continue;
      }
      while i < n && mask[i] != 0
        invariant 0 <= i <= n
        invariant ScanPrefix(mask, i).groups == groups && ScanPrefix(mask, i).open == cur
        invariant i > 0 && mask[i - 1] != 0 ==> ScanPrefix(mask, i).zeros == 0
        invariant i < n && mask[i] == 0 ==> i > 0 && mask[i - 1] != 0
      {
        cur := cur + [i];
        i := i + 1;
      }
    }
    if cur != [] {
      groups := groups + [cur];
    }
  }

  /** The group a position belongs to, if it is a vision position. */
  function GroupIndex(mask: seq<int>, p: nat): nat
    requires p <= |mask|
  {
    |ScanPrefix(mask, p).groups|
  }

  lemma {:induction false} ZerosAreTrailing(mask: seq<int>, n: nat)
    requires n <= |mask|
    ensures var z := ScanPrefix(mask, n).zeros;
      && z <= n
      && (forall k :: n - z <= k < n ==> mask[k] == 0)
      && (z < n ==> mask[n - z - 1] != 0)
  {
    if n > 0 {
      ZerosAreTrailing(mask, n - 1);
    }
  }

  lemma {:induction false} GroupIndexMonotone(mask: seq<int>, p: nat, q: nat)
    requires p <= q <= |mask|
    ensures GroupIndex(mask, p) <= GroupIndex(mask, q)
    decreases q
  {
    if p < q {
      GroupIndexMonotone(mask, p, q - 1);
    }
  }

  /** `s` lists the vision positions below `n` with group index `g`. */
  ghost predicate Lists(mask: seq<int>, n: nat, g: nat, s: seq<nat>)
    requires n <= |mask|
  {
    forall p: nat :: p in s <==> p < n && mask[p] != 0 && GroupIndex(mask, p) == g
  }

  lemma ListsSkip(mask: seq<int>, n: nat, g: nat, s: seq<nat>)
    requires n < |mask| && Lists(mask, n, g, s) && (mask[n] == 0 || GroupIndex(mask, n) != g)
    ensures Lists(mask, n + 1, g, s)
  {
  }

  lemma ListsAdd(mask: seq<int>, n: nat, g: nat, s: seq<nat>)
    requires n < |mask| && Lists(mask, n, g, s) && mask[n] != 0 && GroupIndex(mask, n) == g
    ensures Lists(mask, n + 1, g, s + [n])
  {
  }

  lemma ListsNothingYet(mask: seq<int>, n: nat, g: nat)
    requires n < |mask| && g > GroupIndex(mask, n)
    ensures Lists(mask, n + 1, g, [])
  {
    forall p: nat | p < n + 1 ensures GroupIndex(mask, p) < g {
      GroupIndexMonotone(mask, p, n);
    }
  }

  /** Each group lists the positions of its index. */
  ghost predicate ListsAll(mask: seq<int>, n: nat, groups: seq<seq<nat>>)
    requires n <= |mask|
  {
    forall g :: 0 <= g < |groups| ==> Lists(mask, n, g, groups[g])
  }

  lemma ListsAllSkip(mask: seq<int>, n: nat, groups: seq<seq<nat>>)
    requires n < |mask| && ListsAll(mask, n, groups) && |groups| <= GroupIndex(mask, n)
    ensures ListsAll(mask, n + 1, groups)
  {
    forall g | 0 <= g < |groups| ensures Lists(mask, n + 1, g, groups[g]) {
      ListsSkip(mask, n, g, groups[g]);
    }
  }

  ghost predicate ScanExact(mask: seq<int>, n: nat, s: Scan)
    requires n <= |mask|
  {
    Lists(mask, n, |s.groups|, s.open) && ListsAll(mask, n, s.groups)
  }

  lemma ScanMembersStep(mask: seq<int>, n: nat, s: Scan)
    requires n < |mask| && GroupIndex(mask, n) == |s.groups| && ScanExact(mask, n, s)
    ensures ScanExact(mask, n + 1, ScanStep(s, mask[n], n))
  {
    ListsAllSkip(mask, n, s.groups);
    if mask[n] != 0 {
      ListsAdd(mask, n, |s.groups|, s.open);
    } else {
      ListsSkip(mask, n, |s.groups|, s.open);
      ListsNothingYet(mask, n, |s.groups| + 1);
    }
  }

  /** What the scan has collected after `n` positions. */
  lemma {:induction false} ScanMembers(mask: seq<int>, n: nat)
    requires n <= |mask|
    ensures ScanExact(mask, n, ScanPrefix(mask, n))
  {
    if n > 0 {
      var s := ScanPrefix(mask, n - 1);
      ScanMembers(mask, n - 1);
      ScanMembersStep(mask, n - 1, s);
      assert ScanPrefix(mask, n) == ScanStep(s, mask[n - 1], n - 1);
    }
  }

  predicate Ascending(s: seq<nat>) {
    forall i, j :: 0 <= i < j < |s| ==> s[i] < s[j]
  }

  lemma {:induction false} ScanAscending(mask: seq<int>, n: nat)
    requires n <= |mask|
    ensures var s := ScanPrefix(mask, n);
      && Ascending(s.open) && (forall i :: 0 <= i < |s.open| ==> s.open[i] < n)
      && (forall g :: 0 <= g < |s.groups| ==> s.groups[g] != [] && Ascending(s.groups[g]))
  {
    if n > 0 {
      ScanAscending(mask, n - 1);
    }
  }

  /** The second of two zeros behind a vision position. */
  predicate EndsGap(mask: seq<int>, q: nat) {
    2 <= q < |mask| && mask[q - 2] != 0 && mask[q - 1] == 0 && mask[q] == 0
  }

  function GapsBefore(mask: seq<int>, p: nat): set<nat> {
    set q: nat | q < p && EndsGap(mask, q)
  }

  lemma OpenBehindVision(mask: seq<int>, n: nat)
    requires n <= |mask|
    ensures n >= 1 && mask[n - 1] != 0 ==> ScanPrefix(mask, n).open != [] && ScanPrefix(mask, n).zeros == 0
    ensures n >= 2 && mask[n - 2] != 0 && mask[n - 1] == 0 ==>
              ScanPrefix(mask, n).open != [] && ScanPrefix(mask, n).zeros == 1
    ensures n == 1 && mask[0] == 0 ==> ScanPrefix(mask, n).open == []
  {
    if n >= 2 {
      assert ScanPrefix(mask, n - 1) == ScanStep(ScanPrefix(mask, n - 2), mask[n - 2], n - 2);
    }
    if n == 1 {
      assert ScanPrefix(mask, 0) == Scan([], [], 0);
    }
  }

  lemma GroupIndexStep(mask: seq<int>, n: nat)
    requires n < |mask|
    ensures GroupIndex(mask, n + 1) == GroupIndex(mask, n) + if EndsGap(mask, n) then 1 else 0
  {
    ZerosAreTrailing(mask, n);
    OpenBehindVision(mask, n);
  }

  lemma GapsStep(mask: seq<int>, p: nat)
    ensures |GapsBefore(mask, p + 1)| == |GapsBefore(mask, p)| + if EndsGap(mask, p) then 1 else 0
  {
    assert GapsBefore(mask, p + 1) == GapsBefore(mask, p) + if EndsGap(mask, p) then {p} else {};
  }

  /** The index of the scan counts the gaps in front of a position. */
  lemma {:induction false} GroupIndexCountsGaps(mask: seq<int>, p: nat)
    requires p <= |mask|
    ensures GroupIndex(mask, p) == |GapsBefore(mask, p)|
  {
    if p == 0 {
      assert GapsBefore(mask, 0) == {};
    } else {
      GroupIndexCountsGaps(mask, p - 1);
      GroupIndexStep(mask, p - 1);
      GapsStep(mask, p - 1);
    }
  }

  /** The groups list exactly the vision positions, each in the group of its index, in order. */
  lemma PatchGroupsExact(mask: seq<int>)
    ensures ListsAll(mask, |mask|, PatchGroups(mask))
    ensures forall p: nat :: p < |mask| && mask[p] != 0 ==> GroupIndex(mask, p) < |PatchGroups(mask)|
    ensures forall g :: 0 <= g < |PatchGroups(mask)| ==> PatchGroups(mask)[g] != [] && Ascending(PatchGroups(mask)[g])
  {
    var n := |mask|;
    var s := ScanPrefix(mask, n);
    ScanMembers(mask, n);
    ScanAscending(mask, n);
    forall p: nat | p < n && mask[p] != 0 ensures GroupIndex(mask, p) < |PatchGroups(mask)| {
      GroupIndexMonotone(mask, p, n);
    }
  }

  /** Group `g` lists, in order, exactly the vision positions with `g` gaps in front of them; none is empty and
      no vision position is left out. */
  lemma GroupsCountGaps(mask: seq<int>)
    ensures var groups := PatchGroups(mask);
      && (forall g, p: nat :: 0 <= g < |groups| ==>
            (p in groups[g] <==> p < |mask| && mask[p] != 0 && |GapsBefore(mask, p)| == g))
      && (forall g :: 0 <= g < |groups| ==> groups[g] != [] && Ascending(groups[g]))
      && (forall p: nat :: p < |mask| && mask[p] != 0 ==> |GapsBefore(mask, p)| < |groups|)
  {
    PatchGroupsExact(mask);
    forall p: nat | p < |mask|
      ensures GroupIndex(mask, p) == |GapsBefore(mask, p)|
    {
      GroupIndexCountsGaps(mask, p);
    }
  }

  lemma GapStep(mask: seq<int>, p: nat, n: nat)
    requires p < n < |mask|
    ensures Gap(mask, p, n + 1) <==> Gap(mask, p, n) || (p < n - 1 && mask[n - 1] == 0 && mask[n] == 0)
  {
  }

  /** The open group closes at the second of two neighbouring zeros. */
  lemma ClosesAtSecondZero(mask: seq<int>, p: nat, n: nat)
    requires p < n < |mask| && mask[p] != 0 && p in ScanPrefix(mask, n).open
    requires !Gap(mask, p, n)
    ensures GroupIndex(mask, n + 1) > GroupIndex(mask, n) <==> p < n - 1 && mask[n - 1] == 0 && mask[n] == 0
  {
  }

  lemma OpenUntilGapStep(mask: seq<int>, p: nat, n: nat)
    requires p < n < |mask| && mask[p] != 0
    requires Gap(mask, p, n) <==> GroupIndex(mask, n) > GroupIndex(mask, p)
    ensures Gap(mask, p, n + 1) <==> GroupIndex(mask, n + 1) > GroupIndex(mask, p)
  {
    GroupIndexMonotone(mask, p, n);
    GroupIndexMonotone(mask, n, n + 1);
    GapStep(mask, p, n);
    if !Gap(mask, p, n) {
      ScanMembers(mask, n);
      assert p in ScanPrefix(mask, n).open;
      ClosesAtSecondZero(mask, p, n);
    }
  }

  /** From a vision position on, the group stays open until two neighbouring zeros have been read. */
  lemma {:induction false} OpenUntilGap(mask: seq<int>, p: nat, n: nat)
    requires p < n <= |mask| && mask[p] != 0
    ensures Gap(mask, p, n) <==> GroupIndex(mask, n) > GroupIndex(mask, p)
    decreases n
  {
    if n == p + 1 {
      assert ScanPrefix(mask, n) == ScanStep(ScanPrefix(mask, p), mask[p], p);
    } else {
      OpenUntilGap(mask, p, n - 1);
      OpenUntilGapStep(mask, p, n - 1);
    }
  }

  /** Two vision positions share a group if and only if no two neighbouring zeros lie between them. */
  lemma SameGroupIffNoGap(mask: seq<int>, p: nat, q: nat)
    requires p < q < |mask| && mask[p] != 0 && mask[q] != 0
    ensures GroupIndex(mask, p) == GroupIndex(mask, q) <==> !Gap(mask, p, q)
    ensures GroupIndex(mask, p) <= GroupIndex(mask, q)
  {
    OpenUntilGap(mask, p, q);
    GroupIndexMonotone(mask, p, q);
  }

  // ---------------------------------------------------------------- attention mask

  /** Both positions are in the same group. */
  ghost predicate Together(groups: seq<seq<nat>>, r: nat, c: nat) {
    exists g :: 0 <= g < |groups| && r in groups[g] && c in groups[g]
  }

  ghost predicate Grouped(groups: seq<seq<nat>>, p: nat) {
    exists g :: 0 <= g < |groups| && p in groups[g]
  }

  /** Set the entries for all pairs of listed positions. */
  method SetPairs(mask: array2<bool>, list: seq<nat>, value: bool)
    requires forall i :: 0 <= i < |list| ==> list[i] < mask.Length0 && list[i] < mask.Length1
    modifies mask
    ensures forall r: nat, c: nat :: r < mask.Length0 && c < mask.Length1 ==>
              mask[r, c] == if r in list && c in list then value else old(mask[r, c])
  {
    for i := 0 to |list|
      invariant forall r: nat, c: nat :: r < mask.Length0 && c < mask.Length1 ==>
        mask[r, c] == if r in list[..i] && c in list then value else old(mask[r, c])
    {
      for j := 0 to |list|
        invariant forall r: nat, c: nat :: r < mask.Length0 && c < mask.Length1 ==>
          mask[r, c] == if (r in list[..i] && c in list) || (r == list[i] && c in list[..j])
                        then value else old(mask[r, c])
      {
        mask[list[i], list[j]] := value;
        assert list[..j + 1] == list[..j] + [list[j]];
      }
      assert list[..|list|] == list;
      assert list[..i + 1] == list[..i] + [list[i]];
    }
    assert list[..|list|] == list;
  }

  /** `true` stands for 0 (attend), `false` for minus infinity (blocked).  Without groups the mask is
      causal; with groups all pairs of grouped positions are blocked and then each group is opened. */
  method MakePrefixMask(n: nat, withGroups: bool, groups: seq<seq<nat>>) returns (mask: array2<bool>)
    requires forall g, i :: 0 <= g < |groups| && 0 <= i < |groups[g]| ==> groups[g][i] < n
    ensures fresh(mask) && mask.Length0 == n && mask.Length1 == n
    ensures forall r: nat, c: nat :: r < n && c < n ==>
              mask[r, c] == if withGroups && Grouped(groups, r) && Grouped(groups, c) then Together(groups, r, c)
                            else c <= r
  {
    mask := new bool[n, n]((r, c) => c <= r);
    if withGroups {
      var all: seq<nat> := [];
      for g := 0 to |groups|
        invariant forall p: nat :: p in all <==> exists k :: 0 <= k < g && p in groups[k]
        invariant forall i :: 0 <= i < |all| ==> all[i] < n
      {
        all := all + groups[g];
      }
      SetPairs(mask, all, false);
      for g := 0 to |groups|
        invariant forall r: nat, c: nat :: r < n && c < n ==>
          mask[r, c] == if Grouped(groups, r) && Grouped(groups, c)
                        then exists k :: 0 <= k < g && r in groups[k] && c in groups[k]
                        else c <= r
      {
        SetPairs(mask, groups[g], true);
      }
    }
  }

  /** Vision positions of one image: both vision, with no two neighbouring zeros between them. */
  ghost predicate SameImage(mask: seq<int>, r: nat, c: nat)
    requires r < |mask| && c < |mask|
  {
    && mask[r] != 0 && mask[c] != 0
    && !Gap(mask, r, c) && !Gap(mask, c, r)
  }

  lemma GroupedIsVision(mask: seq<int>, p: nat)
    requires p < |mask|
    ensures Grouped(PatchGroups(mask), p) <==> mask[p] != 0
  {
    PatchGroupsExact(mask);
    if mask[p] != 0 {
      assert p in PatchGroups(mask)[GroupIndex(mask, p)];
    }
  }

  lemma TogetherIsSameImage(mask: seq<int>, r: nat, c: nat)
    requires r < |mask| && c < |mask|
    ensures Together(PatchGroups(mask), r, c) <==> SameImage(mask, r, c)
  {
    PatchGroupsExact(mask);
    var groups := PatchGroups(mask);
    if mask[r] != 0 && mask[c] != 0 {
      assert Together(groups, r, c) <==> GroupIndex(mask, r) == GroupIndex(mask, c) by {
        if GroupIndex(mask, r) == GroupIndex(mask, c) {
          assert r in groups[GroupIndex(mask, r)] && c in groups[GroupIndex(mask, r)];
        }
      }
      if r < c {
        SameGroupIffNoGap(mask, r, c);
      } else if c < r {
        SameGroupIffNoGap(mask, c, r);
      }
    }
  }

  /** The mask of the joint run: patches of one image see each other in both directions, patches of
      different images do not see each other, everything else is causal.  Every position sees itself. */
  method MakeJointMask(modality: seq<int>) returns (mask: array2<bool>)
    ensures mask.Length0 == |modality| && mask.Length1 == |modality|
    ensures forall r: nat, c: nat :: r < |modality| && c < |modality| ==>
              mask[r, c] == if modality[r] != 0 && modality[c] != 0 then SameImage(modality, r, c) else c <= r
    ensures forall p: nat :: p < |modality| ==> mask[p, p]
  {
    var groups := MakeVisualPatchGroups(modality);
    PatchGroupsExact(modality);
    forall g, i | 0 <= g < |groups| && 0 <= i < |groups[g]| ensures groups[g][i] < |modality| {
      assert groups[g][i] in groups[g];
    }
    mask := MakePrefixMask(|modality|, true, groups);
    forall r: nat, c: nat | r < |modality| && c < |modality|
      ensures mask[r, c] == if modality[r] != 0 && modality[c] != 0 then SameImage(modality, r, c) else c <= r
    {
      GroupedIsVision(modality, r);
      GroupedIsVision(modality, c);
      TogetherIsSameImage(modality, r, c);
    }
  }

  // ---------------------------------------------------------------- override segments

  datatype Range = Range(start: nat, end: nat)

  /** Non-empty, in order and disjoint, all below `n`. */
  predicate OrderedRanges(rs: seq<Range>, n: nat) {
    && (forall k :: 0 <= k < |rs| ==> rs[k].start < rs[k].end <= n)
    && (forall j, k :: 0 <= j < k < |rs| ==> rs[j].end <= rs[k].start)
  }

  /** Non-empty, in order and with at least one position between any two. */
  predicate ApartRanges(rs: seq<Range>, n: int) {
    && (forall k :: 0 <= k < |rs| ==> rs[k].start < rs[k].end <= n)
    && (forall j, k :: 0 <= j < k < |rs| ==> rs[j].end < rs[k].start)
  }

  ghost predicate Covered(rs: seq<Range>, p: nat) {
    exists k :: 0 <= k < |rs| && rs[k].start <= p < rs[k].end
  }

  lemma ApartFront(a: seq<Range>, b: seq<Range>, n: int)
    requires ApartRanges(a, n) && ApartRanges(b, n) && a != [] && b != []
    requires forall p: nat :: Covered(a, p) <==> Covered(b, p)
    ensures a[0] == b[0]
  {
    var r, s := a[0], b[0];
    assert Covered(a, r.start) && Covered(b, s.start);
    assert Covered(a, r.end - 1) && Covered(b, s.end - 1);
    assert !Covered(a, r.end) && !Covered(b, s.end);
  }

  lemma CoveredTail(a: seq<Range>, n: int, p: nat)
    requires ApartRanges(a, n) && a != []
    ensures ApartRanges(a[1..], n)
    ensures Covered(a[1..], p) <==> Covered(a, p) && p >= a[0].end
  {
    if Covered(a, p) && p >= a[0].end {
      var k :| 0 <= k < |a| && a[k].start <= p < a[k].end;
      assert a[1..][k - 1] == a[k];
    }
  }

  /** Ranges that lie apart are determined by the positions they cover. */
  lemma {:induction false} ApartRangesUnique(a: seq<Range>, b: seq<Range>, n: int)
    requires ApartRanges(a, n) && ApartRanges(b, n)
    requires forall p: nat :: Covered(a, p) <==> Covered(b, p)
    ensures a == b
    decreases |a|
  {
    if a == [] {
      assert b != [] ==> Covered(b, b[0].start);
    } else {
      assert Covered(a, a[0].start);
      ApartFront(a, b, n);
      forall p: nat
        ensures Covered(a[1..], p) <==> Covered(b[1..], p)
      {
        CoveredTail(a, n, p);
        CoveredTail(b, n, p);
      }
      CoveredTail(a, n, 0);
      CoveredTail(b, n, 0);
      ApartRangesUnique(a[1..], b[1..], n);
      assert a == [a[0]] + a[1..] && b == [b[0]] + b[1..];
    }
  }

  /** Whole zero runs of length two or more, by position. */
  predicate Separates(mask: seq<int>, p: nat)
    requires p < |mask|
  {
    mask[p] == 0 && ((p > 0 && mask[p - 1] == 0) || (p + 1 < |mask| && mask[p + 1] == 0))
  }

  /** A whole run of at least two zeros. */
  predicate IsSeparator(mask: seq<int>, r: Range) {
    && r.start + 2 <= r.end <= |mask|
    && (forall p :: r.start <= p < r.end ==> mask[p] == 0)
    && (r.start > 0 ==> mask[r.start - 1] != 0)
    && (r.end < |mask| ==> mask[r.end] != 0)
  }

  /** All separators that end by position `n`, in order. */
  ghost predicate SeparatorsOf(seps: seq<Range>, mask: seq<int>, n: nat)
    requires n <= |mask|
  {
    && OrderedRanges(seps, n)
    && (forall k :: 0 <= k < |seps| ==> IsSeparator(mask, seps[k]))
    && (forall p: nat :: p < n && Separates(mask, p) ==> Covered(seps, p))
  }

  lemma AppendRange(rs: seq<Range>, n: nat, r: Range)
    requires OrderedRanges(rs, n) && n <= r.start < r.end
    ensures OrderedRanges(rs + [r], r.end)
  {
  }

  lemma ZeroRunCovered(mask: seq<int>, seps: seq<Range>, r: Range, p: nat)
    requires r.start < r.end <= |mask| && SeparatorsOf(seps, mask, r.start) && p < r.end && Separates(mask, p)
    requires r.start > 0 ==> mask[r.start - 1] != 0
    requires r.end < |mask| ==> mask[r.end] != 0
    ensures r.end - r.start >= 2 ==> Covered(seps + [r], p)
    ensures r.end - r.start < 2 ==> Covered(seps, p)
  {
    if p < r.start {
      CoveredExtends(seps, seps + [r], p);
    } else if r.end - r.start >= 2 {
      assert (seps + [r])[|seps|] == r;
    }
  }

  /** Account for a whole run of zeros. */
  lemma AddZeroRun(mask: seq<int>, seps: seq<Range>, start: nat, end: nat)
    requires start < end <= |mask| && SeparatorsOf(seps, mask, start)
    requires forall p :: start <= p < end ==> mask[p] == 0
    requires start > 0 ==> mask[start - 1] != 0
    requires end < |mask| ==> mask[end] != 0
    ensures end - start >= 2 ==> SeparatorsOf(seps + [Range(start, end)], mask, end)
    ensures end - start < 2 ==> SeparatorsOf(seps, mask, end)
  {
    var r := Range(start, end);
    AppendRange(seps, start, r);
    forall p: nat | p < end && Separates(mask, p)
      ensures end - start >= 2 ==> Covered(seps + [r], p)
      ensures end - start < 2 ==> Covered(seps, p)
    {
      ZeroRunCovered(mask, seps, r, p);
    }
  }

  lemma CoveredExtends(a: seq<Range>, b: seq<Range>, p: nat)
    requires a <= b && Covered(a, p)
    ensures Covered(b, p)
  {
  }

  method FindSeparators(mask: seq<int>) returns (seps: seq<Range>)
    ensures SeparatorsOf(seps, mask, |mask|)
  {
    seps := [];
    var n := |mask|;
    var i := 0;
    while i < n
      invariant 0 <= i <= n
      invariant SeparatorsOf(seps, mask, i)
      invariant i < n && mask[i] == 0 && i > 0 ==> mask[i - 1] != 0
      decreases n - i
    {
      if mask[i] != 0 {
        assert !Separates(mask, i);
        i := i + 1;
        continue;
      }
      var start := i;
      while i < n && mask[i] == 0
        invariant start <= i <= n
        invariant i == start ==> mask[i] == 0
        invariant forall p :: start <= p < i ==> mask[p] == 0
      {
        i := i + 1;
      }
      AddZeroRun(mask, seps, start, i);
      if i - start >= 2 {
        seps := seps + [Range(start, i)];
      }
    }
  }

  /** In a segment: not a zero whose left neighbour is zero, and at the left end not a zero followed by one. */
  predicate Overridden(mask: seq<int>, p: nat)
    requires p < |mask|
  {
    if p > 0 then mask[p] != 0 || mask[p - 1] != 0
    else mask[0] != 0 || (1 < |mask| && mask[1] != 0)
  }

  lemma OutsideSeparators(mask: seq<int>, seps: seq<Range>, p: nat)
    requires |mask| > 1 && p < |mask| && SeparatorsOf(seps, mask, |mask|) && !Covered(seps, p)
    ensures Overridden(mask, p)
  {
  }

  lemma InsideSeparator(mask: seq<int>, seps: seq<Range>, k: nat, p: nat)
    requires SeparatorsOf(seps, mask, |mask|) && k < |seps| && seps[k].start <= p < seps[k].end
    ensures Overridden(mask, p) <==> p == seps[k].start && p > 0
  {
  }

  /** A position between the end of one separator and the start of the next is in none. */
  lemma BetweenSeparators(seps: seq<Range>, n: nat, k: nat, p: nat)
    requires OrderedRanges(seps, n) && k <= |seps|
    requires k > 0 ==> seps[k - 1].end <= p
    requires k < |seps| ==> p < seps[k].start
    ensures !Covered(seps, p)
  {
  }

  /** Segments known up to `from` stay as they are; a new one, if any, lies behind. */
  lemma AppendSegment(segments: seq<Range>, from: nat, r: Range, p: nat)
    requires ApartRanges(segments, from - 1) && from <= r.start < r.end
    ensures ApartRanges(segments + [r], r.end)
    ensures Covered(segments + [r], p) <==> Covered(segments, p) || r.start <= p < r.end
    ensures Covered(segments, p) ==> p < from
  {
    var all := segments + [r];
    if Covered(segments, p) {
      var k :| 0 <= k < |segments| && segments[k].start <= p < segments[k].end;
      assert all[k] == segments[k];
    }
    assert all[|segments|] == r;
  }

  /** The gap in front of a separator makes a segment that reaches one position into it. */
  function AfterSeparator(before: seq<Range>, from: nat, sep: Range): seq<Range> {
    if sep.start > from then before + [Range(from, sep.start + 1)] else before
  }

  lemma FromBelowSeparator(mask: seq<int>, seps: seq<Range>, k: nat, from: nat)
    requires |mask| > 1 && SeparatorsOf(seps, mask, |mask|) && k < |seps|
    requires from == (if k == 0 then 0 else seps[k - 1].end)
    ensures from <= seps[k].start
  {
  }

  /** One separator: the segments are right up to its end. */
  lemma SegmentStep(mask: seq<int>, seps: seq<Range>, k: nat, from: nat, before: seq<Range>, p: nat)
    requires |mask| > 1 && SeparatorsOf(seps, mask, |mask|) && k < |seps|
    requires from == (if k == 0 then 0 else seps[k - 1].end)
    requires ApartRanges(before, from - 1)
    requires p < from ==> (Covered(before, p) <==> Overridden(mask, p))
    requires p < seps[k].end
    ensures ApartRanges(AfterSeparator(before, from, seps[k]), seps[k].end - 1)
    ensures Covered(AfterSeparator(before, from, seps[k]), p) <==> Overridden(mask, p)
  {
    var sep := seps[k];
    FromBelowSeparator(mask, seps, k, from);
    if sep.start > from {
      AppendSegment(before, from, Range(from, sep.start + 1), p);
    }
    if p >= sep.start {
      InsideSeparator(mask, seps, k, p);
    } else if p >= from {
      BetweenSeparators(seps, |mask|, k, p);
      OutsideSeparators(mask, seps, p);
    }
  }

  /** The segments found so far are right for all positions below `from`. */
  ghost predicate SegmentsUpTo(mask: seq<int>, segments: seq<Range>, from: nat, limit: int)
    requires from <= |mask|
  {
    && ApartRanges(segments, limit)
    && forall p: nat :: p < from ==> (Covered(segments, p) <==> Overridden(mask, p))
  }

  lemma NextSegment(mask: seq<int>, seps: seq<Range>, k: nat, from: nat, segments: seq<Range>)
    requires |mask| > 1 && SeparatorsOf(seps, mask, |mask|) && k < |seps|
    requires from == (if k == 0 then 0 else seps[k - 1].end) && from <= |mask|
    requires SegmentsUpTo(mask, segments, from, from - 1)
    ensures from <= seps[k].start < seps[k].end <= |mask|
    ensures seps[k].start > from ==>
              SegmentsUpTo(mask, segments + [Range(from, seps[k].start + 1)], seps[k].end, seps[k].end - 1)
    ensures seps[k].start == from ==> SegmentsUpTo(mask, segments, seps[k].end, seps[k].end - 1)
  {
    FromBelowSeparator(mask, seps, k, from);
    SegmentStep(mask, seps, k, from, segments, seps[k].start);
    forall p: nat | p < seps[k].end
      ensures Covered(AfterSeparator(segments, from, seps[k]), p) <==> Overridden(mask, p)
    {
      SegmentStep(mask, seps, k, from, segments, p);
    }
  }

  lemma LastSegment(mask: seq<int>, seps: seq<Range>, from: nat, segments: seq<Range>)
    requires |mask| > 1 && SeparatorsOf(seps, mask, |mask|)
    requires from == (if seps == [] then 0 else seps[|seps| - 1].end) && from < |mask|
    requires SegmentsUpTo(mask, segments, from, from - 1)
    ensures SegmentsUpTo(mask, segments + [Range(from, |mask|)], |mask|, |mask|)
  {
    var r := Range(from, |mask|);
    AppendSegment(segments, from, r, 0);
    forall p: nat | p < |mask| ensures Covered(segments + [r], p) <==> Overridden(mask, p) {
      AppendSegment(segments, from, r, p);
      if p >= from {
        BetweenSeparators(seps, |mask|, |seps|, p);
        OutsideSeparators(mask, seps, p);
      }
    }
  }

  method SegmentsBetween(mask: seq<int>, seps: seq<Range>) returns (segments: seq<Range>)
    requires |mask| > 1 && SeparatorsOf(seps, mask, |mask|)
    ensures SegmentsUpTo(mask, segments, |mask|, |mask|)
  {
    segments := [];
    var n := |mask|;
    var segStart := 0;
    for k := 0 to |seps|
      invariant segStart == (if k == 0 then 0 else seps[k - 1].end) && segStart <= n
      invariant SegmentsUpTo(mask, segments, segStart, segStart - 1)
    {
      NextSegment(mask, seps, k, segStart, segments);
      var last := seps[k].start - 1;
      if last >= segStart {
        var end := if n < last + 2 then n else last + 2;
        segments := segments + [Range(segStart, end)];
      }
      segStart := seps[k].end;
    }
    if segStart < n {
      LastSegment(mask, seps, segStart, segments);
      segments := segments + [Range(segStart, n)];
    }
  }

  /** The stretches between separators, each with the first zero of the separator behind it. */
  method MakeVisualOverrideSegments(mask: seq<int>) returns (segments: seq<Range>)
    ensures |mask| <= 1 ==> segments == []
    ensures ApartRanges(segments, |mask|)
    ensures |mask| > 1 ==> forall p: nat :: p < |mask| ==> (Covered(segments, p) <==> Overridden(mask, p))
  {
    if |mask| <= 1 {
      return [];
    }
    var seps := FindSeparators(mask);
    segments := SegmentsBetween(mask, seps);
    segments := DropEmpty(segments, |mask|);
  }

  /** The final filter removes empty ranges; there are none. */
  method DropEmpty(segments: seq<Range>, ghost n: int) returns (out: seq<Range>)
    requires ApartRanges(segments, n)
    ensures out == segments
  {
    out := [];
    for k := 0 to |segments|
      invariant out == segments[..k]
    {
      if segments[k].end > segments[k].start {
        out := out + [segments[k]];
      }
    }
  }
}
