/** Two-stage pruning of image tokens: keep the most attended ones, then drop the most
    similar pairs of the rest.  Embeddings and attention weights are flat row-major buffers. */
module VisPruner {
  import opened Common
  import opened VisSimilarity

  datatype Outcome =
    | Unchanged      // a guard rejected the request; the buffer is left alone
    | LengthError    // reserve() was asked for a negative size; the buffer is left alone
    | Pruned

  // ---------------------------------------------------------------- rankings

  predicate Distinct(s: seq<nat>) {
    forall i, j :: 0 <= i < j < |s| ==> s[i] != s[j]
  }

  predicate Descending(order: seq<nat>, keys: seq<real>)
    requires forall i :: 0 <= i < |order| ==> order[i] < |keys|
  {
    forall i, j :: 0 <= i < j < |order| ==> keys[order[i]] >= keys[order[j]]
  }

  /** `order` lists every index of `keys` once, largest key first; ties come in any order. */
  ghost predicate Ranks(order: seq<nat>, keys: seq<real>) {
    && |order| == |keys|
    && (forall i :: 0 <= i < |order| ==> order[i] < |keys|)
    && (forall p: nat :: p < |keys| ==> p in order)
    && Distinct(order)
    && Descending(order, keys)
  }

  /** Ranking of the first `n` keys only. */
  ghost predicate RanksFirst(order: seq<nat>, keys: seq<real>, n: nat)
    requires n <= |keys|
  {
    && |order| == n
    && (forall i :: 0 <= i < |order| ==> order[i] < n)
    && (forall p: nat :: p < n ==> p in order)
    && Distinct(order)
    && Descending(order, keys)
  }

  function InsertAt(s: seq<nat>, x: nat, k: nat): (t: seq<nat>)
    requires k <= |s|
    ensures |t| == |s| + 1 && t[k] == x
    ensures forall i :: 0 <= i < k ==> t[i] == s[i]
    ensures forall i :: k < i < |t| ==> t[i] == s[i - 1]
  {
    s[..k] + [x] + s[k..]
  }

  lemma InsertMembers(s: seq<nat>, x: nat, k: nat, p: nat)
    requires k <= |s|
    ensures p in InsertAt(s, x, k) <==> p in s || p == x
  {
  }

  lemma InsertDescending(order: seq<nat>, keys: seq<real>, n: nat, k: nat)
    requires n < |keys| && RanksFirst(order, keys, n) && k <= n
    requires forall i :: k <= i < n ==> keys[order[i]] < keys[n]
    requires k == 0 || keys[order[k - 1]] >= keys[n]
    ensures forall i :: 0 <= i < n + 1 ==> InsertAt(order, n, k)[i] < |keys|
    ensures Descending(InsertAt(order, n, k), keys) && Distinct(InsertAt(order, n, k))
  {
  }

  lemma InsertRank(order: seq<nat>, keys: seq<real>, n: nat, k: nat)
    requires n < |keys| && RanksFirst(order, keys, n) && k <= n
    requires forall i :: k <= i < n ==> keys[order[i]] < keys[n]
    requires k == 0 || keys[order[k - 1]] >= keys[n]
    ensures RanksFirst(InsertAt(order, n, k), keys, n + 1)
  {
    InsertDescending(order, keys, n, k);
    forall p: nat | p < n + 1 ensures p in InsertAt(order, n, k) {
      InsertMembers(order, n, k, p);
    }
  }

  /** std::sort of the indices with a greater-than comparison. */
  method SortDescending(keys: seq<real>) returns (order: seq<nat>)
    ensures Ranks(order, keys)
  {
    order := [];
    for n := 0 to |keys|
      invariant RanksFirst(order, keys, n)
    {
      var k := n;
      while 0 < k && keys[order[k - 1]] < keys[n]
        invariant 0 <= k <= n
        invariant forall i :: k <= i < n ==> keys[order[i]] < keys[n]
      {
        k := k - 1;
      }
      InsertRank(order, keys, n, k);
      order := InsertAt(order, n, k);
    }
  }

  predicate Increasing(s: seq<nat>) {
    forall i, j :: 0 <= i < j < |s| ==> s[i] < s[j]
  }

  lemma InsertedContents(s: seq<nat>, x: nat, k: nat)
    requires k <= |s|
    ensures multiset(InsertAt(s, x, k)) == multiset(s) + multiset{x}
  {
    assert s == s[..k] + s[k..];
  }

  lemma InsertIncreasing(s: seq<nat>, x: nat, k: nat)
    requires Increasing(s) && k <= |s|
    requires forall i :: 0 <= i < k ==> s[i] < x
    requires k < |s| ==> x < s[k]
    ensures Increasing(InsertAt(s, x, k))
    ensures multiset(InsertAt(s, x, k)) == multiset(s) + multiset{x}
  {
    InsertedContents(s, x, k);
    var t := InsertAt(s, x, k);
    forall i, j | 0 <= i < j < |t| ensures t[i] < t[j] {
      if i < k && j > k {
        assert s[i] < x < s[k] <= s[j - 1];
      }
    }
  }

  lemma NextIsNew(s: seq<nat>, sorted: seq<nat>, n: nat, k: nat)
    requires Distinct(s) && n < |s| && k < |sorted| && multiset(sorted) == multiset(s[..n])
    ensures sorted[k] != s[n]
  {
    assert sorted[k] in multiset(sorted);
    assert sorted[k] in s[..n];
  }

  /** std::sort of the selected indices themselves. */
  method SortIncreasing(s: seq<nat>) returns (sorted: seq<nat>)
    requires Distinct(s)
    ensures multiset(sorted) == multiset(s)
    ensures Increasing(sorted)
  {
    sorted := [];
    for n := 0 to |s|
      invariant multiset(sorted) == multiset(s[..n])
      invariant Increasing(sorted)
    {
      var k := 0;
      while k < |sorted| && sorted[k] < s[n]
        invariant 0 <= k <= |sorted|
        invariant forall i :: 0 <= i < k ==> sorted[i] < s[n]
      {
        k := k + 1;
      }
      if k < |sorted| {
        NextIsNew(s, sorted, n, k);
      }
      InsertIncreasing(sorted, s[n], k);
      assert s[..n + 1] == s[..n] + [s[n]];
      sorted := InsertAt(sorted, s[n], k);
    }
    assert s[..|s|] == s;
  }

  // ---------------------------------------------------------------- stage 1: importance

  lemma IndexBound(row: nat, rows: nat, n: nat, p: nat)
    requires row < rows && p < n
    ensures 0 <= row * n + p < rows * n
  {
    assert (row + 1) * n <= rows * n by {
      var d := rows - (row + 1);
      assert rows * n == (row + 1) * n + d * n;
    }
  }

  /** Attention paid to token `p` by the first `rows` queries, over all heads in order. */
  function Received(attn: seq<real>, n: nat, p: nat, rows: nat): real
    requires p < n && rows * n <= |attn|
  {
    if rows == 0 then 0.0
    else
      IndexBound(rows - 1, rows, n, p);
      Received(attn, n, p, rows - 1) + attn[(rows - 1) * n + p]
  }

  /** Mean attention received by each token over `rows` = heads * n query rows. */
  lemma QueryIndex(h: nat, q: nat, n: nat, p: nat)
    ensures (h * n + q) * n + p == h * (n * n) + q * n + p
  {
    assert (h * n) * n == h * (n * n);
  }

  /** Query `q` of head `h` adds the attention it pays to token `p`. */
  lemma ReceivedFromQuery(attn: seq<real>, n: nat, p: nat, h: nat, q: nat)
    requires p < n && q < n && (h * n + q + 1) * n <= |attn|
    ensures (h * n + q) * n <= |attn| && h * (n * n) + q * n + p < |attn|
    ensures Received(attn, n, p, h * n + q + 1) ==
            Received(attn, n, p, h * n + q) + attn[h * (n * n) + q * n + p]
  {
    QueryIndex(h, q, n, p);
    var row := h * n + q;
    IndexBound(row, row + 1, n, p);
    assert (row + 1) * n == row * n + n;
    assert Received(attn, n, p, row + 1) == Received(attn, n, p, row) + attn[row * n + p];
  }

  ghost predicate MeanAttention(importance: seq<real>, attn: seq<real>, n: nat, rows: nat)
    requires rows * n <= |attn|
  {
    && |importance| == n
    && forall p :: 0 <= p < n ==> importance[p] * rows as real == Received(attn, n, p, rows)
  }

  /** One query row added to the running sums. */
  method AddRow(sum: array<real>, attn: seq<real>, n: nat, base: nat, ghost row: nat)
    requires sum.Length == n && base == row * n && (row + 1) * n <= |attn|
    requires forall p :: 0 <= p < n ==> sum[p] == Received(attn, n, p, row)
    modifies sum
    ensures forall p :: 0 <= p < n ==> sum[p] == Received(attn, n, p, row + 1)
  {
    for p := 0 to n
      invariant forall k :: 0 <= k < p ==> sum[k] == Received(attn, n, k, row + 1)
      invariant forall k :: p <= k < n ==> sum[k] == Received(attn, n, k, row)
    {
      IndexBound(row, row + 1, n, p);
      sum[p] := sum[p] + attn[base + p];
    }
  }

  /** All query rows of one head. */
  method AddHead(sum: array<real>, attn: seq<real>, n: nat, base: nat, ghost first: nat)
    requires sum.Length == n && base == first * n && (first + n) * n <= |attn|
    requires forall p :: 0 <= p < n ==> sum[p] == Received(attn, n, p, first)
    modifies sum
    ensures forall p :: 0 <= p < n ==> sum[p] == Received(attn, n, p, first + n)
  {
    for q := 0 to n
      invariant (first + q) * n <= |attn|
      invariant forall p :: 0 <= p < n ==> sum[p] == Received(attn, n, p, first + q)
    {
      RowFits(first, q, n);
      AddRow(sum, attn, n, base + q * n, first + q);
    }
  }

  lemma RowFits(first: nat, q: nat, n: nat)
    requires q < n
    ensures first * n + q * n == (first + q) * n
    ensures (first + q + 1) * n <= (first + n) * n
  {
  }

  lemma HeadFits(h: nat, heads: nat, n: nat)
    requires h < heads
    ensures h * n + n == (h + 1) * n
    ensures (h * n + n) * n <= (heads * n) * n
    ensures h * n * n == (h * n) * n
  {
  }

  method ScaleInPlace(a: array<real>, c: real)
    modifies a
    ensures forall p :: 0 <= p < a.Length ==> a[p] == old(a[p]) * c
  {
    for p := 0 to a.Length
      invariant forall k :: 0 <= k < p ==> a[k] == old(a[k]) * c
      invariant forall k :: p <= k < a.Length ==> a[k] == old(a[k])
    {
      a[p] := a[p] * c;
    }
  }

  method SumHeads(attn: seq<real>, n: nat, heads: nat) returns (sum: array<real>)
    requires (heads * n) * n <= |attn|
    ensures fresh(sum) && sum.Length == n
    ensures forall p :: 0 <= p < n ==> sum[p] == Received(attn, n, p, heads * n)
  {
    sum := new real[n](_ => 0.0);
    var rows := 0;
    for h := 0 to heads
      invariant rows == h * n && rows * n <= |attn|
      invariant forall p :: 0 <= p < n ==> sum[p] == Received(attn, n, p, rows)
    {
      HeadFits(h, heads, n);
      AddHead(sum, attn, n, h * n * n, rows);
      rows := rows + n;
    }
  }

  method Importance(attn: seq<real>, n: nat, heads: nat) returns (importance: seq<real>)
    requires heads * n >= 1 && (heads * n) * n <= |attn|
    ensures MeanAttention(importance, attn, n, heads * n)
  {
    var sum := SumHeads(attn, n, heads);
    ghost var total := sum[..];
    var rows := heads * n;
    ScaleInPlace(sum, 1.0 / rows as real);
    importance := sum[..];
    MeansOf(importance, total, attn, n, rows);
  }

  lemma MeansOf(importance: seq<real>, total: seq<real>, attn: seq<real>, n: nat, rows: nat)
    requires rows >= 1 && rows * n <= |attn| && |importance| == |total| == n
    requires forall p :: 0 <= p < n ==> importance[p] == total[p] * (1.0 / rows as real)
    requires forall p :: 0 <= p < n ==> total[p] == Received(attn, n, p, rows)
    ensures MeanAttention(importance, attn, n, rows)
  {
  }

  // ---------------------------------------------------------------- stage 2: dropping pairs

  /** Pairs dropped in a round that has `size` tokens and room for `room`. */
  function PairsToDrop(size: nat, room: nat): nat
    requires size > room
  {
    var wanted := (size - room + 1) / 2;
    var capped := if wanted < size / 2 then wanted else size / 2;
    if capped < 1 then 1 else capped
  }

  /** The tokens of the given pairs, in that order. */
  function TokensOf(tokens: seq<nat>, pairs: seq<nat>): seq<nat>
    requires forall i :: 0 <= i < |pairs| ==> 2 * pairs[i] + 1 < |tokens|
  {
    if pairs == [] then []
    else
      var p := pairs[|pairs| - 1];
      TokensOf(tokens, pairs[..|pairs| - 1]) + [tokens[2 * p], tokens[2 * p + 1]]
  }

  lemma {:induction false} TokensOfMembers(tokens: seq<nat>, pairs: seq<nat>, t: nat)
    requires forall i :: 0 <= i < |pairs| ==> 2 * pairs[i] + 1 < |tokens|
    ensures t in TokensOf(tokens, pairs) <==> exists p :: p in pairs && (t == tokens[2 * p] || t == tokens[2 * p + 1])
  {
    if pairs != [] {
      var n := |pairs| - 1;
      TokensOfMembers(tokens, pairs[..n], t);
      assert forall p :: p in pairs <==> p in pairs[..n] || p == pairs[n];
    }
  }

  lemma DistinctAppend(s: seq<nat>, a: nat, b: nat)
    requires Distinct(s) && a !in s && b !in s && a != b
    ensures Distinct(s + [a, b])
  {
  }

  lemma {:induction false} TokensOfDistinct(tokens: seq<nat>, pairs: seq<nat>)
    requires forall i :: 0 <= i < |pairs| ==> 2 * pairs[i] + 1 < |tokens|
    requires Distinct(tokens) && Distinct(pairs)
    ensures Distinct(TokensOf(tokens, pairs)) && |TokensOf(tokens, pairs)| == 2 * |pairs|
  {
    if pairs != [] {
      var n := |pairs| - 1;
      var p := pairs[n];
      TokensOfDistinct(tokens, pairs[..n]);
      TokensOfMembers(tokens, pairs[..n], tokens[2 * p]);
      TokensOfMembers(tokens, pairs[..n], tokens[2 * p + 1]);
      assert p !in pairs[..n];
      DistinctAppend(TokensOf(tokens, pairs[..n]), tokens[2 * p], tokens[2 * p + 1]);
    }
  }

  /** `after` keeps or drops each adjacent pair of `before` as a whole; no dropped pair is less
      similar than a kept one; the odd last token is kept. */
  ghost predicate DropsMostSimilar(before: seq<nat>, after: seq<nat>, sims: seq<real>)
    requires |sims| == |before| / 2
  {
    && (forall i :: 0 <= i < |sims| ==> (before[2 * i] in after <==> before[2 * i + 1] in after))
    && (forall i, j :: 0 <= i < |sims| && 0 <= j < |sims| && before[2 * i] !in after && before[2 * j] in after ==>
         sims[i] >= sims[j])
    && (|before| % 2 == 1 ==> before[|before| - 1] in after)
  }

  lemma OtherPair(before: seq<nat>, i: nat, side: nat, p: nat)
    requires Distinct(before) && i < |before| / 2 && p < |before| / 2 && p != i && side <= 1
    ensures before[2 * p] != before[2 * i + side] && before[2 * p + 1] != before[2 * i + side]
  {
  }

  lemma {:induction false} KeptToken(before: seq<nat>, pairs: seq<nat>, i: nat, side: nat)
    requires Distinct(before) && i < |before| / 2 && side <= 1
    requires forall k :: 0 <= k < |pairs| ==> pairs[k] < |before| / 2
    ensures before[2 * i + side] in TokensOf(before, pairs) <==> i in pairs
  {
    if pairs != [] {
      var n := |pairs| - 1;
      KeptToken(before, pairs[..n], i, side);
      assert pairs == pairs[..n] + [pairs[n]];
      if pairs[n] != i {
        OtherPair(before, i, side, pairs[n]);
      }
    }
  }

  lemma KeptPair(before: seq<nat>, pairs: seq<nat>, i: nat)
    requires Distinct(before) && i < |before| / 2
    requires forall k :: 0 <= k < |pairs| ==> pairs[k] < |before| / 2
    ensures before[2 * i] in TokensOf(before, pairs) <==> i in pairs
    ensures before[2 * i + 1] in TokensOf(before, pairs) <==> i in pairs
  {
    KeptToken(before, pairs, i, 0);
    KeptToken(before, pairs, i, 1);
  }

  function Tail(before: seq<nat>): seq<nat> {
    if |before| % 2 == 1 then [before[|before| - 1]] else []
  }

  /** What a round leaves when it keeps the pairs `kept`. */
  function Survivors(before: seq<nat>, kept: seq<nat>): seq<nat>
    requires forall i :: 0 <= i < |kept| ==> kept[i] < |before| / 2
  {
    TokensOf(before, kept) + Tail(before)
  }

  lemma SurvivorsShape(before: seq<nat>, kept: seq<nat>)
    requires Distinct(before) && Distinct(kept)
    requires forall i :: 0 <= i < |kept| ==> kept[i] < |before| / 2
    ensures |Survivors(before, kept)| == 2 * |kept| + |before| % 2
    ensures Distinct(Survivors(before, kept))
    ensures forall t :: t in Survivors(before, kept) ==> t in before
  {
    TokensOfDistinct(before, kept);
    forall t | t in TokensOf(before, kept) ensures exists i :: 0 <= i < 2 * (|before| / 2) && before[i] == t {
      TokensOfMembers(before, kept, t);
      var p :| p in kept && (t == before[2 * p] || t == before[2 * p + 1]);
      assert before[if t == before[2 * p] then 2 * p else 2 * p + 1] == t;
    }
    if |before| % 2 == 1 {
      assert Tail(before)[0] !in TokensOf(before, kept);
    }
  }

  lemma SurvivingPair(before: seq<nat>, kept: seq<nat>, i: nat)
    requires Distinct(before) && i < |before| / 2
    requires forall k :: 0 <= k < |kept| ==> kept[k] < |before| / 2
    ensures before[2 * i] in Survivors(before, kept) <==> i in kept
    ensures before[2 * i + 1] in Survivors(before, kept) <==> i in kept
  {
    KeptPair(before, kept, i);
    var n := |before| - 1;
    assert before[2 * i] != before[n] || n == 2 * i;
  }

  /** Keys ranked in front are at least as large as those ranked behind. */
  lemma FrontDominates(order: seq<nat>, keys: seq<real>, r: nat, i: nat, j: nat)
    requires Ranks(order, keys) && r <= |order| && i < |keys|
    requires i !in order[r..] && j in order[r..]
    ensures j < |keys| && keys[i] >= keys[j]
  {
    assert i in order;
    var a :| 0 <= a < |order| && order[a] == i;
    var b :| 0 <= b < |order[r..]| && order[r..][b] == j;
    assert order[r + b] == j;
    assert a < r;
  }

  lemma RoundDropsMostSimilar(before: seq<nat>, sims: seq<real>, order: seq<nat>, r: nat)
    requires Distinct(before) && |sims| == |before| / 2 && Ranks(order, sims) && r <= |order|
    ensures DropsMostSimilar(before, Survivors(before, order[r..]), sims)
  {
    var kept := order[r..];
    var after := Survivors(before, kept);
    forall i | 0 <= i < |sims|
      ensures before[2 * i] in after <==> i in kept
      ensures before[2 * i + 1] in after <==> i in kept
    {
      SurvivingPair(before, kept, i);
    }
    forall i, j | 0 <= i < |sims| && 0 <= j < |sims| && before[2 * i] !in after && before[2 * j] in after
      ensures sims[i] >= sims[j]
    {
      FrontDominates(order, sims, r, i, j);
    }
    if |before| % 2 == 1 {
      assert after[|after| - 1] == before[|before| - 1];
    }
  }

  /** One round: drop the most similar pairs, or fail when asked to drop more tokens than there are. */
  method DropRound(before: seq<nat>, sims: seq<real>, room: nat)
    returns (ok: bool, after: seq<nat>, order: seq<nat>)
    requires Distinct(before) && |before| > room && |sims| == |before| / 2
    ensures ok <==> |before| >= 2 * PairsToDrop(|before|, room)
    ensures !ok ==> after == before
    ensures ok ==> |after| == |before| - 2 * PairsToDrop(|before|, room)
    ensures ok ==> Ranks(order, sims) && after == Survivors(before, order[PairsToDrop(|before|, room)..])
    ensures ok ==> Distinct(after) && DropsMostSimilar(before, after, sims)
    ensures forall t :: t in after ==> t in before
  {
    var size := |before|;
    var nPairs := size / 2;
    var r := PairsToDrop(size, room);
    if size - r * 2 < 0 {
      return false, before, [];
    }
    order := SortDescending(sims);
    after := KeepPairs(before, order, r);
    if size % 2 != 0 {
      after := after + [before[size - 1]];
    }
    assert after == Survivors(before, order[r..]);
    RankTail(order, sims, r);
    SurvivorsShape(before, order[r..]);
    RoundDropsMostSimilar(before, sims, order, r);
    ok := true;
  }

  lemma RankTail(order: seq<nat>, keys: seq<real>, r: nat)
    requires Ranks(order, keys) && r <= |order|
    ensures Distinct(order[r..]) && |order[r..]| == |keys| - r
    ensures forall i :: 0 <= i < |order[r..]| ==> order[r..][i] < |keys|
  {
  }

  lemma TokensOfAppend(tokens: seq<nat>, pairs: seq<nat>, p: nat)
    requires 2 * p + 1 < |tokens| && forall i :: 0 <= i < |pairs| ==> 2 * pairs[i] + 1 < |tokens|
    ensures TokensOf(tokens, pairs + [p]) == TokensOf(tokens, pairs) + [tokens[2 * p], tokens[2 * p + 1]]
  {
    assert (pairs + [p])[..|pairs|] == pairs;
  }

  lemma SliceGrows(s: seq<nat>, from: nat, to: nat)
    requires from <= to < |s|
    ensures s[from..to + 1] == s[from..to] + [s[to]]
  {
  }

  method KeepPairs(before: seq<nat>, order: seq<nat>, r: nat) returns (after: seq<nat>)
    requires r <= |order| == |before| / 2
    requires forall i :: 0 <= i < |order| ==> order[i] < |before| / 2
    ensures after == TokensOf(before, order[r..])
  {
    after := [];
    for pi := r to |order|
      invariant after == TokensOf(before, order[r..pi])
    {
      SliceGrows(order, r, pi);
      TokensOfAppend(before, order[r..pi], order[pi]);
      var i := order[pi];
      after := after + [before[2 * i], before[2 * i + 1]];
    }
    assert order[r..|order|] == order[r..];
  }

  // ---------------------------------------------------------------- how far the rounds go

  datatype Size = Finished(size: nat) | Failed

  /** Token counts under repeated rounds. */
  function Shrink(size: nat, room: nat): Size {
    if size <= room then Finished(size)
    else if size < 2 * PairsToDrop(size, room) then Failed
    else Shrink(size - 2 * PairsToDrop(size, room), room)
  }

  /** With room for at least one token a single round suffices and undershoots by one when an odd number
      had to go.  With no room an even set empties in one round and an odd one is stuck at its last
      token, where the next round asks for a buffer of size -1. */
  lemma ShrinkExactly(size: nat, room: nat)
    requires size > room
    ensures Shrink(size, room) ==
            if room == 0 && size % 2 == 1 then Failed else Finished(room - (size - room) % 2)
    ensures Shrink(size, room).Finished? ==>
              Shrink(size, room).size == size - 2 * PairsToDrop(size, room) <= room
  {
    var r := PairsToDrop(size, room);
    if room >= 1 {
      assert r == (size - room + 1) / 2;
      assert size - 2 * r == room - (size - room) % 2;
    } else if size >= 2 {
      assert r == size / 2 && size - 2 * r == size % 2;
    }
  }

  // ---------------------------------------------------------------- the whole operation

  /** Conversion of a float to int: the fraction is cut off. */
  function Truncate(x: real): (k: int)
    ensures x >= 0.0 ==> k as real <= x < k as real + 1.0
    ensures x < 0.0 ==> k <= 0
  {
    if x >= 0.0 then x.Floor else -((-x).Floor)
  }

  /** Conversion of the product to an integer cuts the fraction off. */
  function ImportantTokens(target: int, ratio: real): int {
    Truncate(target as real * ratio)
  }

  /** `k` is the share of `target` rounded down. */
  predicate IsShare(k: int, target: int, ratio: real) {
    k as real <= target as real * ratio < k as real + 1.0
  }

  /** The argument checks that leave the buffer alone; the share of the important tokens must round down to at
      least one and at most all. */
  predicate Rejected(nTokens: int, attn: Option<seq<real>>, nPatches: int, target: int, ratio: real) {
    || target <= 0 || target >= nTokens
    || attn.None? || nPatches != nTokens
    || target as real * ratio < 1.0 || target as real * ratio >= target as real + 1.0
  }

  lemma ShareIsUnique(k: int, l: int, target: int, ratio: real)
    requires IsShare(k, target, ratio)
    ensures IsShare(l, target, ratio) ==> k == l
  {
  }

  lemma ShareDecides(target: int, ratio: real)
    requires target >= 1
    ensures var k, share := ImportantTokens(target, ratio), target as real * ratio;
      && (k < 1 <==> share < 1.0) && (k > target <==> share >= target as real + 1.0)
      && (k >= 1 ==> IsShare(k, target, ratio)) && (1 <= k <= target ==> (k == target <==> share >= target as real))
  {
  }

  /** The choice in the order in which it is made: the first `important` ranked tokens, then the pairs that
      survive a round, the most similar of them first, then an odd last token. */
  function Choice(ranking: seq<nat>, pairOrder: seq<nat>, important: nat, room: nat): seq<nat>
    requires important + room < |ranking| && |pairOrder| == (|ranking| - important) / 2
    requires forall i :: 0 <= i < |pairOrder| ==> pairOrder[i] < |pairOrder|
    requires PairsToDrop(|ranking| - important, room) <= |pairOrder|
  {
    ranking[..important] + Survivors(ranking[important..], pairOrder[PairsToDrop(|ranking| - important, room)..])
  }

  /** Everything pruning knows about its choice: the first `important` ranked tokens are kept, the others
      survive in pairs by dissimilarity, and the order is that of the choice or of the positions. */
  ghost predicate Chosen(selected: seq<nat>, ranking: seq<nat>, sims: seq<real>, pairOrder: seq<nat>,
                         important: nat, room: nat, keepOrder: bool)
    requires important + room < |ranking| && |sims| == (|ranking| - important) / 2
  {
    && Ranks(pairOrder, sims) && PairsToDrop(|ranking| - important, room) <= |pairOrder|
    && (keepOrder ==> Increasing(selected))
    && (keepOrder ==> multiset(selected) == multiset(Choice(ranking, pairOrder, important, room)))
    && (!keepOrder ==> selected == Choice(ranking, pairOrder, important, room))
    && Distinct(selected)
    && (forall t :: t in selected ==> t in ranking)
    && (forall t :: t in ranking[..important] ==> t in selected)
    && DropsMostSimilar(ranking[important..], selected, sims)
  }

  /** What the rounds leave of `rest`: the survivors of a single round, in the order of that round. */
  ghost predicate Thinned(rest: seq<nat>, room: nat, remaining: seq<nat>, sims: seq<real>, order: seq<nat>) {
    && |rest| > room && |sims| == |rest| / 2 && PairsToDrop(|rest|, room) <= |rest| / 2
    && Ranks(order, sims) && remaining == Survivors(rest, order[PairsToDrop(|rest|, room)..])
    && Distinct(remaining) && (forall t :: t in remaining ==> t in rest)
    && DropsMostSimilar(rest, remaining, sims)
  }

  lemma OneRound(rest: seq<nat>, room: nat, sims: seq<real>, order: seq<nat>)
    requires Distinct(rest) && |rest| > room && |sims| == |rest| / 2 && Ranks(order, sims)
    requires PairsToDrop(|rest|, room) <= |rest| / 2
    ensures Thinned(rest, room, Survivors(rest, order[PairsToDrop(|rest|, room)..]), sims, order)
  {
    RankTail(order, sims, PairsToDrop(|rest|, room));
    SurvivorsShape(rest, order[PairsToDrop(|rest|, room)..]);
    RoundDropsMostSimilar(rest, sims, order, PairsToDrop(|rest|, room));
  }

  /** All rounds: repeat until at most `room` tokens are left. */
  method DropPairs(units: seq<seq<real>>, start: seq<nat>, room: nat, ghost buffer: seq<real>, hidden: nat,
                   ghost sqrt: real -> real)
    returns (ok: bool, remaining: seq<nat>, sims: seq<real>, order: seq<nat>)
    requires IsRoot(sqrt) && |buffer| == |units| * hidden
    requires forall i :: 0 <= i < |units| ==> units[i] == Unit(Row(buffer, |units|, hidden, i), sqrt)
    requires Distinct(start) && |start| > room
    requires forall i :: 0 <= i < |start| ==> start[i] < |units|
    ensures ok <==> Shrink(|start|, room).Finished?
    ensures ok ==> |remaining| == Shrink(|start|, room).size
    ensures ok ==> PairSimilarities(sims, start, buffer, |units|, hidden, sqrt)
    ensures ok ==> Thinned(start, room, remaining, sims, order)
  {
    ShrinkExactly(|start|, room);
    remaining := start;
    sims := MeasurePairs(units, start, buffer, hidden, sqrt);
    order := [];
    ghost var first := true;
    while |remaining| > room
      invariant first ==> remaining == start
      invariant !first ==> Thinned(start, room, remaining, sims, order)
      invariant !first ==> |remaining| == |start| - 2 * PairsToDrop(|start|, room)
      invariant PairSimilarities(sims, start, buffer, |units|, hidden, sqrt)
      invariant Shrink(|remaining|, room) == Shrink(|start|, room)
      invariant forall t :: t in remaining ==> t in start
      decreases |remaining|
    {
      var roundSims := MeasurePairs(units, remaining, buffer, hidden, sqrt);
      ok, remaining, order := DropRound(remaining, roundSims, room);
      if !ok {
        return;
      }
      if first {
        assert roundSims == sims;
      } else {
        assert false;
      }
      first := false;
    }
    ok := true;
  }

  /** Row `i` of the compacted buffer is row `selected[i]` of the original. */
  ghost predicate Compacted(pruned: seq<real>, buffer: seq<real>, n: nat, hidden: nat, selected: seq<nat>)
    requires |buffer| == n * hidden
    requires forall i :: 0 <= i < |selected| ==> selected[i] < n
  {
    && |pruned| == |selected| * hidden
    && forall i :: 0 <= i < |selected| ==> Row(pruned, |selected|, hidden, i) == Row(buffer, n, hidden, selected[i])
  }

  lemma AppendRow(pruned: seq<real>, row: seq<real>, k: nat, hidden: nat)
    requires |pruned| == k * hidden && |row| == hidden
    ensures |pruned + row| == (k + 1) * hidden
    ensures forall i :: 0 <= i < k ==> Row(pruned + row, k + 1, hidden, i) == Row(pruned, k, hidden, i)
    ensures Row(pruned + row, k + 1, hidden, k) == row
  {
    forall i | 0 <= i < k ensures Row(pruned + row, k + 1, hidden, i) == Row(pruned, k, hidden, i) {
      RowBound(i, k, hidden);
    }
  }

  method Compact(buffer: seq<real>, n: nat, hidden: nat, selected: seq<nat>) returns (pruned: seq<real>)
    requires |buffer| == n * hidden
    requires forall i :: 0 <= i < |selected| ==> selected[i] < n
    ensures Compacted(pruned, buffer, n, hidden, selected)
  {
    pruned := [];
    for i := 0 to |selected|
      invariant |pruned| == i * hidden
      invariant forall k :: 0 <= k < i ==> Row(pruned, i, hidden, k) == Row(buffer, n, hidden, selected[k])
    {
      var row := Row(buffer, n, hidden, selected[i]);
      AppendRow(pruned, row, i, hidden);
      pruned := pruned + row;
    }
  }

  /** What the caller has to provide: a full embedding buffer and, if any, a full attention tensor. */
  predicate WellShaped(embeddings: seq<real>, nTokens: nat, hidden: nat, attn: Option<seq<real>>,
                       nPatches: nat, nHeads: nat) {
    && |embeddings| == nTokens * hidden
    && (attn.Some? ==> nHeads >= 1 && (nHeads * nPatches) * nPatches <= |attn.value|)
  }

  /** The important tokens followed by the survivors, in position order if that is to be kept. */
  method Combine(ranking: seq<nat>, important: nat, room: nat, remaining: seq<nat>, ghost sims: seq<real>,
                 ghost pairOrder: seq<nat>, keepOrder: bool) returns (selected: seq<nat>)
    requires Distinct(ranking) && important + room < |ranking|
    requires Thinned(ranking[important..], room, remaining, sims, pairOrder)
    requires forall i :: 0 <= i < |ranking| ==> ranking[i] < |ranking|
    ensures Chosen(selected, ranking, sims, pairOrder, important, room, keepOrder)
    ensures |selected| == important + |remaining|
    ensures forall i :: 0 <= i < |selected| ==> selected[i] < |ranking|
  {
    selected := ranking[..important] + remaining;
    CombineChoice(ranking, important, room, remaining, sims, pairOrder);
    if keepOrder {
      ghost var unordered := selected;
      selected := SortIncreasing(selected);
      SameMembers(unordered, selected);
      ReorderChoice(ranking, important, room, unordered, selected, sims, pairOrder);
    }
    InsideRanking(selected, ranking, |ranking|);
  }

  /** When the rounds succeed, and how many tokens there are then. */
  lemma CountOf(ok: bool, count: nat, nTokens: nat, important: nat, target: nat)
    requires important <= target < nTokens
    requires ok <==> Shrink(nTokens - important, target - important).Finished?
    requires ok ==> count == important + Shrink(nTokens - important, target - important).size
    ensures ok <==> !(important == target && (nTokens - target) % 2 == 1)
    ensures ok ==> count == target - (nTokens - target) % 2
  {
    ShrinkExactly(nTokens - important, target - important);
  }

  lemma InsideRanking(selected: seq<nat>, ranking: seq<nat>, n: nat)
    requires forall t :: t in selected ==> t in ranking
    requires forall i :: 0 <= i < |ranking| ==> ranking[i] < n
    ensures forall i :: 0 <= i < |selected| ==> selected[i] < n
  {
    forall i | 0 <= i < |selected| ensures selected[i] < n {
      assert selected[i] in ranking;
    }
  }

  lemma RestShape(ranking: seq<nat>, important: nat, n: nat)
    requires Distinct(ranking) && important <= |ranking| && forall i :: 0 <= i < |ranking| ==> ranking[i] < n
    ensures Distinct(ranking[important..])
    ensures forall i :: 0 <= i < |ranking[important..]| ==> ranking[important..][i] < n
  {
  }

  /** The rounds on the tokens `rest`. */
  method ThinOut(embeddings: seq<real>, nTokens: nat, hidden: nat, rest: seq<nat>, room: nat, sqrt: real -> real)
    returns (ok: bool, remaining: seq<nat>, sims: seq<real>, pairOrder: seq<nat>)
    requires |embeddings| == nTokens * hidden && IsRoot(sqrt)
    requires Distinct(rest) && |rest| > room && forall i :: 0 <= i < |rest| ==> rest[i] < nTokens
    ensures ok <==> Shrink(|rest|, room).Finished?
    ensures ok ==> |remaining| == Shrink(|rest|, room).size
    ensures ok ==> PairSimilarities(sims, rest, embeddings, nTokens, hidden, sqrt)
    ensures ok ==> Thinned(rest, room, remaining, sims, pairOrder)
  {
    var units := NormaliseRows(embeddings, nTokens, hidden, sqrt);
    ok, remaining, sims, pairOrder := DropPairs(units, rest, room, embeddings, hidden, sqrt);
  }

  /** Stage 2: thin out the tokens that are not important. */
  method Diversify(embeddings: seq<real>, nTokens: nat, hidden: nat, ranking: seq<nat>, important: nat, room: nat,
                   keepOrder: bool, sqrt: real -> real)
    returns (ok: bool, selected: seq<nat>, sims: seq<real>, pairOrder: seq<nat>)
    requires |embeddings| == nTokens * hidden && IsRoot(sqrt) && important + room < nTokens
    requires |ranking| == nTokens && Distinct(ranking) && forall i :: 0 <= i < nTokens ==> ranking[i] < nTokens
    ensures ok <==> Shrink(nTokens - important, room).Finished?
    ensures ok ==> PairSimilarities(sims, ranking[important..], embeddings, nTokens, hidden, sqrt)
    ensures ok ==> Chosen(selected, ranking, sims, pairOrder, important, room, keepOrder)
    ensures ok ==> |selected| == important + Shrink(nTokens - important, room).size
    ensures ok ==> forall i :: 0 <= i < |selected| ==> selected[i] < nTokens
  {
    RestShape(ranking, important, nTokens);
    var remaining, rest := [], ranking[important..];
    assert |rest| == nTokens - important;
    ok, remaining, sims, pairOrder := ThinOut(embeddings, nTokens, hidden, rest, room, sqrt);
    selected := [];
    if ok {
      selected := Combine(ranking, important, room, remaining, sims, pairOrder, keepOrder);
    }
  }

  /** Stage 1: the tokens by mean attention received. */
  method RankByImportance(attn: seq<real>, nTokens: nat, nHeads: nat) returns (importance: seq<real>, ranking: seq<nat>)
    requires nHeads * nTokens >= 1 && (nHeads * nTokens) * nTokens <= |attn|
    ensures MeanAttention(importance, attn, nTokens, nHeads * nTokens)
    ensures Ranks(ranking, importance) && |ranking| == nTokens && Distinct(ranking)
    ensures forall i :: 0 <= i < nTokens ==> ranking[i] < nTokens
  {
    importance := Importance(attn, nTokens, nHeads);
    ranking := SortDescending(importance);
  }

  /** Both stages: rank by importance, then thin out the rest by similarity. */
  method SelectTokens(embeddings: seq<real>, nTokens: nat, hidden: nat, attn: seq<real>, nHeads: nat,
                      important: nat, target: nat, keepOrder: bool, sqrt: real -> real)
    returns (ok: bool, selected: seq<nat>, importance: seq<real>, ranking: seq<nat>, sims: seq<real>,
             pairOrder: seq<nat>)
    requires |embeddings| == nTokens * hidden && IsRoot(sqrt)
    requires nHeads * nTokens >= 1 && (nHeads * nTokens) * nTokens <= |attn|
    requires important <= target < nTokens
    ensures ok <==> !(important == target && (nTokens - target) % 2 == 1)
    ensures MeanAttention(importance, attn, nTokens, nHeads * nTokens)
    ensures Ranks(ranking, importance) && |ranking| == nTokens
    ensures ok ==> PairSimilarities(sims, ranking[important..], embeddings, nTokens, hidden, sqrt)
    ensures ok ==> Chosen(selected, ranking, sims, pairOrder, important, target - important, keepOrder)
    ensures ok ==> |selected| == target - (nTokens - target) % 2
    ensures ok ==> forall i :: 0 <= i < |selected| ==> selected[i] < nTokens
  {
    importance, ranking := RankByImportance(attn, nTokens, nHeads);
    ok, selected, sims, pairOrder :=
      Diversify(embeddings, nTokens, hidden, ranking, important, target - important, keepOrder, sqrt);
    CountOf(ok, |selected|, nTokens, important, target);
  }

  /** Prune the embedding buffer to about `target` tokens.  The outcome depends on the counts alone;
      `selected`, `importance`, `ranking`, `sims` and `pairOrder` report how the kept tokens were chosen. */
  method Prune(embeddings: seq<real>, nTokens: nat, hidden: nat, attn: Option<seq<real>>, nPatches: nat, nHeads: nat,
               target: int, ratio: real, keepOrder: bool, sqrt: real -> real)
    returns (outcome: Outcome, pruned: seq<real>, count: nat, selected: seq<nat>,
             importance: seq<real>, ranking: seq<nat>, sims: seq<real>, pairOrder: seq<nat>, important: nat)
    requires WellShaped(embeddings, nTokens, hidden, attn, nPatches, nHeads) && IsRoot(sqrt)
    ensures outcome.Unchanged? <==> Rejected(nTokens, attn, nPatches, target, ratio)
    ensures outcome.LengthError? <==>
              !Rejected(nTokens, attn, nPatches, target, ratio) &&
              target as real * ratio >= target as real && (nTokens - target) % 2 == 1
    ensures !outcome.Pruned? ==> pruned == embeddings && count == nTokens
    ensures outcome.Pruned? ==> count == |selected| == target - (nTokens - target) % 2
    ensures outcome.Pruned? ==> MeanAttention(importance, attn.value, nTokens, nHeads * nTokens)
    ensures outcome.Pruned? ==> Ranks(ranking, importance) && |ranking| == nTokens
    ensures outcome.Pruned? ==> 1 <= important <= target && IsShare(important, target, ratio)
    ensures outcome.Pruned? ==>
              && PairSimilarities(sims, ranking[important..], embeddings, nTokens, hidden, sqrt)
              && Chosen(selected, ranking, sims, pairOrder, important, target - important, keepOrder)
    ensures outcome.Pruned? ==> forall i :: 0 <= i < |selected| ==> selected[i] < nTokens
    ensures outcome.Pruned? ==> Compacted(pruned, embeddings, nTokens, hidden, selected)
  {
    pruned, count, selected, importance, ranking, sims, pairOrder := embeddings, nTokens, [], [], [], [], [];
    important := 0;
    if target <= 0 || target >= nTokens {
      return Unchanged, pruned, count, selected, importance, ranking, sims, pairOrder, important;
    }
    if attn.None? || nPatches != nTokens {
      return Unchanged, pruned, count, selected, importance, ranking, sims, pairOrder, important;
    }
    ShareDecides(target, ratio);
    var share := ImportantTokens(target, ratio);
    var room := target - share;
    if share < 1 || room < 0 {
      return Unchanged, pruned, count, selected, importance, ranking, sims, pairOrder, important;
    }
    important := share;
    assert nHeads * nPatches >= 1;
    var ok;
    ok, selected, importance, ranking, sims, pairOrder :=
      SelectTokens(embeddings, nTokens, hidden, attn.value, nHeads, important, target, keepOrder, sqrt);
    if !ok {
      return LengthError, pruned, count, selected, importance, ranking, sims, pairOrder, important;
    }
    count := |selected|;
    pruned := Compact(embeddings, nTokens, hidden, selected);
    outcome := Pruned;
  }

  lemma CombineChoice(ranking: seq<nat>, important: nat, room: nat, remaining: seq<nat>, sims: seq<real>,
                      pairOrder: seq<nat>)
    requires Distinct(ranking) && important + room < |ranking|
    requires Thinned(ranking[important..], room, remaining, sims, pairOrder)
    ensures Chosen(ranking[..important] + remaining, ranking, sims, pairOrder, important, room, false)
  {
    var front, rest := ranking[..important], ranking[important..];
    FrontAndRest(ranking, important, remaining);
    SameDrops(rest, remaining, front + remaining, sims);
  }

  lemma FrontAndRest(ranking: seq<nat>, important: nat, remaining: seq<nat>)
    requires Distinct(ranking) && Distinct(remaining) && important <= |ranking|
    requires forall t :: t in remaining ==> t in ranking[important..]
    ensures Distinct(ranking[..important] + remaining)
    ensures forall t :: t in ranking[..important] + remaining ==> t in ranking
    ensures forall t :: t in ranking[important..] ==> (t in ranking[..important] + remaining <==> t in remaining)
  {
    var front, rest := ranking[..important], ranking[important..];
    forall i, k | 0 <= i < |front| && 0 <= k < |rest| ensures front[i] != rest[k] {
      assert rest[k] == ranking[important + k];
    }
    forall i, j | 0 <= i < |front| && 0 <= j < |remaining| ensures front[i] != remaining[j] {
      assert remaining[j] in rest;
    }
  }

  lemma SameDrops(before: seq<nat>, a: seq<nat>, b: seq<nat>, sims: seq<real>)
    requires |sims| == |before| / 2 && DropsMostSimilar(before, a, sims)
    requires forall t :: t in before ==> (t in a <==> t in b)
    ensures DropsMostSimilar(before, b, sims)
  {
  }

  lemma SameMembers(s: seq<nat>, t: seq<nat>)
    requires multiset(s) == multiset(t)
    ensures |s| == |t| && forall x :: x in s <==> x in t
  {
    assert |multiset(s)| == |multiset(t)|;
    forall x ensures x in s <==> x in t {
      assert x in s <==> x in multiset(s);
      assert x in t <==> x in multiset(t);
    }
  }

  lemma ReorderChoice(ranking: seq<nat>, important: nat, room: nat, s: seq<nat>, t: seq<nat>, sims: seq<real>,
                      pairOrder: seq<nat>)
    requires important + room < |ranking| && |sims| == (|ranking| - important) / 2
    requires Chosen(s, ranking, sims, pairOrder, important, room, false)
    requires Increasing(t) && multiset(s) == multiset(t) && forall x :: x in s <==> x in t
    ensures Chosen(t, ranking, sims, pairOrder, important, room, true)
  {
  }

  /** The kept important tokens received at least as much mean attention as every other token. */
  lemma ImportantTokensDominate(importance: seq<real>, ranking: seq<nat>, important: nat, kept: nat, other: nat)
    requires Ranks(ranking, importance) && important <= |ranking|
    requires kept in ranking[..important] && other < |importance| && other !in ranking[..important]
    ensures importance[kept] >= importance[other]
  {
    var a :| 0 <= a < important && ranking[a] == kept;
    assert other in ranking;
    var b :| 0 <= b < |ranking| && ranking[b] == other;
    assert important <= b;
  }

  /** The interface comment promises exactly `target` tokens.  For an accepted request the rule for the
      count keeps that promise if and only if an even number of tokens has to go. */
  lemma TargetMetIffEvenSurplus(nTokens: nat, target: nat, important: nat)
    requires 1 <= important <= target < nTokens
    ensures Shrink(nTokens - important, target - important) == Finished(target - important)
            <==> (nTokens - target) % 2 == 0
  {
  }
}
