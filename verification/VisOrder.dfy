/** The order in which pruning leaves the tokens when the position order is not kept.  The interface comment
    promises an order by importance score. */
module VisOrder {
  import opened Common
  import opened VisPruner
  import opened VisSimilarity

  predicate HoldsAt(ranking: seq<nat>, a: int, token: nat) {
    0 <= a < |ranking| && ranking[a] == token
  }

  /** The tokens come in the order of the ranking. */
  ghost predicate FollowsRanking(selected: seq<nat>, ranking: seq<nat>) {
    forall i, j, a, b ::
      0 <= i < j < |selected| && HoldsAt(ranking, a, selected[i]) && HoldsAt(ranking, b, selected[j]) ==>
      a < b
  }

  /** No token received more attention than one in front of it: what the comment promises. */
  ghost predicate ByImportance(selected: seq<nat>, importance: seq<real>) {
    && (forall i :: 0 <= i < |selected| ==> selected[i] < |importance|)
    && forall i, j :: 0 <= i < j < |selected| ==> importance[selected[i]] >= importance[selected[j]]
  }

  // ---------------------------------------------------------------- where the survivors stand

  function Upto(n: nat): (s: seq<nat>)
    ensures |s| == n && forall i :: 0 <= i < n ==> s[i] == i
  {
    seq(n, i requires 0 <= i < n => i)
  }

  ghost predicate PairsOf(kept: seq<nat>, size: nat) {
    forall k :: 0 <= k < |kept| ==> kept[k] < size / 2
  }

  /** The tokens of pair number `k` of the kept ones. */
  lemma {:induction false} TokensAt(before: seq<nat>, kept: seq<nat>, k: nat)
    requires PairsOf(kept, |before|) && k < |kept|
    ensures |TokensOf(before, kept)| == 2 * |kept|
    ensures TokensOf(before, kept)[2 * k] == before[2 * kept[k]]
    ensures TokensOf(before, kept)[2 * k + 1] == before[2 * kept[k] + 1]
  {
    var n := |kept| - 1;
    if n > 0 {
      TokensAt(before, kept[..n], if k < n then k else 0);
    } else {
      assert TokensOf(before, kept[..0]) == [];
    }
  }

  /** Position in `before` of survivor number `i`. */
  function PlaceOf(size: nat, kept: seq<nat>, i: nat): nat
    requires i < 2 * |kept| + size % 2 && size >= 1
  {
    if i < 2 * |kept| then 2 * kept[i / 2] + i % 2 else size - 1
  }

  lemma SurvivorCount(before: seq<nat>, kept: seq<nat>)
    requires PairsOf(kept, |before|)
    ensures |Survivors(before, kept)| == 2 * |kept| + |before| % 2
  {
    if kept != [] {
      TokensAt(before, kept, 0);
    }
  }

  lemma SurvivorAt(before: seq<nat>, kept: seq<nat>, i: nat)
    requires PairsOf(kept, |before|) && before != [] && i < 2 * |kept| + |before| % 2
    ensures PlaceOf(|before|, kept, i) < |before|
    ensures i < |Survivors(before, kept)|
    ensures Survivors(before, kept)[i] == before[PlaceOf(|before|, kept, i)]
  {
    SurvivorCount(before, kept);
    if i < 2 * |kept| {
      TokensAt(before, kept, i / 2);
    } else if kept != [] {
      TokensAt(before, kept, 0);
    }
  }

  lemma PlacesRise(size: nat, kept: seq<nat>, i: nat, j: nat)
    requires PairsOf(kept, size) && size >= 1 && Increasing(kept) && i < j < 2 * |kept| + size % 2
    ensures PlaceOf(size, kept, i) < PlaceOf(size, kept, j)
  {
    if j < 2 * |kept| && i / 2 < j / 2 {
      assert kept[i / 2] < kept[j / 2];
    }
  }

  lemma PlacesFall(size: nat, kept: seq<nat>, i: nat, j: nat)
    requires size >= 1 && i < j < |kept| && kept[i] >= kept[j]
    ensures PlaceOf(size, kept, 2 * i) >= PlaceOf(size, kept, 2 * j)
  {
  }

  // ---------------------------------------------------------------- when the ranking is followed

  /** The pairs that survive, in the order in which they come out. */
  function KeptPairs(pairOrder: seq<nat>, size: nat, room: nat): seq<nat>
    requires size > room && PairsToDrop(size, room) <= |pairOrder|
  {
    pairOrder[PairsToDrop(size, room)..]
  }

  /** Rank of token number `i` of the choice. */
  function RankOf(important: nat, size: nat, kept: seq<nat>, i: nat): nat
    requires size >= 1 && i < important + 2 * |kept| + size % 2
  {
    if i < important then i else important + PlaceOf(size, kept, i - important)
  }

  /** The choice without keeping the position order. */
  ghost predicate Unsorted(selected: seq<nat>, ranking: seq<nat>, kept: seq<nat>, important: nat) {
    && Distinct(ranking) && important < |ranking| && PairsOf(kept, |ranking| - important)
    && selected == ranking[..important] + Survivors(ranking[important..], kept)
  }

  lemma RankedAt(selected: seq<nat>, ranking: seq<nat>, kept: seq<nat>, important: nat, i: nat)
    requires Unsorted(selected, ranking, kept, important) && i < |selected|
    ensures |selected| == important + 2 * |kept| + (|ranking| - important) % 2
    ensures HoldsAt(ranking, RankOf(important, |ranking| - important, kept, i), selected[i])
  {
    var rest := ranking[important..];
    SurvivorCount(rest, kept);
    if i >= important {
      SurvivorAt(rest, kept, i - important);
    }
  }

  lemma RankIsUnique(ranking: seq<nat>, a: int, b: int, token: nat)
    requires Distinct(ranking) && HoldsAt(ranking, a, token) && HoldsAt(ranking, b, token)
    ensures a == b
  {
  }

  /** The tokens follow the ranking exactly when the surviving pairs come out in increasing order. */
  lemma FollowsIffPairsIncrease(selected: seq<nat>, ranking: seq<nat>, kept: seq<nat>, important: nat)
    requires Unsorted(selected, ranking, kept, important)
    ensures FollowsRanking(selected, ranking) <==> Increasing(kept)
  {
    if Increasing(kept) {
      IncreasingFollows(selected, ranking, kept, important);
    } else {
      var i, j :| 0 <= i < j < |kept| && kept[i] >= kept[j];
      FallingFails(selected, ranking, kept, important, i, j);
    }
  }

  lemma IncreasingFollows(selected: seq<nat>, ranking: seq<nat>, kept: seq<nat>, important: nat)
    requires Unsorted(selected, ranking, kept, important) && Increasing(kept)
    ensures FollowsRanking(selected, ranking)
  {
    var size := |ranking| - important;
    forall i, j, a, b | 0 <= i < j < |selected| && HoldsAt(ranking, a, selected[i]) && HoldsAt(ranking, b, selected[j])
      ensures a < b
    {
      RankedAt(selected, ranking, kept, important, i);
      RankedAt(selected, ranking, kept, important, j);
      RankIsUnique(ranking, a, RankOf(important, size, kept, i), selected[i]);
      RankIsUnique(ranking, b, RankOf(important, size, kept, j), selected[j]);
      RanksRise(important, size, kept, i, j);
    }
  }

  lemma RanksRise(important: nat, size: nat, kept: seq<nat>, i: nat, j: nat)
    requires PairsOf(kept, size) && size >= 1 && Increasing(kept) && i < j < important + 2 * |kept| + size % 2
    ensures RankOf(important, size, kept, i) < RankOf(important, size, kept, j)
  {
    if i >= important {
      PlacesRise(size, kept, i - important, j - important);
    }
  }

  lemma FallingFails(selected: seq<nat>, ranking: seq<nat>, kept: seq<nat>, important: nat, i: nat, j: nat)
    requires Unsorted(selected, ranking, kept, important) && i < j < |kept| && kept[i] >= kept[j]
    ensures !FollowsRanking(selected, ranking)
  {
    var size, p, q := |ranking| - important, important + 2 * i, important + 2 * j;
    SurvivorCount(ranking[important..], kept);
    RankedAt(selected, ranking, kept, important, p);
    RankedAt(selected, ranking, kept, important, q);
    PlacesFall(size, kept, i, j);
    assert RankOf(important, size, kept, p) >= RankOf(important, size, kept, q);
  }

  /** A choice that follows the ranking is ordered by importance; without ties that is the only way. */
  lemma FollowingIsByImportance(selected: seq<nat>, ranking: seq<nat>, importance: seq<real>)
    requires Ranks(ranking, importance) && forall t :: t in selected ==> t in ranking
    requires FollowsRanking(selected, ranking)
    ensures ByImportance(selected, importance)
  {
    forall i | 0 <= i < |selected| ensures selected[i] < |importance| {
      assert selected[i] in ranking;
    }
    forall i, j | 0 <= i < j < |selected| ensures importance[selected[i]] >= importance[selected[j]] {
      assert selected[i] in ranking && selected[j] in ranking;
      var a :| 0 <= a < |ranking| && ranking[a] == selected[i];
      var b :| 0 <= b < |ranking| && ranking[b] == selected[j];
      assert HoldsAt(ranking, a, selected[i]) && HoldsAt(ranking, b, selected[j]);
    }
  }

  ghost predicate NoTies(ranking: seq<nat>, importance: seq<real>)
    requires forall i :: 0 <= i < |ranking| ==> ranking[i] < |importance|
  {
    forall a, b :: 0 <= a < b < |ranking| ==> importance[ranking[a]] > importance[ranking[b]]
  }

  lemma ByImportanceFollows(selected: seq<nat>, ranking: seq<nat>, importance: seq<real>)
    requires Ranks(ranking, importance) && NoTies(ranking, importance)
    requires Distinct(selected) && ByImportance(selected, importance)
    ensures FollowsRanking(selected, ranking)
  {
    forall i, j, a, b | 0 <= i < j < |selected| && HoldsAt(ranking, a, selected[i]) && HoldsAt(ranking, b, selected[j])
      ensures a < b
    {
      assert selected[i] != selected[j];
    }
  }

  // ---------------------------------------------------------------- conditions on the similarities

  /** When the similarities strictly fall along the surviving pairs, the ranking is followed. */
  lemma FallingSimilaritiesKeepOrder(sims: seq<real>, pairOrder: seq<nat>, r: nat)
    requires Ranks(pairOrder, sims) && r <= |pairOrder|
    requires forall p, q :: p in pairOrder[r..] && q in pairOrder[r..] && p < q ==> sims[p] > sims[q]
    ensures Increasing(pairOrder[r..])
  {
    var kept := pairOrder[r..];
    forall i, j | 0 <= i < j < |kept| ensures kept[i] < kept[j] {
      assert kept[i] in kept && kept[j] in kept;
      assert kept[i] == pairOrder[r + i] && kept[j] == pairOrder[r + j];
      assert sims[kept[i]] >= sims[kept[j]];
    }
  }

  /** When the ranking is followed, the similarities do not rise along the surviving pairs. */
  lemma OrderMeansFallingSimilarities(sims: seq<real>, pairOrder: seq<nat>, r: nat, p: nat, q: nat)
    requires Ranks(pairOrder, sims) && r <= |pairOrder| && Increasing(pairOrder[r..])
    requires p in pairOrder[r..] && q in pairOrder[r..] && p < q
    ensures sims[p] >= sims[q]
  {
    var kept := pairOrder[r..];
    var i :| 0 <= i < |kept| && kept[i] == p;
    var j :| 0 <= j < |kept| && kept[j] == q;
    assert i < j;
    assert pairOrder[r + i] == p && pairOrder[r + j] == q;
  }

  // ---------------------------------------------------------------- condition on the counts

  /** Pairs that survive of `size` tokens with room for `room`. */
  function PairsLeft(size: nat, room: nat): int
    requires size > room
  {
    size / 2 - PairsToDrop(size, room)
  }

  /** At most one pair survives. */
  predicate FewPairs(size: nat, room: nat) {
    room <= 3 || (room == 4 && size % 2 == 1)
  }

  lemma FewPairsMeansOneLeft(size: nat, room: nat)
    requires size > room && PairsToDrop(size, room) <= size / 2
    ensures FewPairs(size, room) <==> PairsLeft(size, room) <= 1
  {
  }

  // ---------------------------------------------------------------- the promise

  /** One pruning that goes through: its data and what it reports. */
  datatype Pruning = Pruning(embeddings: seq<real>, hidden: nat, attn: seq<real>, nHeads: nat,
                             selected: seq<nat>, importance: seq<real>, ranking: seq<nat>, sims: seq<real>,
                             pairOrder: seq<nat>)

  /** What `Prune` promises of a successful pruning that does not keep the position order. */
  ghost predicate Reported(p: Pruning, n: nat, important: nat, room: nat, sqrt: real -> real)
    requires IsRoot(sqrt)
  {
    && important + room < n && p.nHeads >= 1
    && |p.embeddings| == n * p.hidden && (p.nHeads * n) * n <= |p.attn|
    && MeanAttention(p.importance, p.attn, n, p.nHeads * n)
    && Ranks(p.ranking, p.importance) && |p.ranking| == n
    && PairSimilarities(p.sims, p.ranking[important..], p.embeddings, n, p.hidden, sqrt)
    && Chosen(p.selected, p.ranking, p.sims, p.pairOrder, important, room, false)
  }

  lemma ReportedParts(p: Pruning, n: nat, important: nat, room: nat, sqrt: real -> real)
    requires IsRoot(sqrt) && Reported(p, n, important, room, sqrt)
    ensures Ranks(p.ranking, p.importance) && |p.ranking| == n && |p.sims| == (n - important) / 2
    ensures Chosen(p.selected, p.ranking, p.sims, p.pairOrder, important, room, false)
  {
  }

  lemma ChosenIsUnsorted(selected: seq<nat>, ranking: seq<nat>, sims: seq<real>, pairOrder: seq<nat>,
                         important: nat, room: nat)
    requires important + room < |ranking| && |sims| == (|ranking| - important) / 2 && Distinct(ranking)
    requires Chosen(selected, ranking, sims, pairOrder, important, room, false)
    ensures PairsToDrop(|ranking| - important, room) <= |pairOrder| == (|ranking| - important) / 2
    ensures Unsorted(selected, ranking, KeptPairs(pairOrder, |ranking| - important, room), important)
  {
  }

  /** For every choice: the tokens follow the ranking exactly when the surviving pairs increase. */
  lemma OrderIff(selected: seq<nat>, ranking: seq<nat>, sims: seq<real>, pairOrder: seq<nat>, important: nat, room: nat)
    requires important + room < |ranking| && |sims| == (|ranking| - important) / 2 && Distinct(ranking)
    requires Chosen(selected, ranking, sims, pairOrder, important, room, false)
    ensures PairsToDrop(|ranking| - important, room) <= |pairOrder| == (|ranking| - important) / 2
    ensures FollowsRanking(selected, ranking) <==> Increasing(KeptPairs(pairOrder, |ranking| - important, room))
  {
    ChosenIsUnsorted(selected, ranking, sims, pairOrder, important, room);
    FollowsIffPairsIncrease(selected, ranking, KeptPairs(pairOrder, |ranking| - important, room), important);
  }

  lemma ShortIsIncreasing(s: seq<nat>)
    requires |s| <= 1
    ensures Increasing(s)
  {
  }

  lemma OneLeft(pairOrder: seq<nat>, size: nat, room: nat)
    requires size > room && PairsToDrop(size, room) <= |pairOrder| == size / 2 && FewPairs(size, room)
    ensures Increasing(KeptPairs(pairOrder, size, room))
  {
    FewPairsMeansOneLeft(size, room);
    ShortIsIncreasing(KeptPairs(pairOrder, size, room));
  }

  /** With at most one surviving pair the promise is kept, whatever the data. */
  lemma FewPairsKeepOrder(selected: seq<nat>, ranking: seq<nat>, importance: seq<real>, sims: seq<real>,
                          pairOrder: seq<nat>, important: nat, room: nat)
    requires important + room < |ranking| && |sims| == (|ranking| - important) / 2 && Ranks(ranking, importance)
    requires Chosen(selected, ranking, sims, pairOrder, important, room, false)
    requires FewPairs(|ranking| - important, room)
    ensures FollowsRanking(selected, ranking) && ByImportance(selected, importance)
  {
    OrderIff(selected, ranking, sims, pairOrder, important, room);
    OneLeft(pairOrder, |ranking| - important, room);
    FollowingIsByImportance(selected, ranking, importance);
  }

  // Data on which the promise fails: one head, attention falling with the token number, one-dimensional
  // embeddings, all 1 but for the second token of the first pair, which is -1.

  function Repeated(row: seq<real>, times: nat): seq<real> {
    if times == 0 then [] else Repeated(row, times - 1) + row
  }

  lemma {:induction false} RepeatedAt(row: seq<real>, times: nat, q: nat, p: nat)
    requires q < times && p < |row|
    ensures |Repeated(row, times)| == times * |row|
    ensures q * |row| + p < |Repeated(row, times)| && Repeated(row, times)[q * |row| + p] == row[p]
  {
    RepeatedLength(row, times - 1);
    RepeatedLength(row, times);
    if q < times - 1 {
      RepeatedAt(row, times - 1, q, p);
    }
  }

  lemma {:induction false} RepeatedLength(row: seq<real>, times: nat)
    ensures |Repeated(row, times)| == times * |row|
  {
    if times > 0 {
      RepeatedLength(row, times - 1);
    }
  }

  function Falling(n: nat): (row: seq<real>)
    ensures |row| == n && forall p :: 0 <= p < n ==> row[p] == (n - p) as real
  {
    seq(n, (p: nat) requires p < n => (n - p) as real)
  }

  function OneOpposite(n: nat, important: nat): (e: seq<real>)
    ensures |e| == n
  {
    seq(n, (k: nat) requires k < n => if k == important + 1 then -1.0 else 1.0)
  }

  /** Every query row pays the same attention, so what a token receives is a multiple of that. */
  lemma {:induction false} ReceivedFalls(n: nat, p: nat, rows: nat)
    requires p < n && rows <= n
    ensures rows * n <= |Repeated(Falling(n), n)|
    ensures Times(rows as real, (n - p) as real, Received(Repeated(Falling(n), n), n, p, rows))
  {
    RepeatedLength(Falling(n), n);
    RowsInside(rows, n);
    if rows > 0 {
      IndexBound(rows - 1, rows, n, p);
      ReceivedFalls(n, p, rows - 1);
      RepeatedAt(Falling(n), n, rows - 1, p);
      OneMoreRow(rows, (n - p) as real, Received(Repeated(Falling(n), n), n, p, rows - 1));
    }
  }

  lemma RowsInside(rows: nat, n: nat)
    requires rows <= n
    ensures rows * n <= n * n
  {
  }

  lemma OneMoreRow(rows: nat, x: real, before: real)
    requires rows >= 1 && Times((rows - 1) as real, x, before)
    ensures Times(rows as real, x, before + x)
  {
    assert rows as real == (rows - 1) as real + 1.0;
  }

  /** So the importance of token p is n - p. */
  lemma ImportanceFalls(importance: seq<real>, n: nat)
    requires n * n <= |Repeated(Falling(n), n)| && n >= 1
    requires MeanAttention(importance, Repeated(Falling(n), n), n, n)
    ensures |importance| == n && forall p: nat :: p < n ==> importance[p] == (n - p) as real
  {
    forall p: nat | p < n ensures importance[p] == (n - p) as real {
      ImportanceAt(importance, n, p);
    }
  }

  lemma ImportanceAt(importance: seq<real>, n: nat, p: nat)
    requires n * n <= |Repeated(Falling(n), n)| && p < n
    requires MeanAttention(importance, Repeated(Falling(n), n), n, n)
    ensures importance[p] == (n - p) as real
  {
    MeanAt(importance, Repeated(Falling(n), n), n, n, p);
    ReceivedFalls(n, p, n);
    MeanIs(importance[p], n as real, (n - p) as real, Received(Repeated(Falling(n), n), n, p, n));
  }

  lemma MeanAt(importance: seq<real>, attn: seq<real>, n: nat, rows: nat, p: nat)
    requires rows * n <= |attn| && p < n && MeanAttention(importance, attn, n, rows)
    ensures |importance| == n && Times(importance[p], rows as real, Received(attn, n, p, rows))
  {
  }

  lemma MeanIs(mean: real, f: real, x: real, sum: real)
    requires f > 0.0 && Times(mean, f, sum) && Times(f, x, sum)
    ensures mean == x
  {
    SameFactor(mean, x, f);
  }

  lemma SameFactor(x: real, y: real, f: real)
    requires f > 0.0 && x * f == f * y
    ensures x == y
  {
    assert (x - y) * f == 0.0;
  }

  /** Only the identity ranks strictly falling keys. */
  lemma FallingRanking(keys: seq<real>, ranking: seq<nat>, n: nat)
    requires |keys| == n && (forall p: nat :: p < n ==> keys[p] == (n - p) as real) && Ranks(ranking, keys)
    ensures ranking == Upto(n) && NoTies(ranking, keys)
  {
    forall i, j | 0 <= i < j < n ensures ranking[i] < ranking[j] {
      assert keys[ranking[i]] >= keys[ranking[j]] && ranking[i] != ranking[j];
    }
    forall i: nat | i < n ensures ranking[i] == i {
      IncreasingBelow(ranking, n, i);
    }
  }

  /** An increasing list of n numbers below n is 0, 1, 2, ... */
  lemma IncreasingBelow(s: seq<nat>, n: nat, i: nat)
    requires |s| == n && Increasing(s) && (forall k :: 0 <= k < n ==> s[k] < n) && i < n
    ensures s[i] == i
  {
    AtLeast(s, i);
    AtMost(s, n, i);
  }

  lemma {:induction false} AtLeast(s: seq<nat>, i: nat)
    requires Increasing(s) && i < |s|
    ensures s[i] >= i
  {
    if i > 0 {
      AtLeast(s, i - 1);
    }
  }

  lemma {:induction false} AtMost(s: seq<nat>, n: nat, i: nat)
    requires |s| == n && Increasing(s) && (forall k :: 0 <= k < n ==> s[k] < n) && i < n
    ensures s[i] <= i
    decreases n - i
  {
    if i + 1 < n {
      AtMost(s, n, i + 1);
    }
  }

  /** Rows of one entry that is 1 or -1 are their own unit rows. */
  lemma SignSimilarity(x: real, y: real, sqrt: real -> real)
    requires IsRoot(sqrt) && (x == 1.0 || x == -1.0) && (y == 1.0 || y == -1.0)
    ensures Similarity([x], [y], sqrt) == x * y
  {
    SignUnit(x, sqrt);
    SignUnit(y, sqrt);
    assert Inner([x], [y]) == x * y by { assert Dot([x], [y], 0) == 0.0; }
  }

  lemma SignUnit(x: real, sqrt: real -> real)
    requires IsRoot(sqrt) && (x == 1.0 || x == -1.0)
    ensures Unit([x], sqrt) == [x]
  {
    assert Inner([x], [x]) == 1.0 by { assert Dot([x], [x], 0) == 0.0; }
    RootOfOne(sqrt(1.0));
    assert Inverse([x], sqrt) == 1.0;
    assert Scaled([x], 1.0) == [x];
  }

  lemma RootOfOne(s: real)
    requires s > 0.0 && s * s == 1.0
    ensures s == 1.0
  {
    assert (s - 1.0) * (s + 1.0) == 0.0;
  }

  /** The first pair has similarity -1, all others 1. */
  lemma OnePairOpposite(sims: seq<real>, n: nat, important: nat, sqrt: real -> real, i: nat)
    requires IsRoot(sqrt) && important <= n && i < (n - important) / 2
    requires PairSimilarities(sims, Upto(n)[important..], OneOpposite(n, important), n, 1, sqrt)
    ensures sims[i] == if i == 0 then -1.0 else 1.0
  {
    var rest, e := Upto(n)[important..], OneOpposite(n, important);
    assert rest[2 * i] == important + 2 * i && rest[2 * i + 1] == important + 2 * i + 1;
    assert Row(e, n, 1, important + 2 * i) == [e[important + 2 * i]];
    assert Row(e, n, 1, important + 2 * i + 1) == [e[important + 2 * i + 1]];
    SignSimilarity(e[important + 2 * i], e[important + 2 * i + 1], sqrt);
  }

  lemma LaterIsNotLarger(order: seq<nat>, keys: seq<real>, a: int, b: int)
    requires Ranks(order, keys) && 0 <= a < b < |order|
    ensures keys[order[a]] >= keys[order[b]] && order[a] != order[b]
  {
  }

  /** When the first pair is the least similar one, it comes out last: with a second survivor the pairs
      do not increase. */
  lemma FirstPairLast(sims: seq<real>, order: seq<nat>, r: nat)
    requires Ranks(order, sims) && r + 2 <= |order|
    requires forall i :: 0 <= i < |sims| ==> sims[i] == if i == 0 then -1.0 else 1.0
    ensures !Increasing(order[r..])
  {
    var last := |order| - 1;
    assert 0 in order;
    var a :| 0 <= a < |order| && order[a] == 0;
    if a < last {
      LaterIsNotLarger(order, sims, a, last);
    }
    assert order[r..][last - r] == 0 && order[r..][last - r - 1] == order[last - 1] != 0;
  }

  ghost predicate OnFailingData(p: Pruning, n: nat, important: nat) {
    && p.embeddings == OneOpposite(n, important) && p.hidden == 1
    && p.attn == Repeated(Falling(n), n) && p.nHeads == 1
  }

  lemma FailingRanking(p: Pruning, n: nat, important: nat, room: nat, sqrt: real -> real)
    requires IsRoot(sqrt) && Reported(p, n, important, room, sqrt) && OnFailingData(p, n, important)
    ensures |p.importance| == n && p.ranking == Upto(n) && NoTies(p.ranking, p.importance)
  {
    RepeatedLength(Falling(n), n);
    assert p.nHeads * n == n;
    ImportanceFalls(p.importance, n);
    FallingRanking(p.importance, p.ranking, n);
  }

  /** With more than one surviving pair, every pruning of the failing data breaks the promise, however ties
      are resolved. */
  lemma ManyPairsLoseOrder(p: Pruning, n: nat, important: nat, room: nat, sqrt: real -> real)
    requires IsRoot(sqrt) && Reported(p, n, important, room, sqrt) && OnFailingData(p, n, important)
    requires !FewPairs(n - important, room)
    ensures !ByImportance(p.selected, p.importance) && !FollowsRanking(p.selected, p.ranking)
  {
    ReportedParts(p, n, important, room, sqrt);
    FailingRanking(p, n, important, room, sqrt);
    forall i | 0 <= i < |p.sims| ensures p.sims[i] == if i == 0 then -1.0 else 1.0 {
      OnePairOpposite(p.sims, n, important, sqrt, i);
    }
    LosesOrder(p.selected, p.ranking, p.importance, p.sims, p.pairOrder, important, room);
  }

  lemma LosesOrder(selected: seq<nat>, ranking: seq<nat>, importance: seq<real>, sims: seq<real>,
                   pairOrder: seq<nat>, important: nat, room: nat)
    requires important + room < |ranking| && |sims| == (|ranking| - important) / 2
    requires Ranks(ranking, importance) && NoTies(ranking, importance)
    requires Chosen(selected, ranking, sims, pairOrder, important, room, false)
    requires !FewPairs(|ranking| - important, room)
    requires forall i :: 0 <= i < |sims| ==> sims[i] == if i == 0 then -1.0 else 1.0
    ensures !ByImportance(selected, importance) && !FollowsRanking(selected, ranking)
  {
    OrderIff(selected, ranking, sims, pairOrder, important, room);
    TwoLeft(sims, pairOrder, |ranking| - important, room);
    if ByImportance(selected, importance) {
      ByImportanceFollows(selected, ranking, importance);
    }
  }

  lemma TwoLeft(sims: seq<real>, pairOrder: seq<nat>, size: nat, room: nat)
    requires size > room && PairsToDrop(size, room) <= |pairOrder| == size / 2 && !FewPairs(size, room)
    requires Ranks(pairOrder, sims)
    requires forall i :: 0 <= i < |sims| ==> sims[i] == if i == 0 then -1.0 else 1.0
    ensures !Increasing(KeptPairs(pairOrder, size, room))
  {
    FewPairsMeansOneLeft(size, room);
    FirstPairLast(sims, pairOrder, PairsToDrop(size, room));
  }

  // ---------------------------------------------------------------- exactly when the promise is kept

  /** The promise holds of every pruning with these counts. */
  ghost predicate AlwaysByImportance(n: nat, important: nat, room: nat, sqrt: real -> real)
    requires IsRoot(sqrt)
  {
    forall p: Pruning :: Reported(p, n, important, room, sqrt) ==> ByImportance(p.selected, p.importance)
  }

  function FirstLast(m: nat): (order: seq<nat>)
    ensures |order| == m
  {
    seq(m, (i: nat) requires i < m => if i + 1 < m then i + 1 else 0)
  }

  function FirstOpposite(m: nat): (sims: seq<real>)
    ensures |sims| == m
  {
    seq(m, (i: nat) requires i < m => if i == 0 then -1.0 else 1.0)
  }

  /** A pruning of the failing data. */
  function FailingPruning(n: nat, important: nat, room: nat): Pruning
    requires important + room < n && PairsToDrop(n - important, room) <= (n - important) / 2
  {
    var order := FirstLast((n - important) / 2);
    Pruning(OneOpposite(n, important), 1, Repeated(Falling(n), n), 1, Choice(Upto(n), order, important, room),
            Falling(n), Upto(n), FirstOpposite((n - important) / 2), order)
  }

  lemma FirstLastRanks(m: nat)
    ensures Ranks(FirstLast(m), FirstOpposite(m))
  {
    forall p: nat | p < m ensures p in FirstLast(m) {
      assert FirstLast(m)[if p == 0 then m - 1 else p - 1] == p;
    }
  }

  lemma UptoRanks(n: nat)
    ensures Ranks(Upto(n), Falling(n))
  {
    forall p: nat | p < n ensures p in Upto(n) {
      assert Upto(n)[p] == p;
    }
  }

  lemma FallingIsMean(n: nat)
    requires n >= 1
    ensures n * n <= |Repeated(Falling(n), n)|
    ensures MeanAttention(Falling(n), Repeated(Falling(n), n), n, n)
  {
    RepeatedLength(Falling(n), n);
    forall p: nat | p < n
      ensures Falling(n)[p] * n as real == Received(Repeated(Falling(n), n), n, p, n)
    {
      ReceivedFalls(n, p, n);
    }
  }

  lemma OppositeSimilarities(n: nat, important: nat, sqrt: real -> real)
    requires IsRoot(sqrt) && important <= n
    ensures PairSimilarities(FirstOpposite((n - important) / 2), Upto(n)[important..], OneOpposite(n, important), n, 1,
                             sqrt)
  {
    var rest, e := Upto(n)[important..], OneOpposite(n, important);
    forall i | 0 <= i < (n - important) / 2
      ensures FirstOpposite((n - important) / 2)[i] ==
              Similarity(Row(e, n, 1, rest[2 * i]), Row(e, n, 1, rest[2 * i + 1]), sqrt)
    {
      assert rest[2 * i] == important + 2 * i && rest[2 * i + 1] == important + 2 * i + 1;
      assert Row(e, n, 1, important + 2 * i) == [e[important + 2 * i]];
      assert Row(e, n, 1, important + 2 * i + 1) == [e[important + 2 * i + 1]];
      SignSimilarity(e[important + 2 * i], e[important + 2 * i + 1], sqrt);
    }
  }

  lemma IsReported(p: Pruning, n: nat, important: nat, room: nat, sqrt: real -> real)
    requires IsRoot(sqrt) && important + room < n && p.nHeads >= 1
    requires |p.embeddings| == n * p.hidden && (p.nHeads * n) * n <= |p.attn|
    requires MeanAttention(p.importance, p.attn, n, p.nHeads * n) && Ranks(p.ranking, p.importance) && |p.ranking| == n
    requires PairSimilarities(p.sims, p.ranking[important..], p.embeddings, n, p.hidden, sqrt)
    requires Chosen(p.selected, p.ranking, p.sims, p.pairOrder, important, room, false)
    ensures Reported(p, n, important, room, sqrt)
  {
  }

  lemma FailingChosen(n: nat, important: nat, room: nat)
    requires important + room < n && PairsToDrop(n - important, room) <= (n - important) / 2
    ensures var p := FailingPruning(n, important, room);
      Chosen(p.selected, p.ranking, p.sims, p.pairOrder, important, room, false)
  {
    var m, rest := (n - important) / 2, Upto(n)[important..];
    FirstLastRanks(m);
    OneRound(rest, room, FirstOpposite(m), FirstLast(m));
    CombineChoice(Upto(n), important, room, Survivors(rest, FirstLast(m)[PairsToDrop(|rest|, room)..]),
                  FirstOpposite(m), FirstLast(m));
  }

  lemma FailingPruningIsReported(n: nat, important: nat, room: nat, sqrt: real -> real)
    requires IsRoot(sqrt) && important + room < n && PairsToDrop(n - important, room) <= (n - important) / 2
    ensures Reported(FailingPruning(n, important, room), n, important, room, sqrt)
  {
    UptoRanks(n);
    FallingIsMean(n);
    OppositeSimilarities(n, important, sqrt);
    FailingChosen(n, important, room);
    var p := FailingPruning(n, important, room);
    assert p.nHeads * n == n && n * p.hidden == n;
    IsReported(p, n, important, room, sqrt);
  }

  /** For all counts: the order by importance is kept on all data if and only if at most one pair survives,
      that is with room for at most three tokens, or for four behind an odd number of candidates. */
  lemma OrderPromiseIff(n: nat, important: nat, room: nat, sqrt: real -> real)
    requires IsRoot(sqrt) && important + room < n && PairsToDrop(n - important, room) <= (n - important) / 2
    ensures AlwaysByImportance(n, important, room, sqrt) <==> FewPairs(n - important, room)
  {
    if FewPairs(n - important, room) {
      forall p: Pruning | Reported(p, n, important, room, sqrt) ensures ByImportance(p.selected, p.importance) {
        ReportedParts(p, n, important, room, sqrt);
        FewPairsKeepOrder(p.selected, p.ranking, p.importance, p.sims, p.pairOrder, important, room);
      }
    } else {
      var p := FailingPruning(n, important, room);
      FailingPruningIsReported(n, important, room, sqrt);
      ManyPairsLoseOrder(p, n, important, room, sqrt);
    }
  }

  lemma ShareAccepts(n: nat, attn: seq<real>, target: nat, ratio: real)
    requires target < n && 1.0 <= target as real * ratio < target as real
    ensures !Rejected(n, Some(attn), n, target, ratio)
    ensures forall k: int :: IsShare(k, target, ratio) ==> k < target
  {
  }

  /** Prune without keeping the position order, for a request whose share is accepted. */
  method PruneUnsorted(embeddings: seq<real>, n: nat, hidden: nat, attn: seq<real>, nHeads: nat, target: nat,
                       ratio: real, sqrt: real -> real) returns (p: Pruning, important: nat, room: nat)
    requires IsRoot(sqrt) && WellShaped(embeddings, n, hidden, Some(attn), n, nHeads)
    requires target < n && 1.0 <= target as real * ratio < target as real
    ensures IsShare(important, target, ratio) && important >= 1 && room >= 1 && important + room == target
    ensures Reported(p, n, important, room, sqrt)
    ensures p.embeddings == embeddings && p.hidden == hidden && p.attn == attn && p.nHeads == nHeads
  {
    ShareAccepts(n, attn, target, ratio);
    var outcome, pruned, count, selected, importance, ranking, sims, pairOrder;
    outcome, pruned, count, selected, importance, ranking, sims, pairOrder, important :=
      Prune(embeddings, n, hidden, Some(attn), n, nHeads, target, ratio, false, sqrt);
    p := Pruning(embeddings, hidden, attn, nHeads, selected, importance, ranking, sims, pairOrder);
    room := target - important;
    IsReported(p, n, important, room, sqrt);
  }

  lemma ShareInside(important: nat, target: nat, ratio: real)
    requires 1 <= important < target && IsShare(important, target, ratio)
    ensures 1.0 <= target as real * ratio < target as real
  {
    var share := target as real * ratio;
    assert important as real <= share < important as real + 1.0;
    assert (important + 1) as real <= target as real;
  }

  lemma FailingDataFits(n: nat, important: nat)
    ensures WellShaped(OneOpposite(n, important), n, 1, Some(Repeated(Falling(n), n)), n, 1)
  {
    RepeatedLength(Falling(n), n);
  }

  lemma SameReport(p: Pruning, n: nat, share: nat, left: nat, important: nat, room: nat, sqrt: real -> real)
    requires IsRoot(sqrt) && share == important && left == room && Reported(p, n, share, left, sqrt)
    ensures Reported(p, n, important, room, sqrt)
  {
  }

  /** The same when the share is known beforehand. */
  method PruneShare(embeddings: seq<real>, n: nat, hidden: nat, attn: seq<real>, nHeads: nat, important: nat,
                    room: nat, ratio: real, sqrt: real -> real) returns (p: Pruning)
    requires IsRoot(sqrt) && WellShaped(embeddings, n, hidden, Some(attn), n, nHeads)
    requires important >= 1 && room >= 1 && important + room < n && IsShare(important, important + room, ratio)
    ensures Reported(p, n, important, room, sqrt)
    ensures p.embeddings == embeddings && p.hidden == hidden && p.attn == attn && p.nHeads == nHeads
  {
    var target := important + room;
    ShareInside(important, target, ratio);
    var share, left;
    p, share, left := PruneUnsorted(embeddings, n, hidden, attn, nHeads, target, ratio, sqrt);
    ShareIsUnique(important, share, target, ratio);
    SameReport(p, n, share, left, important, room, sqrt);
  }

  /** Pruning the failing data for a target of `important` + `room`, of which `important` is the share: whenever more
      than one pair survives, the tokens come back out of order. */
  method PruneOutOfOrder(n: nat, important: nat, room: nat, ratio: real, sqrt: real -> real) returns (p: Pruning)
    requires IsRoot(sqrt) && important + room < n && 1 <= important && IsShare(important, important + room, ratio)
    requires !FewPairs(n - important, room)
    ensures OnFailingData(p, n, important)
    ensures !ByImportance(p.selected, p.importance)
  {
    FailingDataFits(n, important);
    p := PruneShare(OneOpposite(n, important), n, 1, Repeated(Falling(n), n), 1, important, room, ratio, sqrt);
    ManyPairsLoseOrder(p, n, important, room, sqrt);
  }
}
