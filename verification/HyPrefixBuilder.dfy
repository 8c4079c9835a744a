/** The prefix builder: it prints the images and the instruction into one token sequence with a
    modality mask.  Scanning the printed mask recovers the images. */
module HyPrefixBuilder {
  import opened Common
  import opened HyPrefixScan

  const BOS_ID := 120000
  const USER_ID := 120006
  const VISION_START_ID := 120684
  const VISION_END_ID := 120685
  const VISION_SPLIT_ID := 120689

  /** A text token stands for its embedding row, a patch for the visual row with that index. */
  datatype Token = Text(id: int) | Patch(index: nat)

  function Modality(t: Token): int {
    if t.Patch? then 1 else 0
  }

  function Modalities(ts: seq<Token>): (m: seq<int>)
    ensures |m| == |ts|
  {
    seq(|ts|, i requires 0 <= i < |ts| => Modality(ts[i]))
  }

  lemma ModalitiesConcat(a: seq<Token>, b: seq<Token>)
    ensures Modalities(a + b) == Modalities(a) + Modalities(b)
  {
  }

  // ---------------------------------------------------------------- the printed language

  /** The first `c` patches of row `r` of an image whose patches start at `base`. */
  function RowPatches(base: nat, grid: nat, r: nat, c: nat): (ts: seq<Token>)
    ensures |ts| == c
  {
    if c == 0 then [] else RowPatches(base, grid, r, c - 1) + [Patch(base + r * grid + (c - 1))]
  }

  /** The first `r` rows, each closed by a separator. */
  function Rows(base: nat, grid: nat, r: nat): seq<Token> {
    if r == 0 then []
    else Rows(base, grid, r - 1) + RowPatches(base, grid, r - 1, grid) + [Text(VISION_SPLIT_ID)]
  }

  function ImageBlock(image: nat, grid: nat): seq<Token> {
    [Text(VISION_START_ID)] + Rows(image * (grid * grid), grid, grid) + [Text(VISION_END_ID)]
  }

  function Images(n: nat, grid: nat): seq<Token> {
    if n == 0 then [] else Images(n - 1, grid) + ImageBlock(n - 1, grid)
  }

  function TextTokens(ids: seq<int>): (ts: seq<Token>)
    ensures |ts| == |ids|
  {
    seq(|ids|, i requires 0 <= i < |ids| => Text(ids[i]))
  }

  function PrefixTokens(nImages: nat, grid: nat, lang: seq<int>): seq<Token> {
    TextTokens([BOS_ID, USER_ID]) + Images(nImages, grid) + TextTokens(lang)
  }

  /** Nearest integer to the square root; only whether it is exact matters. */
  method RootOf(v: nat) returns (grid: nat)
    ensures grid * grid <= v < (grid + 1) * (grid + 1)
  {
    grid := 0;
    while (grid + 1) * (grid + 1) <= v
      invariant grid * grid <= v
      decreases v - grid
    {
      grid := grid + 1;
    }
  }

  predicate IsSquare(v: int) {
    exists g :: 0 <= g <= v && g * g == v
  }

  /** `nViews` visual tokens in images of `perImage` tokens each, then the instruction. */
  method BuildPrefix(hasVisual: bool, nViews: int, perImage: int, lang: seq<int>)
    returns (ok: bool, tokens: seq<Token>, modality: seq<int>)
    ensures ok <==> hasVisual && nViews >= 1 && lang != [] && perImage > 0 && nViews % perImage == 0 &&
                    IsSquare(perImage)
    ensures ok ==> exists grid: nat ::
              (grid * grid == perImage && tokens == PrefixTokens(nViews / perImage, grid, lang))
    ensures ok ==> modality == Modalities(tokens)
  {
    tokens, modality := [], [];
    if !hasVisual || nViews < 1 || |lang| < 1 {
      return false, [], [];
    }
    if perImage <= 0 || nViews % perImage != 0 {
      return false, [], [];
    }
    var grid := RootOf(perImage);
    if grid * grid != perImage {
      NotSquare(perImage, grid);
      return false, [], [];
    }
    assert IsSquare(perImage) by { SquareBound(grid); }
    tokens, modality := PrintPrefix(nViews / perImage, grid, lang);
    ok := true;
  }

  lemma SquareBound(g: nat)
    ensures g <= g * g
  {
  }

  lemma NotSquare(v: nat, grid: nat)
    requires grid * grid < v < (grid + 1) * (grid + 1)
    ensures !IsSquare(v)
  {
    forall g: nat ensures g * g != v {
      if g <= grid {
        SquaresGrow(g, grid);
      } else {
        SquaresGrow(grid + 1, g);
      }
    }
  }

  lemma SquaresGrow(a: nat, b: nat)
    requires a <= b
    ensures a * a <= b * b
  {
  }

  method AddIds(tokens: seq<Token>, modality: seq<int>, ids: seq<int>)
    returns (tokens': seq<Token>, modality': seq<int>)
    requires modality == Modalities(tokens)
    ensures tokens' == tokens + TextTokens(ids) && modality' == Modalities(tokens')
  {
    tokens' := tokens + TextTokens(ids);
    modality' := modality + seq(|ids|, _ => 0);
  }

  method PrintImage(tokens: seq<Token>, modality: seq<int>, image: nat, grid: nat)
    returns (tokens': seq<Token>, modality': seq<int>)
    requires modality == Modalities(tokens)
    ensures tokens' == tokens + ImageBlock(image, grid) && modality' == Modalities(tokens')
  {
    tokens', modality' := AddIds(tokens, modality, [VISION_START_ID]);
    ghost var start := tokens';
    ghost var base := image * (grid * grid);
    assert tokens' == tokens + [Text(VISION_START_ID)];
    for r := 0 to grid
      invariant modality' == Modalities(tokens')
      invariant tokens' == start + Rows(base, grid, r)
    {
      ghost var before := tokens';
      for c := 0 to grid
        invariant modality' == Modalities(tokens')
        invariant tokens' == before + RowPatches(base, grid, r, c)
      {
        tokens' := tokens' + [Patch(image * (grid * grid) + r * grid + c)];
        modality' := modality' + [1];
      }
      tokens', modality' := AddIds(tokens', modality', [VISION_SPLIT_ID]);
      assert TextTokens([VISION_SPLIT_ID]) == [Text(VISION_SPLIT_ID)];
      assert tokens' == start + (Rows(base, grid, r) + RowPatches(base, grid, r, grid) + [Text(VISION_SPLIT_ID)]);
    }
    tokens', modality' := AddIds(tokens', modality', [VISION_END_ID]);
    assert TextTokens([VISION_END_ID]) == [Text(VISION_END_ID)];
    assert tokens' == tokens + ImageBlock(image, grid);
  }

  method PrintPrefix(nImages: nat, grid: nat, lang: seq<int>) returns (tokens: seq<Token>, modality: seq<int>)
    ensures tokens == PrefixTokens(nImages, grid, lang) && modality == Modalities(tokens)
  {
    tokens, modality := AddIds([], [], [BOS_ID, USER_ID]);
    ghost var start := tokens;
    for img := 0 to nImages
      invariant modality == Modalities(tokens)
      invariant tokens == start + Images(img, grid)
    {
      Reassociate(start, Images(img, grid), ImageBlock(img, grid));
      tokens, modality := PrintImage(tokens, modality, img, grid);
    }
    tokens, modality := AddIds(tokens, modality, lang);
  }

  // ---------------------------------------------------------------- scanning what was printed

  /** The scan continued from a state over the given values, which start at position `at`. */
  function ScanFrom(s: Scan, values: seq<int>, at: nat): Scan {
    if values == [] then s
    else
      var n := |values| - 1;
      ScanStep(ScanFrom(s, values[..n], at), values[n], at + n)
  }

  lemma {:induction false} ScanFromConcat(s: Scan, a: seq<int>, b: seq<int>, at: nat)
    ensures ScanFrom(s, a + b, at) == ScanFrom(ScanFrom(s, a, at), b, at + |a|)
    decreases |b|
  {
    if b == [] {
      assert a + b == a;
    } else {
      var n := |b| - 1;
      assert (a + b)[..|a + b| - 1] == a + b[..n];
      ScanFromConcat(s, a, b[..n], at);
    }
  }

  lemma {:induction false} ScanPrefixIsScanFrom(mask: seq<int>, n: nat)
    requires n <= |mask|
    ensures ScanPrefix(mask, n) == ScanFrom(Scan([], [], 0), mask[..n], 0)
  {
    if n > 0 {
      ScanPrefixIsScanFrom(mask, n - 1);
      assert mask[..n][..n - 1] == mask[..n - 1];
    }
  }

  /** The printed tokens, scanned from position `at` on, take the scanner from one state to the other. */
  predicate Scans(from: Scan, tokens: seq<Token>, at: nat, to: Scan) {
    ScanFrom(from, Modalities(tokens), at) == to
  }

  /** Printed pieces are scanned one after the other. */
  lemma Chain(from: Scan, a: seq<Token>, mid: Scan, b: seq<Token>, to: Scan, at: nat, atB: nat)
    requires Scans(from, a, at, mid) && atB == at + |a| && Scans(mid, b, atB, to)
    ensures Scans(from, a + b, at, to)
  {
    ModalitiesConcat(a, b);
    ScanFromConcat(from, Modalities(a), Modalities(b), at);
  }

  /** `count` consecutive positions. */
  function Consecutive(at: nat, count: nat): (s: seq<nat>)
    ensures |s| == count && forall i :: 0 <= i < count ==> s[i] == at + i
  {
    seq(count, i requires 0 <= i < count => at + i)
  }

  /** Positions of the patches of the first `r` rows when the first row starts at `at`. */
  function PatchPositions(at: nat, grid: nat, r: nat): seq<nat> {
    if r == 0 then [] else PatchPositions(at, grid, r - 1) + Consecutive(at + (r - 1) * (grid + 1), grid)
  }

  lemma ScanOne(s: Scan, t: Token, at: nat)
    ensures Scans(s, [t], at, ScanStep(s, Modality(t), at))
  {
  }

  lemma {:induction false} ScanRow(s: Scan, base: nat, grid: nat, r: nat, c: nat, at: nat)
    requires c >= 1
    ensures Scans(s, RowPatches(base, grid, r, c), at, Scan(s.groups, s.open + Consecutive(at, c), 0))
  {
    var front, last := RowPatches(base, grid, r, c - 1), Patch(base + r * grid + (c - 1));
    if c == 1 {
      assert front == [] && RowPatches(base, grid, r, c) == [last];
      assert s.open + Consecutive(at, 0) == s.open;
      ScanOne(s, last, at);
    } else {
      var mid := Scan(s.groups, s.open + Consecutive(at, c - 1), 0);
      ScanRow(s, base, grid, r, c - 1, at);
      ScanOne(mid, last, at + (c - 1));
      Chain(s, front, mid, [last], ScanStep(mid, 1, at + (c - 1)), at, at + (c - 1));
    }
  }

  lemma {:induction false} RowsLength(base: nat, grid: nat, r: nat)
    ensures |Rows(base, grid, r)| == r * (grid + 1)
  {
    if r > 0 {
      RowsLength(base, grid, r - 1);
      assert (r - 1) * (grid + 1) + grid + 1 == r * (grid + 1);
    }
  }

  /** A row of patches and the separator behind it: one zero is not a gap, so the group stays open. */
  lemma ScanRowAndSplit(groups: seq<seq<nat>>, zeros: nat, base: nat, grid: nat, r: nat, at: nat, atRow: nat)
    requires grid >= 1 && atRow == at + r * (grid + 1)
    ensures Scans(Scan(groups, PatchPositions(at, grid, r), zeros),
                  RowPatches(base, grid, r, grid) + [Text(VISION_SPLIT_ID)], atRow,
                  Scan(groups, PatchPositions(at, grid, r + 1), 1))
  {
    var from := Scan(groups, PatchPositions(at, grid, r), zeros);
    var mid := Scan(groups, PatchPositions(at, grid, r + 1), 0);
    ScanRow(from, base, grid, r, grid, atRow);
    ScanOne(mid, Text(VISION_SPLIT_ID), atRow + grid);
    Chain(from, RowPatches(base, grid, r, grid), mid, [Text(VISION_SPLIT_ID)], mid.(zeros := 1), atRow, atRow + grid);
  }

  lemma {:induction false} ScanRows(groups: seq<seq<nat>>, zeros: nat, base: nat, grid: nat, r: nat, at: nat)
    requires grid >= 1 && r >= 1
    ensures Scans(Scan(groups, [], zeros), Rows(base, grid, r), at, Scan(groups, PatchPositions(at, grid, r), 1))
  {
    var front, row, split := Rows(base, grid, r - 1), RowPatches(base, grid, r - 1, grid), [Text(VISION_SPLIT_ID)];
    var from, to := Scan(groups, [], zeros), Scan(groups, PatchPositions(at, grid, r), 1);
    Reassociate(front, row, split);
    if r == 1 {
      ScanRowAndSplit(groups, zeros, base, grid, 0, at, at);
      assert front + (row + split) == row + split;
    } else {
      ScanRows(groups, zeros, base, grid, r - 1, at);
      RowsLength(base, grid, r - 1);
      var atRow := at + (r - 1) * (grid + 1);
      ScanRowAndSplit(groups, 1, base, grid, r - 1, at, atRow);
      Chain(from, front, Scan(groups, PatchPositions(at, grid, r - 1), 1), row + split, to, at, atRow);
    }
  }

  /** One image adds one group and closes it. */
  lemma ScanImage(groups: seq<seq<nat>>, zeros: nat, image: nat, grid: nat, at: nat)
    requires grid >= 1
    ensures Scans(Scan(groups, [], zeros), ImageBlock(image, grid), at,
                  Scan(groups + [PatchPositions(at + 1, grid, grid)], [], 2))
  {
    var start, rows, end := [Text(VISION_START_ID)], Rows(image * (grid * grid), grid, grid), [Text(VISION_END_ID)];
    var from, started := Scan(groups, [], zeros), Scan(groups, [], zeros + 1);
    var filled := Scan(groups, PatchPositions(at + 1, grid, grid), 1);
    ScanOne(from, Text(VISION_START_ID), at);
    ScanRows(groups, zeros + 1, image * (grid * grid), grid, grid, at + 1);
    Chain(from, start, started, rows, filled, at, at + 1);
    PositionsLength(at + 1, grid, grid);
    var atEnd := at + |start + rows|;
    ScanOne(filled, Text(VISION_END_ID), atEnd);
    Chain(from, start + rows, filled, end, ScanStep(filled, 0, atEnd), at, atEnd);
  }

  lemma {:induction false} PositionsLength(at: nat, grid: nat, r: nat)
    ensures |PatchPositions(at, grid, r)| == r * grid
    ensures r >= 1 && grid >= 1 ==> PatchPositions(at, grid, r) != []
  {
    if r > 0 {
      PositionsLength(at, grid, r - 1);
      assert (r - 1) * grid + grid == r * grid;
    }
  }

  lemma TextTokensFront(ids: seq<int>)
    requires ids != []
    ensures TextTokens(ids) == TextTokens(ids[..|ids| - 1]) + [Text(ids[|ids| - 1])]
  {
  }

  lemma {:induction false} ScanTextTokens(groups: seq<seq<nat>>, zeros: nat, ids: seq<int>, at: nat)
    ensures Scans(Scan(groups, [], zeros), TextTokens(ids), at, Scan(groups, [], zeros + |ids|))
  {
    if ids == [] {
      assert Modalities(TextTokens(ids)) == [];
    } else {
      var n := |ids| - 1;
      var mid := Scan(groups, [], zeros + n);
      ScanTextTokens(groups, zeros, ids[..n], at);
      ScanOne(mid, Text(ids[n]), at + n);
      TextTokensFront(ids);
      Chain(Scan(groups, [], zeros), TextTokens(ids[..n]), mid, [Text(ids[n])], mid.(zeros := zeros + n + 1), at,
            at + n);
    }
  }

  /** Tokens of one printed image. */
  function BlockLength(grid: nat): nat {
    grid * (grid + 1) + 2
  }

  lemma {:induction false} ImagesLength(n: nat, grid: nat)
    ensures |Images(n, grid)| == n * BlockLength(grid)
  {
    if n > 0 {
      ImagesLength(n - 1, grid);
      RowsLength((n - 1) * (grid * grid), grid, grid);
      assert (n - 1) * BlockLength(grid) + BlockLength(grid) == n * BlockLength(grid);
    }
  }

  /** Where image `image` puts its first patch. */
  function FirstPatch(image: nat, grid: nat): nat {
    2 + image * BlockLength(grid) + 1
  }

  function ExpectedGroups(nImages: nat, grid: nat): seq<seq<nat>> {
    seq(nImages, i requires 0 <= i < nImages => PatchPositions(FirstPatch(i, grid), grid, grid))
  }

  lemma ScanNextImage(n: nat, grid: nat, zeros: nat, at: nat)
    requires grid >= 1 && at == 2 + n * BlockLength(grid)
    ensures Scans(Scan(ExpectedGroups(n, grid), [], zeros), ImageBlock(n, grid), at,
                  Scan(ExpectedGroups(n + 1, grid), [], 2))
  {
    ScanImage(ExpectedGroups(n, grid), zeros, n, grid, at);
    assert ExpectedGroups(n + 1, grid) == ExpectedGroups(n, grid) + [PatchPositions(at + 1, grid, grid)];
  }

  lemma NoImages(grid: nat, zeros: nat)
    ensures Scans(Scan([], [], zeros), Images(0, grid), 2, Scan(ExpectedGroups(0, grid), [], zeros))
  {
  }

  lemma {:induction false} ScanImages(nImages: nat, grid: nat)
    requires grid >= 1
    ensures Scans(Scan([], [], 2), Images(nImages, grid), 2, Scan(ExpectedGroups(nImages, grid), [], 2))
  {
    if nImages == 0 {
      NoImages(grid, 2);
    } else {
      var n := nImages - 1;
      ScanImages(n, grid);
      ImagesLength(n, grid);
      var at := 2 + n * BlockLength(grid);
      ScanNextImage(n, grid, 2, at);
      Chain(Scan([], [], 2), Images(n, grid), Scan(ExpectedGroups(n, grid), [], 2), ImageBlock(n, grid),
            Scan(ExpectedGroups(nImages, grid), [], 2), 2, at);
    }
  }

  /** The whole prefix: two head tokens, the images, the instruction. */
  lemma ScanPrefixTokens(nImages: nat, grid: nat, lang: seq<int>)
    requires grid >= 1
    ensures Scans(Scan([], [], 0), PrefixTokens(nImages, grid, lang), 0,
                  Scan(ExpectedGroups(nImages, grid), [], 2 + |lang|))
  {
    var head, images := TextTokens([BOS_ID, USER_ID]), Images(nImages, grid);
    var empty, closed := Scan([], [], 0), Scan(ExpectedGroups(nImages, grid), [], 2);
    ScanTextTokens([], 0, [BOS_ID, USER_ID], 0);
    ScanImages(nImages, grid);
    Chain(empty, head, Scan([], [], 2), images, closed, 0, 2);
    ScanTextTokens(ExpectedGroups(nImages, grid), 2, lang, |head + images|);
    Chain(empty, head + images, closed, TextTokens(lang), closed.(zeros := 2 + |lang|), 0, |head + images|);
  }

  /** Scanning the printed mask gives back one group per image, with exactly the positions of its patches. */
  lemma ScanOfPrintedPrefix(nImages: nat, grid: nat, lang: seq<int>)
    requires grid >= 1
    ensures PatchGroups(Modalities(PrefixTokens(nImages, grid, lang))) == ExpectedGroups(nImages, grid)
  {
    var mask := Modalities(PrefixTokens(nImages, grid, lang));
    ScanPrefixIsScanFrom(mask, |mask|);
    assert mask[..|mask|] == mask;
    ScanPrefixTokens(nImages, grid, lang);
  }

  // ---------------------------------------------------------------- where every patch is

  /** Row-major: column `c` of row `r`. */
  function Index(r: nat, width: nat, c: nat): nat {
    r * width + c
  }

  lemma IndexInside(r: nat, width: nat, c: nat, rows: nat)
    requires r < rows && c < width
    ensures Index(r, width, c) < rows * width
  {
    assert (r + 1) * width <= rows * width;
  }

  /** Patch (r, c) of an image is `r` rows of grid + 1 tokens and `c` tokens further on. */
  lemma {:induction false} PatchPositionAt(at: nat, grid: nat, rows: nat, r: nat, c: nat)
    requires r < rows && c < grid
    ensures |PatchPositions(at, grid, rows)| == rows * grid
    ensures Index(r, grid, c) < rows * grid
    ensures PatchPositions(at, grid, rows)[Index(r, grid, c)] == at + Index(r, grid + 1, c)
  {
    PositionsLength(at, grid, rows);
    PositionsLength(at, grid, rows - 1);
    IndexInside(r, grid, c, rows);
    if r < rows - 1 {
      PatchPositionAt(at, grid, rows - 1, r, c);
    }
  }

  lemma {:induction false} RowPatchAt(base: nat, grid: nat, r: nat, count: nat, c: nat)
    requires c < count
    ensures RowPatches(base, grid, r, count)[c] == Patch(base + Index(r, grid, c))
  {
    if c < count - 1 {
      RowPatchAt(base, grid, r, count - 1, c);
    }
  }

  predicate TokenAt(ts: seq<Token>, i: int, t: Token) {
    0 <= i < |ts| && ts[i] == t
  }

  lemma TokenInFront(a: seq<Token>, b: seq<Token>, i: nat, t: Token)
    requires TokenAt(a, i, t)
    ensures TokenAt(a + b, i, t)
  {
  }

  lemma TokenBehind(a: seq<Token>, b: seq<Token>, i: nat, k: nat, t: Token)
    requires TokenAt(b, i, t) && k == |a| + i
    ensures TokenAt(a + b, k, t)
  {
  }

  lemma {:induction false} PatchInRows(base: nat, grid: nat, rows: nat, r: nat, c: nat)
    requires r < rows && c < grid
    ensures TokenAt(Rows(base, grid, rows), Index(r, grid + 1, c), Patch(base + Index(r, grid, c)))
  {
    var front, row := Rows(base, grid, rows - 1), RowPatches(base, grid, rows - 1, grid);
    var k, patch := Index(r, grid + 1, c), Patch(base + Index(r, grid, c));
    if r < rows - 1 {
      PatchInRows(base, grid, rows - 1, r, c);
      TokenInFront(front, row, k, patch);
    } else {
      RowPatchAt(base, grid, r, grid, c);
      RowsLength(base, grid, r);
      TokenBehind(front, row, c, k, patch);
    }
    TokenInFront(front + row, [Text(VISION_SPLIT_ID)], k, patch);
  }

  /** The visual row that patch (r, c) of image `image` stands for. */
  function PatchOf(image: nat, grid: nat, r: nat, c: nat): Token {
    Patch(Index(image, grid * grid, Index(r, grid, c)))
  }

  lemma PatchInBlock(image: nat, grid: nat, r: nat, c: nat)
    requires r < grid && c < grid
    ensures TokenAt(ImageBlock(image, grid), 1 + Index(r, grid + 1, c), PatchOf(image, grid, r, c))
  {
    var base := image * (grid * grid);
    var k, patch := Index(r, grid + 1, c), PatchOf(image, grid, r, c);
    PatchInRows(base, grid, grid, r, c);
    TokenBehind([Text(VISION_START_ID)], Rows(base, grid, grid), k, 1 + k, patch);
    TokenInFront([Text(VISION_START_ID)] + Rows(base, grid, grid), [Text(VISION_END_ID)], 1 + k, patch);
  }

  /** What a block holds at `k` the joined images hold at `k` behind the images before it. */
  lemma {:induction false} PatchInImages(n: nat, grid: nat, image: nat, k: nat, at: nat, t: Token)
    requires image < n && at == |Images(image, grid)| + k
    ensures TokenAt(ImageBlock(image, grid), k, t) ==> TokenAt(Images(n, grid), at, t)
  {
    var front, block := Images(n - 1, grid), ImageBlock(n - 1, grid);
    assert Images(n, grid) == front + block;
    if TokenAt(ImageBlock(image, grid), k, t) {
      if image < n - 1 {
        PatchInImages(n - 1, grid, image, k, at, t);
        TokenInFront(front, block, at, t);
      } else {
        TokenBehind(front, block, k, at, t);
      }
    }
  }

  /** The position of patch (r, c) of image `image`. */
  function PatchWhere(image: nat, grid: nat, r: nat, c: nat): nat {
    2 + Index(image, grid * (grid + 1) + 2, 1 + Index(r, grid + 1, c))
  }

  lemma WhereImagesEnd(image: nat, grid: nat, r: nat, c: nat)
    ensures PatchWhere(image, grid, r, c) == 2 + (|Images(image, grid)| + (1 + Index(r, grid + 1, c)))
  {
    ImagesLength(image, grid);
  }

  lemma TokenInPrefix(nImages: nat, grid: nat, lang: seq<int>, at: nat, t: Token)
    requires TokenAt(Images(nImages, grid), at, t)
    ensures TokenAt(PrefixTokens(nImages, grid, lang), 2 + at, t)
  {
  }

  lemma PatchIsThere(nImages: nat, grid: nat, lang: seq<int>, image: nat, r: nat, c: nat)
    requires image < nImages && r < grid && c < grid
    ensures TokenAt(PrefixTokens(nImages, grid, lang), PatchWhere(image, grid, r, c), PatchOf(image, grid, r, c))
  {
    var k := 1 + Index(r, grid + 1, c);
    WhereImagesEnd(image, grid, r, c);
    PatchInBlock(image, grid, r, c);
    PatchInImages(nImages, grid, image, k, |Images(image, grid)| + k, PatchOf(image, grid, r, c));
  }

  lemma GroupOfImage(nImages: nat, grid: nat, image: nat, r: nat, c: nat)
    requires image < nImages && r < grid && c < grid
    ensures |ExpectedGroups(nImages, grid)[image]| == grid * grid && Index(r, grid, c) < grid * grid
    ensures ExpectedGroups(nImages, grid)[image][Index(r, grid, c)] == PatchWhere(image, grid, r, c)
  {
    PatchPositionAt(FirstPatch(image, grid), grid, grid, r, c);
  }

  /** Printer and scanner agree: there is one group per image, and entry (r, c) of group `image` is the
      position at which the builder put patch (r, c) of that image. */
  lemma PrintedPatchIsFound(nImages: nat, grid: nat, lang: seq<int>, image: nat, r: nat, c: nat)
    requires image < nImages && r < grid && c < grid
    ensures var groups := PatchGroups(Modalities(PrefixTokens(nImages, grid, lang)));
      && |groups| == nImages && |groups[image]| == grid * grid && Index(r, grid, c) < grid * grid
      && groups[image][Index(r, grid, c)] == PatchWhere(image, grid, r, c)
    ensures TokenAt(PrefixTokens(nImages, grid, lang), PatchWhere(image, grid, r, c), PatchOf(image, grid, r, c))
  {
    PatchIsThere(nImages, grid, lang, image, r, c);
    ScanOfPrintedPrefix(nImages, grid, lang);
    GroupOfImage(nImages, grid, image, r, c);
  }

  // ---------------------------------------------------------------- where every marker is

  lemma {:induction false} SplitInRows(base: nat, grid: nat, rows: nat, r: nat)
    requires r < rows
    ensures TokenAt(Rows(base, grid, rows), Index(r, grid + 1, grid), Text(120689))
  {
    var front, row := Rows(base, grid, rows - 1), RowPatches(base, grid, rows - 1, grid);
    var k := Index(r, grid + 1, grid);
    if r < rows - 1 {
      SplitInRows(base, grid, rows - 1, r);
      TokenInFront(front, row, k, Text(120689));
      TokenInFront(front + row, [Text(VISION_SPLIT_ID)], k, Text(120689));
    } else {
      RowsLength(base, grid, r);
      TokenBehind(front + row, [Text(VISION_SPLIT_ID)], 0, k, Text(120689));
    }
  }

  /** The marker behind every row of patches. */
  lemma SplitInBlock(image: nat, grid: nat, r: nat)
    requires r < grid
    ensures TokenAt(ImageBlock(image, grid), 1 + Index(r, grid + 1, grid), Text(120689))
  {
    var base, k := image * (grid * grid), Index(r, grid + 1, grid);
    SplitInRows(base, grid, grid, r);
    TokenBehind([Text(VISION_START_ID)], Rows(base, grid, grid), k, 1 + k, Text(120689));
    TokenInFront([Text(VISION_START_ID)] + Rows(base, grid, grid), [Text(VISION_END_ID)], 1 + k, Text(120689));
  }

  /** The markers in front of a block and behind its last row. */
  lemma EndsOfBlock(image: nat, grid: nat)
    ensures TokenAt(ImageBlock(image, grid), 0, Text(120684))
    ensures TokenAt(ImageBlock(image, grid), 1 + grid * (grid + 1), Text(120685))
  {
    var base := image * (grid * grid);
    RowsLength(base, grid, grid);
    TokenBehind([Text(VISION_START_ID)] + Rows(base, grid, grid), [Text(VISION_END_ID)], 0, 1 + grid * (grid + 1),
                Text(120685));
  }

  lemma BlockStart(image: nat, grid: nat)
    ensures FirstPatch(image, grid) == 3 + |Images(image, grid)|
  {
    ImagesLength(image, grid);
  }

  /** Token `k` of the block of an image, in the whole prefix. */
  lemma BlockInPrefix(nImages: nat, grid: nat, lang: seq<int>, image: nat, k: nat, at: nat, t: Token)
    requires image < nImages && TokenAt(ImageBlock(image, grid), k, t) && at == |Images(image, grid)| + k
    ensures TokenAt(PrefixTokens(nImages, grid, lang), 2 + at, t)
  {
    PatchInImages(nImages, grid, image, k, at, t);
    TokenInPrefix(nImages, grid, lang, at, t);
  }

  lemma MarkerInPrefix(nImages: nat, grid: nat, lang: seq<int>, image: nat, k: nat, place: nat, t: Token)
    requires image < nImages && TokenAt(ImageBlock(image, grid), k, t) && place + 1 == FirstPatch(image, grid) + k
    ensures TokenAt(PrefixTokens(nImages, grid, lang), place, t)
  {
    BlockStart(image, grid);
    BlockInPrefix(nImages, grid, lang, image, k, place - 2, t);
  }

  /** The markers of every image stand around its patches. */
  lemma PrintedMarkers(nImages: nat, grid: nat, lang: seq<int>, image: nat, r: nat)
    requires image < nImages
    ensures TokenAt(PrefixTokens(nImages, grid, lang), FirstPatch(image, grid) - 1, Text(120684))
    ensures r < grid ==>
              TokenAt(PrefixTokens(nImages, grid, lang), FirstPatch(image, grid) + Index(r, grid + 1, grid),
                      Text(120689))
    ensures TokenAt(PrefixTokens(nImages, grid, lang), FirstPatch(image, grid) + grid * (grid + 1), Text(120685))
  {
    var first, rows := FirstPatch(image, grid), grid * (grid + 1);
    EndsOfBlock(image, grid);
    MarkerInPrefix(nImages, grid, lang, image, 0, first - 1, Text(120684));
    MarkerInPrefix(nImages, grid, lang, image, 1 + rows, first + rows, Text(120685));
    if r < grid {
      var k := Index(r, grid + 1, grid);
      SplitInBlock(image, grid, r);
      MarkerInPrefix(nImages, grid, lang, image, 1 + k, first + k, Text(120689));
    }
  }

  /** Two head tokens in front, the instruction at the end, and nothing between but the images. */
  lemma PrintedEnds(nImages: nat, grid: nat, lang: seq<int>, i: nat)
    ensures var ts := PrefixTokens(nImages, grid, lang);
      && TokenAt(ts, 0, Text(120000)) && TokenAt(ts, 1, Text(120006))
      && |ts| == 2 + nImages * BlockLength(grid) + |lang|
      && (i < |lang| ==> TokenAt(ts, |ts| - |lang| + i, Text(lang[i])))
  {
    ImagesLength(nImages, grid);
    if i < |lang| {
      var front := TextTokens([BOS_ID, USER_ID]) + Images(nImages, grid);
      TokenBehind(front, TextTokens(lang), i, |front| + i, Text(lang[i]));
    }
  }

  // ---------------------------------------------------------------- masks and segments of the printed prefix

  function PrintedMask(nImages: nat, grid: nat, lang: seq<int>): seq<int> {
    Modalities(PrefixTokens(nImages, grid, lang))
  }

  predicate IsPlace(at: nat, grid: nat, r: nat, c: nat, p: int) {
    p == at + Index(r, grid + 1, c)
  }

  /** Position `p` holds a patch of the first `rows` rows. */
  ghost predicate PatchAt(at: nat, grid: nat, rows: nat, p: int) {
    exists r: nat, c: nat :: r < rows && c < grid && IsPlace(at, grid, r, c, p)
  }

  lemma {:induction false} PositionsArePatches(at: nat, grid: nat, rows: nat, p: nat)
    ensures p in PatchPositions(at, grid, rows) <==> PatchAt(at, grid, rows, p)
  {
    if rows > 0 {
      PositionsArePatches(at, grid, rows - 1, p);
      var front, last := PatchPositions(at, grid, rows - 1), Consecutive(at + (rows - 1) * (grid + 1), grid);
      if p in last {
        var c :| 0 <= c < grid && last[c] == p;
        assert IsPlace(at, grid, rows - 1, c, p);
      }
      if PatchAt(at, grid, rows, p) {
        var r: nat, c: nat :| r < rows && c < grid && IsPlace(at, grid, r, c, p);
        if r == rows - 1 {
          assert last[c] == p;
        } else {
          assert p in front;
        }
      }
    }
  }

  ghost predicate InImage(nImages: nat, grid: nat, p: int, i: nat) {
    i < nImages && PatchAt(FirstPatch(i, grid), grid, grid, p)
  }

  ghost predicate IsPatch(nImages: nat, grid: nat, p: int) {
    exists i: nat :: InImage(nImages, grid, p, i)
  }

  /** The vision positions of the printed mask are the patches of the images. */
  lemma PrintedVision(nImages: nat, grid: nat, lang: seq<int>, p: nat)
    requires grid >= 1 && p < |PrintedMask(nImages, grid, lang)|
    ensures PrintedMask(nImages, grid, lang)[p] != 0 <==> IsPatch(nImages, grid, p)
  {
    var mask, groups := PrintedMask(nImages, grid, lang), ExpectedGroups(nImages, grid);
    ScanOfPrintedPrefix(nImages, grid, lang);
    GroupedIsVision(mask, p);
    forall i: nat | i < nImages
      ensures p in groups[i] <==> InImage(nImages, grid, p, i)
    {
      PositionsArePatches(FirstPatch(i, grid), grid, grid, p);
    }
    if Grouped(groups, p) {
      var g :| 0 <= g < |groups| && p in groups[g];
      assert InImage(nImages, grid, p, g);
    }
  }

  /** The rows of image `i`, separators included. */
  function ImageRange(i: nat, grid: nat): Range {
    Range(FirstPatch(i, grid), FirstPatch(i, grid) + grid * (grid + 1))
  }

  function ImageRanges(nImages: nat, grid: nat): seq<Range> {
    seq(nImages, i requires 0 <= i < nImages => ImageRange(i, grid))
  }

  lemma RowColumn(at: nat, grid: nat, p: nat) returns (r: nat, c: nat)
    requires at <= p < at + grid * (grid + 1)
    ensures r < grid && c <= grid && IsPlace(at, grid, r, c, p)
  {
    r, c := (p - at) / (grid + 1), (p - at) % (grid + 1);
    assert (grid - r) * (grid + 1) > 0;
  }

  /** A position is in the rows of an image exactly when it or its left neighbour is a patch. */
  lemma RangeByPatches(at: nat, grid: nat, p: nat)
    requires grid >= 1
    ensures at <= p < at + grid * (grid + 1) <==> PatchAt(at, grid, grid, p) || PatchAt(at, grid, grid, p - 1)
  {
    if at <= p < at + grid * (grid + 1) {
      var r, c := RowColumn(at, grid, p);
      if c == grid {
        assert IsPlace(at, grid, r, c - 1, p - 1);
      }
    }
    if PatchAt(at, grid, grid, p) {
      var r: nat, c: nat :| r < grid && c < grid && IsPlace(at, grid, r, c, p);
      IndexInside(r, grid + 1, c, grid);
    }
    if PatchAt(at, grid, grid, p - 1) {
      var r: nat, c: nat :| r < grid && c < grid && IsPlace(at, grid, r, c, p - 1);
      IndexInside(r, grid + 1, c + 1, grid);
    }
  }

  lemma RangeBehind(i: nat, j: nat, grid: nat)
    requires i < j
    ensures ImageRange(i, grid).end + 2 <= FirstPatch(j, grid)
  {
    var block := BlockLength(grid);
    assert (i + 1) * block <= j * block;
  }

  lemma RangesApart(nImages: nat, grid: nat, lang: seq<int>)
    requires grid >= 1
    ensures ApartRanges(ImageRanges(nImages, grid), |PrintedMask(nImages, grid, lang)|)
  {
    ImagesLength(nImages, grid);
    assert FirstPatch(nImages, grid) <= |PrintedMask(nImages, grid, lang)| + 1;
    forall i: nat, j: nat | i < j
      ensures ImageRange(i, grid).end + 2 <= FirstPatch(j, grid)
    {
      RangeBehind(i, j, grid);
    }
    assert grid * (grid + 1) > 0;
  }

  lemma CoveredByImages(nImages: nat, grid: nat, p: nat)
    requires grid >= 1
    ensures Covered(ImageRanges(nImages, grid), p) <==>
            IsPatch(nImages, grid, p) || IsPatch(nImages, grid, p - 1)
  {
    var rs, left := ImageRanges(nImages, grid), p - 1;
    forall i: nat | i < nImages
      ensures rs[i].start <= p < rs[i].end <==> InImage(nImages, grid, p, i) || InImage(nImages, grid, left, i)
    {
      RangeByPatches(FirstPatch(i, grid), grid, p);
    }
    if IsPatch(nImages, grid, p) {
      var i: nat :| InImage(nImages, grid, p, i);
      assert rs[i].start <= p < rs[i].end;
    }
    if IsPatch(nImages, grid, left) {
      var i: nat :| InImage(nImages, grid, left, i);
      assert rs[i].start <= p < rs[i].end;
    }
  }

  /** The first patch is at position 3 at the earliest. */
  lemma HeadIsText(nImages: nat, grid: nat, p: int)
    requires p < 3
    ensures !IsPatch(nImages, grid, p)
  {
  }

  lemma OverriddenIsCovered(nImages: nat, grid: nat, lang: seq<int>, p: nat)
    requires grid >= 1 && p < |PrintedMask(nImages, grid, lang)|
    ensures Overridden(PrintedMask(nImages, grid, lang), p) <==> Covered(ImageRanges(nImages, grid), p)
  {
    CoveredByImages(nImages, grid, p);
    PrintedVision(nImages, grid, lang, p);
    if p > 0 {
      PrintedVision(nImages, grid, lang, p - 1);
    } else {
      PrintedVision(nImages, grid, lang, 1);
      HeadIsText(nImages, grid, -1);
      HeadIsText(nImages, grid, 0);
      HeadIsText(nImages, grid, 1);
    }
  }

  /** The override segments of a printed prefix: one per image, its rows and nothing else. */
  method PrintedSegments(nImages: nat, grid: nat, lang: seq<int>) returns (segments: seq<Range>)
    requires grid >= 1
    ensures segments == ImageRanges(nImages, grid)
  {
    var tokens, mask := PrintPrefix(nImages, grid, lang);
    segments := MakeVisualOverrideSegments(mask);
    RangesApart(nImages, grid, lang);
    forall p: nat
      ensures Covered(segments, p) <==> Covered(ImageRanges(nImages, grid), p)
    {
      if p < |mask| {
        OverriddenIsCovered(nImages, grid, lang, p);
      }
    }
    ApartRangesUnique(segments, ImageRanges(nImages, grid), |mask|);
  }

  lemma TogetherIffSameGroup(mask: seq<int>, i: nat, j: nat, p: nat, q: nat)
    requires i < |PatchGroups(mask)| && j < |PatchGroups(mask)|
    requires p in PatchGroups(mask)[i] && q in PatchGroups(mask)[j]
    ensures Together(PatchGroups(mask), p, q) <==> i == j
  {
    PatchGroupsExact(mask);
  }

  /** The joint mask of a printed prefix opens two patches to each other exactly when they are of one image. */
  method PrintedJointMask(nImages: nat, grid: nat, lang: seq<int>) returns (mask: array2<bool>)
    requires grid >= 1
    ensures mask.Length0 == mask.Length1 == |PrefixTokens(nImages, grid, lang)|
    ensures forall i: nat, j: nat, p: nat, q: nat | InImage(nImages, grid, p, i) && InImage(nImages, grid, q, j)
              :: p < mask.Length0 && q < mask.Length0 && (mask[p, q] <==> i == j)
  {
    var tokens, modality := PrintPrefix(nImages, grid, lang);
    mask := MakeJointMask(modality);
    ScanOfPrintedPrefix(nImages, grid, lang);
    forall i: nat, j: nat, p: nat, q: nat | InImage(nImages, grid, p, i) && InImage(nImages, grid, q, j)
      ensures p < mask.Length0 && q < mask.Length0 && (mask[p, q] <==> i == j)
    {
      InsidePrefix(nImages, grid, lang, p, i);
      InsidePrefix(nImages, grid, lang, q, j);
      PositionsArePatches(FirstPatch(i, grid), grid, grid, p);
      PositionsArePatches(FirstPatch(j, grid), grid, grid, q);
      PrintedVision(nImages, grid, lang, p);
      PrintedVision(nImages, grid, lang, q);
      TogetherIsSameImage(modality, p, q);
      TogetherIffSameGroup(modality, i, j, p, q);
    }
  }

  lemma InsidePrefix(nImages: nat, grid: nat, lang: seq<int>, p: nat, i: nat)
    requires grid >= 1 && InImage(nImages, grid, p, i)
    ensures p < |PrintedMask(nImages, grid, lang)|
  {
    RangesApart(nImages, grid, lang);
    RangeByPatches(FirstPatch(i, grid), grid, p);
    assert p < ImageRanges(nImages, grid)[i].end;
  }
}
