/** Element order of NPY files.  A header may say `'fortran_order': True`, that is, column-major data; the reader
    never looks at the flag and its callers take the data as row-major. */
module NpyOrder {
  import opened Common
  import opened Npy
  import opened NpyLayout

  // ---------------------------------------------------------------- files that say column-major

  /** A version 1 file of float32 data in the named order, with any padding behind the dictionary. */
  function OrderedHeader(order: string, shape: seq<nat>, end: string): string {
    Prefix(order) + TupleText(shape) + ")" + end
  }

  function OrderedFile(order: string, shape: seq<nat>, end: string, data: string): string {
    var hdr := OrderedHeader(order, shape, end);
    Versioned(1 as char, LengthBytes(2, |hdr|), hdr, data)
  }

  lemma ShortLength(hdr: string)
    requires |hdr| < 65536
    ensures LengthValue(LengthBytes(2, |hdr|)) == |hdr|
  {
    LengthBytesValue(2, |hdr|);
    assert Capacity(2) == 65536;
  }

  lemma OrderedBody(order: string, shape: seq<nat>, end: string, data: string)
    requires IsOrder(order) && shape != [] && |data| == 4 * Count(shape)
    ensures ReadBody(OrderedHeader(order, shape, end), data) == Ok(NpyArray(shape, 'f', 4, data))
  {
    FrontLacksParenthesis(order, shape);
    FieldsBehindPrefix(order, TupleText(shape), end);
    DimsRoundTrip(shape);
    BodyIff(OrderedHeader(order, shape, end), data, NpyArray(shape, 'f', 4, data));
  }

  /** Row-major or column-major, the reader returns the same shape and the same octets. */
  lemma OrderIsIgnored(order: string, shape: seq<nat>, end: string, data: string)
    requires IsOrder(order) && shape != [] && |data| == 4 * Count(shape)
    requires |OrderedHeader(order, shape, end)| < 65536
    ensures Read(OrderedFile(order, shape, end, data)) == Ok(NpyArray(shape, 'f', 4, data))
  {
    var hdr := OrderedHeader(order, shape, end);
    ShortLength(hdr);
    ReadVersioned(1 as char, LengthBytes(2, |hdr|), hdr, data, |hdr|);
    WholeHeader(hdr, data, |hdr|);
    OrderedBody(order, shape, end, data);
  }

  // ---------------------------------------------------------------- where an element is

  predicate InShape(shape: seq<nat>, idx: seq<nat>) {
    |idx| == |shape| && forall k :: 0 <= k < |shape| ==> idx[k] < shape[k]
  }

  /** The last index runs fastest. */
  function RowOffset(shape: seq<nat>, idx: seq<nat>): nat
    requires |idx| == |shape|
  {
    if shape == [] then 0
    else
      var n := |shape| - 1;
      RowOffset(shape[..n], idx[..n]) * shape[n] + idx[n]
  }

  function Elements(shape: seq<nat>): nat {
    if shape == [] then 1 else Elements(shape[..|shape| - 1]) * shape[|shape| - 1]
  }

  lemma {:induction false} ElementsIsCount(shape: seq<nat>)
    ensures Elements(shape) == Count(shape)
  {
    if shape != [] {
      ElementsIsCount(shape[..|shape| - 1]);
    }
  }

  /** The first index runs fastest. */
  function ColumnOffset(shape: seq<nat>, idx: seq<nat>): nat
    requires |idx| == |shape|
  {
    if shape == [] then 0
    else
      var n := |shape| - 1;
      ColumnOffset(shape[..n], idx[..n]) + Elements(shape[..n]) * idx[n]
  }

  lemma RowBelow(r: nat, count: nat, d: nat, i: nat)
    requires r < count && i < d
    ensures r * d + i < count * d
  {
    assert (r + 1) * d <= count * d;
  }

  lemma ColumnBelow(c: nat, count: nat, d: nat, i: nat)
    requires c < count && i < d
    ensures c + count * i < count * d
  {
    assert count * (i + 1) <= count * d;
  }

  lemma {:induction false} OffsetsInside(shape: seq<nat>, idx: seq<nat>)
    requires InShape(shape, idx)
    ensures RowOffset(shape, idx) < Elements(shape) && ColumnOffset(shape, idx) < Elements(shape)
  {
    if shape != [] {
      var n := |shape| - 1;
      OffsetsInside(shape[..n], idx[..n]);
      RowBelow(RowOffset(shape[..n], idx[..n]), Elements(shape[..n]), shape[n], idx[n]);
      ColumnBelow(ColumnOffset(shape[..n], idx[..n]), Elements(shape[..n]), shape[n], idx[n]);
    }
  }

  /** A step of the last index is a step of one element in row-major order. */
  lemma LastRunsFastest(shape: seq<nat>, idx: seq<nat>)
    requires shape != [] && |idx| == |shape|
    ensures RowOffset(shape, idx[|idx| - 1 := idx[|idx| - 1] + 1]) == RowOffset(shape, idx) + 1
  {
    var n := |idx| - 1;
    assert idx[n := idx[n] + 1][..n] == idx[..n];
  }

  /** A step of the first index is a step of one element in column-major order. */
  lemma {:induction false} FirstRunsFastest(shape: seq<nat>, idx: seq<nat>)
    requires shape != [] && |idx| == |shape|
    ensures ColumnOffset(shape, idx[0 := idx[0] + 1]) == ColumnOffset(shape, idx) + 1
  {
    var n, next := |idx| - 1, idx[0 := idx[0] + 1];
    if n == 0 {
      assert shape[..0] == [] && next[..0] == idx[..0] == [];
    } else {
      FirstRunsFastest(shape[..n], idx[..n]);
      assert next[..n] == idx[..n][0 := idx[0] + 1];
    }
  }

  // ---------------------------------------------------------------- when the two orders agree

  predicate HasZero(shape: seq<nat>) {
    exists k :: 0 <= k < |shape| && shape[k] == 0
  }

  /** At most one dimension is larger than one. */
  predicate OneWide(shape: seq<nat>) {
    forall i, j :: 0 <= i < j < |shape| ==> shape[i] <= 1 || shape[j] <= 1
  }

  lemma {:induction false} AllOnes(shape: seq<nat>, idx: seq<nat>)
    requires InShape(shape, idx) && forall k :: 0 <= k < |shape| ==> shape[k] == 1
    ensures RowOffset(shape, idx) == 0 && ColumnOffset(shape, idx) == 0 && Elements(shape) == 1
  {
    if shape != [] {
      AllOnes(shape[..|shape| - 1], idx[..|shape| - 1]);
    }
  }

  lemma {:induction false} AgreeWhenNarrow(shape: seq<nat>, idx: seq<nat>)
    requires InShape(shape, idx) && OneWide(shape)
    ensures RowOffset(shape, idx) == ColumnOffset(shape, idx)
  {
    if shape != [] {
      var n := |shape| - 1;
      if shape[n] == 1 {
        AgreeWhenNarrow(shape[..n], idx[..n]);
      } else {
        forall k | 0 <= k < n
          ensures shape[k] == 1
        {
          assert idx[k] < shape[k] && idx[n] < shape[n];
        }
        AllOnes(shape[..n], idx[..n]);
      }
    }
  }

  predicate Positive(shape: seq<nat>) {
    forall k :: 0 <= k < |shape| ==> shape[k] >= 1
  }

  predicate HasWide(shape: seq<nat>) {
    exists k :: 0 <= k < |shape| && shape[k] > 1
  }

  lemma Extended(shape: seq<nat>, front: seq<nat>, i: nat)
    requires shape != [] && InShape(shape[..|shape| - 1], front) && i < shape[|shape| - 1]
    ensures InShape(shape, front + [i])
    ensures var n := |shape| - 1;
      && RowOffset(shape, front + [i]) == RowOffset(shape[..n], front) * shape[n] + i
      && ColumnOffset(shape, front + [i]) == ColumnOffset(shape[..n], front) + Elements(shape[..n]) * i
  {
    assert (front + [i])[..|shape| - 1] == front;
  }

  lemma ZeroIndex(shape: seq<nat>) returns (idx: seq<nat>)
    requires Positive(shape)
    ensures InShape(shape, idx)
  {
    idx := seq(|shape|, _ => 0);
  }

  /** One step along the first wide dimension. */
  lemma {:induction false} FirstStep(shape: seq<nat>) returns (idx: seq<nat>)
    requires Positive(shape) && HasWide(shape)
    ensures InShape(shape, idx) && ColumnOffset(shape, idx) == 1 && RowOffset(shape, idx) >= 1
  {
    var n := |shape| - 1;
    if HasWide(shape[..n]) {
      var front := FirstStep(shape[..n]);
      Extended(shape, front, 0);
      assert RowOffset(shape[..n], front) * shape[n] >= 1;
      idx := front + [0];
    } else {
      var front := ZeroIndex(shape[..n]);
      AllOnes(shape[..n], front);
      Extended(shape, front, 1);
      idx := front + [1];
    }
  }

  lemma {:induction false} DifferWhenWide(shape: seq<nat>) returns (idx: seq<nat>)
    requires Positive(shape) && !OneWide(shape)
    ensures InShape(shape, idx) && RowOffset(shape, idx) != ColumnOffset(shape, idx)
  {
    var n := |shape| - 1;
    var front;
    if shape[n] == 1 {
      front := DifferWhenWide(shape[..n]);
    } else {
      front := FirstStep(shape[..n]);
      assert RowOffset(shape[..n], front) * shape[n] >= 2;
    }
    Extended(shape, front, 0);
    idx := front + [0];
  }

  // ---------------------------------------------------------------- misread files

  /** The octets of the element at `idx` when the data are in row-major order, as callers take them. */
  function AsReturned(shape: seq<nat>, data: string, idx: seq<nat>): string
    requires InShape(shape, idx) && |data| == Elements(shape) * 4
  {
    OffsetsInside(shape, idx);
    Element(data, Elements(shape), 4, RowOffset(shape, idx))
  }

  /** The octets of the element at `idx` of a column-major file. */
  function AsMeant(shape: seq<nat>, data: string, idx: seq<nat>): string
    requires InShape(shape, idx) && |data| == Elements(shape) * 4
  {
    OffsetsInside(shape, idx);
    Element(data, Elements(shape), 4, ColumnOffset(shape, idx))
  }

  /** No data of this shape are misread. */
  ghost predicate NeverMisread(shape: seq<nat>) {
    forall data: string, idx: seq<nat> | |data| == Elements(shape) * 4 && InShape(shape, idx) ::
      AsReturned(shape, data, idx) == AsMeant(shape, data, idx)
  }

  /** Octets that differ at the first octet of element `at`. */
  function Marked(n: nat, at: nat): string {
    seq(n * 4, i => if i == at * 4 then 'x' else 'o')
  }

  lemma MarkedDiffers(n: nat, a: nat, b: nat)
    requires a < n && b < n && a != b
    ensures Element(Marked(n, a), n, 4, a) != Element(Marked(n, a), n, 4, b)
  {
    assert Element(Marked(n, a), n, 4, a)[0] == 'x' && Element(Marked(n, a), n, 4, b)[0] == 'o';
  }

  /** A column-major file is read right, whatever its data, if and only if it is empty or at most one of its
      dimensions is larger than one. */
  lemma MisreadIff(shape: seq<nat>)
    ensures NeverMisread(shape) <==> HasZero(shape) || OneWide(shape)
  {
    if HasZero(shape) {
      assert forall idx :: !InShape(shape, idx);
    } else if OneWide(shape) {
      forall data: string, idx: seq<nat> | |data| == Elements(shape) * 4 && InShape(shape, idx)
        ensures AsReturned(shape, data, idx) == AsMeant(shape, data, idx)
      {
        AgreeWhenNarrow(shape, idx);
      }
    } else {
      var idx := DifferWhenWide(shape);
      OffsetsInside(shape, idx);
      var data := Marked(Elements(shape), RowOffset(shape, idx));
      MarkedDiffers(Elements(shape), RowOffset(shape, idx), ColumnOffset(shape, idx));
      assert AsReturned(shape, data, idx) != AsMeant(shape, data, idx);
    }
  }

  /** A file that is misread: two rows, two columns, column-major; it is accepted, and the element in row 0 and
      column 1 comes back as the one in row 1 and column 0. */
  lemma MisreadFile(data: string)
    requires |data| == 16
    ensures Read(OrderedFile("True", [2, 2], "", data)) == Ok(NpyArray([2, 2], 'f', 4, data))
    ensures |data| == Elements([2, 2]) * 4 && InShape([2, 2], [0, 1]) && InShape([2, 2], [1, 0])
    ensures AsReturned([2, 2], data, [0, 1]) == AsMeant([2, 2], data, [1, 0])
  {
    SquareIsRead(data);
    SquareIsMisread(data);
  }

  lemma SquareIsRead(data: string)
    requires |data| == 16
    ensures Read(OrderedFile("True", [2, 2], "", data)) == Ok(NpyArray([2, 2], 'f', 4, data))
  {
    TwoByTwo([0, 0]);
    ElementsIsCount([2, 2]);
    HeaderIsShort();
    OrderIsIgnored("True", [2, 2], "", data);
  }

  lemma SquareIsMisread(data: string)
    requires |data| == 16
    ensures |data| == Elements([2, 2]) * 4 && InShape([2, 2], [0, 1]) && InShape([2, 2], [1, 0])
    ensures AsReturned([2, 2], data, [0, 1]) == AsMeant([2, 2], data, [1, 0])
  {
    TwoByTwo([0, 1]);
    TwoByTwo([1, 0]);
  }

  lemma TwoByTwo(idx: seq<nat>)
    requires InShape([2, 2], idx)
    ensures Elements([2, 2]) == 4
    ensures RowOffset([2, 2], idx) == 2 * idx[0] + idx[1] && ColumnOffset([2, 2], idx) == idx[0] + 2 * idx[1]
  {
    var a, i: seq<nat> := [2], [idx[0]];
    assert [2, 2][..1] == a && idx[..1] == i && a[..0] == [] && i[..0] == [];
    assert RowOffset(a, i) == idx[0] && ColumnOffset(a, i) == idx[0] && Elements(a) == 2;
  }

  lemma HeaderIsShort()
    ensures |OrderedHeader("True", [2, 2], "")| < 65536
  {
    var one: seq<nat> := [2];
    assert [2, 2][..1] == one && one[..0] == [];
    assert DimsText(one) == "" + "" + Decimal(2);
  }
}
