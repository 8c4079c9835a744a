/** What the reader accepts, for every string of octets: a grammar of files beside the step by step reader,
    and the round trip of files with a 32-bit header length. */
module NpyLayout {
  import opened Common
  import opened Npy

  /** Everything in a file but the array data. */
  datatype Layout = Layout(version: char, minor: char, length: string, hdr: string, rest: string)

  function Preamble(l: Layout): string {
    MAGIC[..6] + [l.version, l.minor] + l.length
  }

  function FileFrom(l: Layout, data: string): string {
    Preamble(l) + l.hdr + data + l.rest
  }

  /** Octets of the length field. */
  function FieldOf(version: char): nat {
    if version == 1 as char then 2 else if version == 2 as char then 4 else 0
  }

  /** The length field has the width of its version and holds the length of a header that is not empty. */
  predicate Announces(l: Layout) {
    |l.length| == FieldOf(l.version) > 0 && LengthValue(l.length) == |l.hdr| > 0
  }

  /** The header names the type and the shape of `a`, and `a` holds as many octets as they ask for. */
  predicate Says(hdr: string, a: NpyArray) {
    && HeaderFields(hdr).Some?
    && DtypeOf(HeaderFields(hdr).value.descr) == Some((a.dtype, a.itemsize))
    && Dims(HeaderFields(hdr).value.tuple) == a.shape != []
    && Count(a.shape) >= 0 && |a.data| == Count(a.shape) * a.itemsize
  }

  ghost predicate Holds(file: string, a: NpyArray, l: Layout) {
    Announces(l) && Says(l.hdr, a) && file == FileFrom(l, a.data)
  }

  // ---------------------------------------------------------------- reader and grammar agree

  lemma Parts(l: Layout, tail: string)
    ensures var file := Preamble(l) + l.hdr + tail;
      var f := |l.length|;
      && |file| == 8 + f + |l.hdr| + |tail|
      && file[..6] == MAGIC[..6] && file[6] == l.version && file[7] == l.minor && file[8..8 + f] == l.length
      && file[8 + f..8 + f + |l.hdr|] == l.hdr && file[8 + f + |l.hdr|..] == tail
  {
  }

  /** The reader cuts the header out where the length field says and hands on what follows. */
  lemma ReadOfLayout(l: Layout, tail: string)
    requires Announces(l)
    ensures Read(Preamble(l) + l.hdr + tail) == ReadBody(l.hdr, tail)
  {
    Parts(l, tail);
  }

  lemma BodyIff(hdr: string, tail: string, a: NpyArray)
    ensures ReadBody(hdr, tail) == Ok(a) <==> Says(hdr, a) && a.data <= tail
  {
    if HeaderFields(hdr).Some? {
      var f := HeaderFields(hdr).value;
      if DtypeOf(f.descr).Some? {
        var (dtype, size) := DtypeOf(f.descr).value;
      }
    }
  }

  predicate Announced(file: string) {
    && |file| >= 8 && file[..6] == MAGIC[..6] && FieldOf(file[6]) > 0 && |file| >= 8 + FieldOf(file[6])
    && 0 < LengthValue(file[8..8 + FieldOf(file[6])]) <= |file| - 8 - FieldOf(file[6])
  }

  lemma UnannouncedFails(file: string)
    requires !Announced(file)
    ensures Read(file) == Failed
  {
  }

  /** Layout of an announced file in front of everything behind the header. */
  function LayoutOf(file: string, rest: string): Layout
    requires Announced(file)
  {
    var f := FieldOf(file[6]);
    Layout(file[6], file[7], file[8..8 + f], file[8 + f..8 + f + LengthValue(file[8..8 + f])], rest)
  }

  lemma LayoutFits(file: string, rest: string)
    requires Announced(file)
    ensures Announces(LayoutOf(file, rest))
    ensures var l := LayoutOf(file, rest);
      file == Preamble(l) + l.hdr + file[8 + |l.length| + |l.hdr|..]
  {
    var l := LayoutOf(file, rest);
    var f := FieldOf(file[6]);
    assert file[..8] == MAGIC[..6] + [l.version, l.minor];
    assert file == file[..8] + file[8..8 + f] + file[8 + f..8 + f + |l.hdr|] + file[8 + f + |l.hdr|..];
  }

  lemma Behind(l: Layout, data: string)
    ensures FileFrom(l, data) == Preamble(l) + l.hdr + (data + l.rest)
  {
  }

  /** For every string of octets: the reader returns `a` exactly when the file is a preamble that announces its
      header, a header that says type and shape, the octets of `a`, and anything behind them. */
  lemma ReadIff(file: string, a: NpyArray)
    ensures Read(file) == Ok(a) <==> exists l: Layout :: Holds(file, a, l)
  {
    forall l: Layout | Holds(file, a, l) ensures Read(file) == Ok(a) {
      Behind(l, a.data);
      ReadOfLayout(l, a.data + l.rest);
      BodyIff(l.hdr, a.data + l.rest, a);
    }
    if !Announced(file) {
      UnannouncedFails(file);
    } else {
      LayoutFits(file, "");
      var front := LayoutOf(file, "");
      var tail := file[8 + |front.length| + |front.hdr|..];
      ReadOfLayout(front, tail);
      BodyIff(front.hdr, tail, a);
      if Read(file) == Ok(a) {
        HeldBehind(file, a, front, tail);
      }
    }
  }

  lemma HeldBehind(file: string, a: NpyArray, front: Layout, tail: string)
    requires Announces(front) && Says(front.hdr, a) && a.data <= tail && file == Preamble(front) + front.hdr + tail
    ensures exists l: Layout :: Holds(file, a, l)
  {
    var l := front.(rest := tail[|a.data|..]);
    assert tail == a.data + l.rest;
    Behind(l, a.data);
    assert Holds(file, a, l);
  }

  method ReadHeaderAndData(hdr: string, rest: string) returns (r: ReadResult)
    ensures r == ReadBody(hdr, rest)
  {
    var fields := HeaderFields(hdr);
    if fields.None? {
      return Failed;
    }
    var dtype := DtypeOf(fields.value.descr);
    if dtype.None? {
      return Failed;
    }
    var shape := ParseDims(fields.value.tuple);
    if |shape| == 0 {
      return Failed;
    }
    r := ReadData(shape, dtype.value.0, dtype.value.1, rest);
  }

  /** The reader, step by step; it accepts exactly the files of the grammar. */
  method ReadNpy(file: string) returns (r: ReadResult)
    ensures r == Read(file)
    ensures forall a :: r == Ok(a) <==> exists l: Layout :: Holds(file, a, l)
  {
    forall a ensures Read(file) == Ok(a) <==> exists l: Layout :: Holds(file, a, l) {
      ReadIff(file, a);
    }
    if |file| < 8 || file[..6] != MAGIC[..6] {
      return Failed;
    }
    var field := 0;
    if file[6] == 1 as char {
      field := 2;
    } else if file[6] == 2 as char {
      field := 4;
    }
    if field == 0 || |file| < 8 + field {
      return Failed;
    }
    var hlen := LengthValue(file[8..8 + field]);
    if hlen == 0 || |file| < 8 + field + hlen {
      return Failed;
    }
    r := ReadHeaderAndData(file[8 + field..8 + field + hlen], file[8 + field + hlen..]);
  }

  /** An accepted array has a shape, a width that fits its type, and all its octets in the file. */
  lemma AcceptedArray(file: string, a: NpyArray)
    requires Read(file) == Ok(a)
    ensures a.shape != [] && Count(a.shape) >= 0
    ensures a.itemsize == WidthRead(a.dtype) && a.itemsize in {1, 4, 8}
    ensures |a.data| == Count(a.shape) * a.itemsize <= |file| - 10
  {
    ReadIff(file, a);
    var l: Layout :| Holds(file, a, l);
    SaysWidth(l.hdr, a);
    assert |file| == |Preamble(l)| + |l.hdr| + |a.data| + |l.rest|;
  }

  lemma SaysWidth(hdr: string, a: NpyArray)
    requires Says(hdr, a)
    ensures a.itemsize == WidthRead(a.dtype) && a.itemsize in {1, 4, 8}
  {
    KnownTypes(HeaderFields(hdr).value.descr);
  }

  lemma KnownTypes(descr: string)
    ensures DtypeOf(descr).Some? ==>
              var (dtype, size) := DtypeOf(descr).value; size == WidthRead(dtype) && size in {1, 4, 8}
  {
  }

  /** What stands behind the data does not matter. */
  lemma TrailingIsIgnored(file: string, a: NpyArray, l: Layout, rest: string)
    requires Holds(file, a, l)
    ensures Read(FileFrom(l.(rest := rest), a.data)) == Ok(a)
  {
    assert Preamble(l.(rest := rest)) == Preamble(l);
    assert Holds(FileFrom(l.(rest := rest), a.data), a, l.(rest := rest));
    ReadIff(FileFrom(l.(rest := rest), a.data), a);
  }

  /** A file cut anywhere before the end of its data is rejected. */
  lemma CutFileFails(file: string, a: NpyArray, l: Layout, n: nat)
    requires Holds(file, a, l) && n < |file| - |l.rest|
    ensures Read(file[..n]) == Failed
  {
    Behind(l, a.data);
    Parts(l, a.data + l.rest);
    var start := 8 + |l.length| + |l.hdr|;
    if n < start {
      CutPreambleFails(file, n, l.version, l.length, |l.hdr|);
    } else {
      assert file[..n] == Preamble(l) + l.hdr + a.data[..n - start];
      ReadOfLayout(l, a.data[..n - start]);
    }
  }

  lemma CutPreambleFails(file: string, n: nat, version: char, length: string, header: nat)
    requires |length| == FieldOf(version) && LengthValue(length) == header && n < 8 + |length| + header <= |file|
    requires file[6] == version && file[8..8 + |length|] == length
    ensures Read(file[..n]) == Failed
  {
    if n >= 8 + |length| {
      assert file[..n][8..8 + |length|] == length;
    }
    UnannouncedFails(file[..n]);
  }

  // ---------------------------------------------------------------- round trips

  function Versioned(version: char, length: string, hdr: string, data: string): string {
    MAGIC[..6] + [version, 0 as char] + length + hdr + data
  }

  lemma Regroup(front: string, hdr: string, data: string, h: nat)
    requires h <= |hdr|
    ensures front + hdr + data == front + hdr[..h] + (hdr[h..] + data)
  {
    assert hdr == hdr[..h] + hdr[h..];
  }

  /** The reader believes the length field, also when the header is longer. */
  lemma ReadVersioned(version: char, length: string, hdr: string, data: string, h: nat)
    requires |length| == FieldOf(version) > 0 && LengthValue(length) == h && 0 < h <= |hdr|
    ensures Read(Versioned(version, length, hdr, data)) == ReadBody(hdr[..h], hdr[h..] + data)
  {
    var l := Layout(version, 0 as char, length, hdr[..h], "");
    Regroup(Preamble(l), hdr, data, h);
    ReadOfLayout(l, hdr[h..] + data);
  }

  /** A written header is read back if its whole length is announced, and rejected if it is cut far off. */
  lemma ReadWritten(version: char, length: string, shape: seq<nat>, data: string, h: nat)
    requires |data| == 4 * Count(shape) && |length| == FieldOf(version) > 0 && LengthValue(length) == h > 0
    requires h == |Header(shape)| || h + 65536 <= |Header(shape)|
    ensures Read(Versioned(version, length, Header(shape), data)) ==
            if shape != [] && h == |Header(shape)| then Ok(NpyArray(shape, 'f', 4, data)) else Failed
  {
    ReadVersioned(version, length, Header(shape), data, h);
    if h == |Header(shape)| {
      WholeHeader(Header(shape), data, h);
      ReadFittingHeader(shape, data);
    } else {
      CutHeaderFails(shape, h, Header(shape)[h..] + data);
    }
  }

  /** `count` octets of `n`, least significant first. */
  function LengthBytes(count: nat, n: nat): (s: string)
    ensures |s| == count
  {
    if count == 0 then "" else [(n % 256) as char] + LengthBytes(count - 1, n / 256)
  }

  function Capacity(count: nat): nat {
    if count == 0 then 1 else 256 * Capacity(count - 1)
  }

  /** A length field holds the length modulo its capacity. */
  lemma {:induction false} LengthBytesValue(count: nat, n: nat)
    requires count <= 4
    ensures Capacity(count) > 0 && LengthValue(LengthBytes(count, n)) == n % Capacity(count)
  {
    if count > 0 {
      LengthBytesValue(count - 1, n / 256);
      assert LengthBytes(count, n)[1..] == LengthBytes(count - 1, n / 256);
      SplitModulus(n, Capacity(count - 1));
    }
  }

  lemma SplitModulus(n: nat, p: nat)
    requires p == 1 || p == 256 || p == 65536 || p == 16777216
    ensures n % 256 + 256 * (n / 256 % p) == n % (256 * p)
  {
    var q, r := n / 256, n % 256;
    var a, b := q / p, q % p;
    assert n == 256 * p * a + (256 * b + r) && 256 * b + r < 256 * p;
    RemainderIs(n, 256 * p, a, 256 * b + r);
  }

  lemma RemainderIs(n: nat, m: nat, a: nat, r: nat)
    requires m > 0 && n == m * a + r && r < m
    ensures n % m == r
  {
    var d := n / m - a;
    assert m * d == r - n % m;
  }

  lemma Announced16(n: nat)
    requires n % 64 == 54
    ensures 0 < n % 65536 <= n
    ensures n < 65536 ==> n % 65536 == n
    ensures n >= 65536 ==> n % 65536 + 65536 <= n
  {
    var q, r := n / 65536, n % 65536;
    assert n == 65536 * q + r && (q == 0 <==> n < 65536);
    assert n == 64 * (1024 * q) + r;
  }

  lemma Announced32(n: nat)
    requires n % 64 == 54
    ensures 0 < n % 4294967296 <= n
    ensures n < 4294967296 ==> n % 4294967296 == n
    ensures n >= 4294967296 ==> n % 4294967296 + 65536 <= n
  {
    var q, r := n / 4294967296, n % 4294967296;
    assert n == 4294967296 * q + r && (q == 0 <==> n < 4294967296);
    assert n == 64 * (67108864 * q) + r;
  }

  lemma Length16Is(n: nat)
    ensures Length16(n) == LengthBytes(2, n)
  {
    assert LengthBytes(0, n / 256 / 256) == "";
    assert LengthBytes(1, n / 256) == [(n / 256 % 256) as char];
  }

  /** The writer's files, headed by a 16-bit length: reading returns the same shape, type and data if and only if
      the rank is at least one and the header length fits; in all other cases the reader rejects. */
  lemma RoundTrip(shape: seq<nat>, data: string)
    requires |data| == 4 * Count(shape)
    ensures Read(FileOf(shape, data)) ==
            if shape != [] && |Header(shape)| < 65536 then Ok(NpyArray(shape, 'f', 4, data)) else Failed
  {
    var n := |Header(shape)|;
    HeaderLength(shape);
    LengthBytesValue(2, n);
    Length16Is(n);
    Announced16(n);
    assert FileOf(shape, data) == Versioned(1 as char, LengthBytes(2, n), Header(shape), data);
    ReadWritten(1 as char, LengthBytes(2, n), shape, data, n % 65536);
  }

  lemma HeaderLength(shape: seq<nat>)
    ensures |Header(shape)| % 64 == 54
  {
  }

  /** The same contents as the writer's, with the header length in four octets. */
  function FileOf32(shape: seq<nat>, data: string): string {
    Versioned(2 as char, LengthBytes(4, |Header(shape)|), Header(shape), data)
  }

  /** Such a file comes back if and only if the rank is at least one and the header is shorter than 2^32. */
  lemma RoundTrip32(shape: seq<nat>, data: string)
    requires |data| == 4 * Count(shape)
    ensures Read(FileOf32(shape, data)) ==
            if shape != [] && |Header(shape)| < 4294967296 then Ok(NpyArray(shape, 'f', 4, data)) else Failed
  {
    var n := |Header(shape)|;
    HeaderLength(shape);
    Length32Value(n);
    Announced32(n);
    ReadWritten(2 as char, LengthBytes(4, n), shape, data, n % 4294967296);
  }

  lemma Length32Value(n: nat)
    ensures LengthValue(LengthBytes(4, n)) == n % 4294967296
  {
    LengthBytesValue(4, n);
    assert Capacity(2) == 65536;
  }
}
