/** The NumPy array files used by the alignment dumps: a writer for float32 arrays and a reader
    (numpy.lib.format, section "Format Version 1.0").

    A file is a string of octets; array data are kept as octets too, four to a float32. */
module Npy {
  import opened Common

  datatype NpyArray = NpyArray(shape: seq<int>, dtype: char, itemsize: nat, data: string)

  /** `Threw`: the element count came out negative and the resize fails. */
  datatype ReadResult = Ok(value: NpyArray) | Failed | Threw

  // ---------------------------------------------------------------- text primitives

  predicate MatchesAt(s: string, pat: string, at: nat) {
    at + |pat| <= |s| && s[at..at + |pat|] == pat
  }

  /** std::string::find. */
  function Find(s: string, pat: string, from: nat): (r: Option<nat>)
    ensures r.Some? ==> from <= r.value && MatchesAt(s, pat, r.value)
    ensures forall k: nat :: from <= k && (r.None? || k < r.value) ==> !MatchesAt(s, pat, k)
    decreases |s| - from
  {
    if from + |pat| > |s| then None
    else if MatchesAt(s, pat, from) then Some(from)
    else if from == |s| then None
    else Find(s, pat, from + 1)
  }

  predicate Lacks(s: string, c: char) {
    forall i :: 0 <= i < |s| ==> s[i] != c
  }

  /** The first `c` at or after `from` when the text in between lacks it. */
  lemma FindChar(front: string, c: char, rest: string, from: nat)
    requires from <= |front| && Lacks(front[from..], c)
    ensures Find(front + [c] + rest, [c], from) == Some(|front|)
  {
    var s := front + [c] + rest;
    assert s[|front|..|front| + 1] == [c];
    assert MatchesAt(s, [c], |front|);
    forall k: nat | from <= k < |front| ensures !MatchesAt(s, [c], k) {
      assert s[k..k + 1][0] == s[k] == front[from..][k - from];
    }
  }

  lemma FindNothing(s: string, c: char, from: nat)
    requires from <= |s| && Lacks(s[from..], c)
    ensures Find(s, [c], from).None?
  {
    forall k: nat | from <= k < |s| ensures !MatchesAt(s, [c], k) {
      assert s[k..k + 1][0] == s[k] == s[from..][k - from];
    }
  }

  predicate NoPair(s: string, c: char, d: char) {
    forall i :: 0 <= i < |s| - 1 ==> !(s[i] == c && s[i + 1] == d)
  }

  /** A key whose first two characters do not occur next to each other before it. */
  lemma FindKey(front: string, key: string, rest: string)
    requires |key| >= 2 && key[0] != key[1] && NoPair(front, key[0], key[1])
    ensures Find(front + key + rest, key, 0) == Some(|front|)
  {
    var s := front + key + rest;
    assert s[|front|..|front| + |key|] == key;
    assert MatchesAt(s, key, |front|);
    forall k: nat | k < |front| ensures !MatchesAt(s, key, k) {
      if k + |key| <= |s| {
        assert s[k..k + |key|][0] == s[k] && s[k..k + |key|][1] == s[k + 1];
        if k + 1 == |front| { assert s[k + 1] == key[0]; }
      }
    }
  }

  // ---------------------------------------------------------------- decimal numbers

  function DigitChar(d: nat): char
    requires d < 10
  {
    ('0' as int + d) as char
  }

  predicate IsDigit(c: char) { '0' <= c <= '9' }

  /** std::to_string of a non-negative number. */
  function Decimal(n: nat): (s: string)
    ensures s != "" && forall i :: 0 <= i < |s| ==> IsDigit(s[i])
  {
    if n < 10 then [DigitChar(n)] else Decimal(n / 10) + [DigitChar(n % 10)]
  }

  function DigitsValue(s: string, acc: int): int {
    if s == "" || !IsDigit(s[0]) then acc
    else DigitsValue(s[1..], acc * 10 + (s[0] as int - '0' as int))
  }

  predicate IsSpace(c: char) {
    c == ' ' || c == '\t' || c == '\n' || c == '\r' || c as int == 11 || c as int == 12
  }

  function SkipSpaces(s: string): string {
    if s != "" && IsSpace(s[0]) then SkipSpaces(s[1..]) else s
  }

  /** atoll: white space, an optional sign, digits up to the first other character. */
  function Atoll(s: string): int {
    var t := SkipSpaces(s);
    if t != "" && t[0] == '-' then -DigitsValue(t[1..], 0)
    else if t != "" && t[0] == '+' then DigitsValue(t[1..], 0)
    else DigitsValue(t, 0)
  }

  lemma {:induction false} DigitsAppend(s: string, c: char, acc: int)
    requires IsDigit(c) && forall i :: 0 <= i < |s| ==> IsDigit(s[i])
    ensures DigitsValue(s + [c], acc) == DigitsValue(s, acc) * 10 + (c as int - '0' as int)
  {
    if s == "" {
      assert (s + [c])[1..] == "";
    } else {
      assert (s + [c])[1..] == s[1..] + [c];
      DigitsAppend(s[1..], c, acc * 10 + (s[0] as int - '0' as int));
    }
  }

  lemma {:induction false} DecimalValue(n: nat)
    ensures DigitsValue(Decimal(n), 0) == n
  {
    if n >= 10 {
      DecimalValue(n / 10);
      DigitsAppend(Decimal(n / 10), DigitChar(n % 10), 0);
    } else {
      assert [DigitChar(n)][1..] == "";
    }
  }

  /** Reading a printed number gives it back, also after the blank that follows a comma. */
  lemma NumberRoundTrip(n: nat)
    ensures Atoll(Decimal(n)) == n && Atoll(" " + Decimal(n)) == n
  {
    DecimalValue(n);
    var d := Decimal(n);
    assert SkipSpaces(d) == d;
    assert (" " + d)[1..] == d;
  }

  // ---------------------------------------------------------------- the header text

  /** The dictionary up to the opening parenthesis of the shape, cut at the reader's landmarks. */
  function Prefix(order: string): string {
    "{" + "'descr'" + ": " + "'" + "<f4" + "'" + ", 'fortran_order': " + order + ", " + "'shape'" + ": " + "("
  }

  /** The writer's prefix: the data are in row-major order. */
  const PREFIX: string := Prefix("False")

  predicate IsOrder(order: string) {
    order == "False" || order == "True"
  }

  /** The dimensions, separated by comma and blank. */
  function DimsText(shape: seq<nat>): string {
    if shape == [] then ""
    else
      var n := |shape| - 1;
      DimsText(shape[..n]) + (if n > 0 then ", " else "") + Decimal(shape[n])
  }

  function TupleText(shape: seq<nat>): string {
    DimsText(shape) + if |shape| == 1 then "," else ""
  }

  function DictText(shape: seq<nat>): string {
    PREFIX + TupleText(shape) + "), }"
  }

  function Spaces(n: nat): string {
    seq(n, _ => ' ')
  }

  /** Length of magic, version, length field and header: the next multiple of 64. */
  function PaddedTotal(textLength: nat): (total: nat)
    ensures total % 64 == 0 && textLength + 11 <= total < textLength + 11 + 64
  {
    ((10 + textLength + 1 + 63) / 64) * 64
  }

  function Header(shape: seq<nat>): (hdr: string)
    ensures (10 + |hdr|) % 64 == 0
  {
    var text := DictText(shape);
    text + Spaces(PaddedTotal(|text|) - 10 - 1 - |text|) + "\n"
  }

  const MAGIC: string := [147 as char, 'N', 'U', 'M', 'P', 'Y', 1 as char, 0 as char]

  function Length16(n: nat): string {
    [(n % 256) as char, (n / 256 % 256) as char]
  }

  function FileOf(shape: seq<nat>, data: string): string {
    MAGIC + Length16(|Header(shape)|) + Header(shape) + data
  }

  function Count(shape: seq<int>): int {
    if shape == [] then 1 else Count(shape[..|shape| - 1]) * shape[|shape| - 1]
  }

  predicate NonNegative(shape: seq<int>) {
    forall i :: 0 <= i < |shape| ==> shape[i] >= 0
  }

  method CountElements(shape: seq<int>) returns (n: int)
    ensures n == Count(shape)
  {
    n := 1;
    for i := 0 to |shape|
      invariant n == Count(shape[..i])
    {
      assert shape[..i + 1][..i] == shape[..i];
      n := n * shape[i];
    }
    assert shape[..|shape|] == shape;
  }

  /** Append the dimensions to a header under construction. */
  method AppendDims(start: string, shape: seq<nat>) returns (hdr: string)
    ensures hdr == start + TupleText(shape)
  {
    hdr := start;
    for i := 0 to |shape|
      invariant hdr == start + DimsText(shape[..i])
    {
      assert shape[..i + 1][..i] == shape[..i];
      if i > 0 {
        hdr := hdr + ", ";
      }
      hdr := hdr + Decimal(shape[i]);
    }
    assert shape[..|shape|] == shape;
    if |shape| == 1 {
      hdr := hdr + ",";
    }
  }

  method BuildHeader(shape: seq<nat>) returns (hdr: string)
    ensures hdr == Header(shape)
  {
    hdr := AppendDims(PREFIX, shape);
    hdr := hdr + "), }";
    var total := 10 + |hdr| + 1;
    total := ((total + 63) / 64) * 64;
    hdr := hdr + Spaces(total - 10 - 1 - |hdr|);
    hdr := hdr + "\n";
  }

  /** The writer; `data` holds the octets of the float32 values. */
  method WriteNpy(shape: seq<int>, data: string) returns (ok: bool, file: string)
    requires NonNegative(shape) ==> |data| == 4 * Count(shape)
    ensures ok <==> NonNegative(shape)
    ensures ok ==> file == FileOf(shape, data)
  {
    for i := 0 to |shape|
      invariant forall k :: 0 <= k < i ==> shape[k] >= 0
    {
      if shape[i] < 0 {
        return false, "";
      }
    }
    var hdr := BuildHeader(shape);
    file := MAGIC + Length16(|hdr|) + hdr + data;
    ok := true;
  }

  // ---------------------------------------------------------------- the reader

  function Token(t: string): seq<int> {
    if t == "" then [] else [Atoll(t)]
  }

  /** The dimensions in the text between the parentheses: non-empty pieces between commas. */
  function Dims(text: string): seq<int>
    decreases |text|
  {
    if text == "" then []
    else
      match Find(text, ",", 0)
      case None => Token(text)
      case Some(c) => Token(text[..c]) + Dims(text[c + 1..])
  }

  lemma MatchShift(s: string, pat: string, pos: nat, k: nat)
    requires pos <= k && pos <= |s|
    ensures MatchesAt(s, pat, k) <==> MatchesAt(s[pos..], pat, k - pos)
  {
  }

  lemma FindShift(s: string, pat: string, pos: nat)
    requires pos <= |s|
    ensures Find(s, pat, pos) ==
            match Find(s[pos..], pat, 0) case None => None case Some(c) => Some(pos + c)
  {
    var r, q := Find(s, pat, pos), Find(s[pos..], pat, 0);
    if q.Some? {
      MatchShift(s, pat, pos, pos + q.value);
    }
    if r.Some? {
      MatchShift(s, pat, pos, r.value);
    }
  }

  /** One piece of the tuple text, starting at `pos`. */
  lemma DimsStep(text: string, pos: nat)
    requires pos < |text|
    ensures var comma := Find(text, ",", pos);
      Dims(text[pos..]) == if comma.None? then Token(text[pos..])
                           else Token(text[pos..comma.value]) + Dims(text[comma.value + 1..])
  {
    FindShift(text, ",", pos);
    var comma := Find(text, ",", pos);
    if comma.Some? {
      assert text[pos..][..comma.value - pos] == text[pos..comma.value];
      assert text[pos..][comma.value - pos + 1..] == text[comma.value + 1..];
    }
  }

  /** The parse loop over the tuple text. */
  method ParseDims(text: string) returns (shape: seq<int>)
    ensures shape == Dims(text)
  {
    shape := [];
    var pos := 0;
    assert text[0..] == text;
    while pos < |text|
      invariant 0 <= pos <= |text|
      invariant Dims(text) == shape + Dims(text[pos..])
      decreases |text| - pos
    {
      DimsStep(text, pos);
      var comma := Find(text, ",", pos);
      var tok := if comma.None? then text[pos..] else text[pos..comma.value];
      ghost var was := shape;
      shape := shape + Token(tok);
      if comma.None? {
        return;
      }
      pos := comma.value + 1;
      Reassociate(was, Token(tok), Dims(text[pos..]));
    }
  }

  function DtypeOf(descr: string): Option<(char, nat)> {
    if descr == "<f4" || descr == "f4" then Some(('f', 4))
    else if descr == "<f8" || descr == "f8" then Some(('d', 8))
    else if descr == "<i4" || descr == "i4" then Some(('i', 4))
    else if descr == "<i8" || descr == "i8" then Some(('I', 8))
    else if descr == "|u1" || descr == "u1" then Some(('u', 1))
    else None
  }

  datatype Fields = Fields(descr: string, tuple: string)

  /** The quoted text after 'descr'. */
  function DescrOf(hdr: string): Option<string> {
    match Find(hdr, "'descr'", 0)
    case None => None
    case Some(dp) =>
      match Find(hdr, "'", dp + 7)
      case None => None
      case Some(q1) =>
        match Find(hdr, "'", q1 + 1)
        case None => None
        case Some(q2) => Some(hdr[q1 + 1..q2])
  }

  /** The text in parentheses after 'shape'. */
  function TupleOf(hdr: string): Option<string> {
    match Find(hdr, "'shape'", 0)
    case None => None
    case Some(sp) =>
      match Find(hdr, "(", sp + 7)
      case None => None
      case Some(p1) =>
        match Find(hdr, ")", p1)
        case None => None
        case Some(p2) =>
          assert hdr[p1..p1 + 1] == "(" && hdr[p2..p2 + 1] == ")";
          assert p1 != p2;
          Some(hdr[p1 + 1..p2])
  }

  function HeaderFields(hdr: string): Option<Fields> {
    var descr, tuple := DescrOf(hdr), TupleOf(hdr);
    if descr.None? || tuple.None? then None else Some(Fields(descr.value, tuple.value))
  }

  function ReadData(shape: seq<int>, dtype: char, itemsize: nat, rest: string): ReadResult {
    var n := Count(shape);
    if n < 0 then Threw
    else
      var size: nat := n * itemsize;
      if |rest| < size then Failed else Ok(NpyArray(shape, dtype, itemsize, rest[..size]))
  }

  function ReadBody(hdr: string, rest: string): ReadResult {
    match HeaderFields(hdr)
    case None => Failed
    case Some(f) =>
      match DtypeOf(f.descr)
      case None => Failed
      case Some((dtype, itemsize)) =>
        var shape := Dims(f.tuple);
        if shape == [] then Failed
        else
          ReadData(shape, dtype, itemsize, rest)
  }

  function LengthValue(bytes: string): nat {
    if bytes == "" then 0 else bytes[0] as int + 256 * LengthValue(bytes[1..])
  }

  /** read_npy on the contents of a file. */
  function Read(file: string): ReadResult {
    if |file| < 8 || file[..6] != MAGIC[..6] then Failed
    else
      var field := if file[6] == 1 as char then 2 else if file[6] == 2 as char then 4 else 0;
      if field == 0 || |file| < 8 + field then Failed
      else
        var hlen := LengthValue(file[8..8 + field]);
        if hlen == 0 || |file| < 8 + field + hlen then Failed
        else ReadBody(file[8 + field..8 + field + hlen], file[8 + field + hlen..])
  }

  // ---------------------------------------------------------------- round trip

  predicate DimsChar(c: char) {
    IsDigit(c) || c == ',' || c == ' '
  }

  lemma {:induction false} TupleChars(shape: seq<nat>)
    ensures forall i :: 0 <= i < |DimsText(shape)| ==> DimsChar(DimsText(shape)[i])
    ensures forall i :: 0 <= i < |TupleText(shape)| ==> DimsChar(TupleText(shape)[i])
  {
    if shape != [] {
      TupleChars(shape[..|shape| - 1]);
    }
  }

  /** The dimensions after the first, each behind its comma. */
  function Tail(shape: seq<nat>): string {
    if shape == [] then "" else ", " + Decimal(shape[0]) + Tail(shape[1..])
  }

  lemma {:induction false} TailAppend(shape: seq<nat>, d: nat)
    ensures Tail(shape + [d]) == Tail(shape) + ", " + Decimal(d)
  {
    if shape == [] {
      assert Tail([d][1..]) == "";
    } else {
      assert (shape + [d])[1..] == shape[1..] + [d];
      TailAppend(shape[1..], d);
    }
  }

  lemma {:induction false} DimsTextFromFront(shape: seq<nat>)
    requires shape != []
    ensures DimsText(shape) == Decimal(shape[0]) + Tail(shape[1..])
  {
    var n := |shape| - 1;
    if n > 0 {
      DimsTextFromFront(shape[..n]);
      assert shape[..n][1..] + [shape[n]] == shape[1..];
      TailAppend(shape[..n][1..], shape[n]);
    } else {
      assert DimsText(shape[..0]) == "" && Tail(shape[1..]) == "";
    }
  }

  lemma DecimalLacksComma(n: nat)
    ensures Lacks(Decimal(n), ',') && Lacks(" " + Decimal(n), ',')
  {
  }

  /** A piece in front of a comma is cut off; a last piece is taken whole. */
  lemma DimsAtComma(tok: string, rest: string)
    requires Lacks(tok, ',')
    ensures Dims(tok + [','] + rest) == Token(tok) + Dims(rest)
    ensures Dims(tok) == Token(tok)
  {
    assert tok[0..] == tok;
    FindChar(tok, ',', rest, 0);
    FindNothing(tok, ',', 0);
    var text := tok + [','] + rest;
    assert text[..|tok|] == tok && text[|tok| + 1..] == rest;
  }

  lemma CommaSplit(tok: string, num: string, tail: string)
    ensures tok + (", " + num + tail) == tok + [','] + (" " + num + tail)
  {
  }

  /** A token, blank or not, followed by the remaining dimensions. */
  lemma {:induction false} DimsFromToken(tok: string, d: nat, rest: seq<nat>)
    requires tok == Decimal(d) || tok == " " + Decimal(d)
    ensures Dims(tok + Tail(rest)) == [d] + rest
    decreases |rest|
  {
    DecimalLacksComma(d);
    NumberRoundTrip(d);
    if rest == [] {
      assert tok + Tail(rest) == tok;
      DimsAtComma(tok, "");
    } else {
      var next := " " + Decimal(rest[0]);
      CommaSplit(tok, Decimal(rest[0]), Tail(rest[1..]));
      DimsAtComma(tok, next + Tail(rest[1..]));
      DimsFromToken(next, rest[0], rest[1..]);
      assert [rest[0]] + rest[1..] == rest;
    }
  }

  /** Parsing the printed dimensions gives the shape back, for every rank but zero. */
  lemma DimsRoundTrip(shape: seq<nat>)
    ensures Dims(TupleText(shape)) == shape
  {
    if shape == [] {
    } else if |shape| == 1 {
      var tok := Decimal(shape[0]);
      assert DimsText(shape[..0]) == "";
      assert TupleText(shape) == tok + [','] + "";
      DecimalLacksComma(shape[0]);
      NumberRoundTrip(shape[0]);
      DimsAtComma(tok, "");
    } else {
      DimsTextFromFront(shape);
      DimsFromToken(Decimal(shape[0]), shape[0], shape[1..]);
      assert TupleText(shape) == Decimal(shape[0]) + Tail(shape[1..]);
      assert [shape[0]] + shape[1..] == shape;
    }
  }

  // Where the reader finds its landmarks in a header that starts with the prefix.

  function Front(order: string): string {
    "{" + "'descr'" + ": " + "'" + "<f4" + "'" + ", 'fortran_order': " + order + ", "
  }

  lemma FindDescr(order: string, rest: string)
    ensures Find(Prefix(order) + rest, "'descr'", 0) == Some(1)
  {
    var tail := ": " + "'" + "<f4" + "'" + ", 'fortran_order': " + order + ", " + "'shape'" + ": " + "(";
    assert Prefix(order) + rest == "{" + "'descr'" + (tail + rest);
    FindKey("{", "'descr'", tail + rest);
  }

  lemma FindFirstQuote(order: string, rest: string)
    ensures Find(Prefix(order) + rest, "'", 8) == Some(10)
  {
    var front := "{" + "'descr'" + ": ";
    var tail := "<f4" + "'" + ", 'fortran_order': " + order + ", " + "'shape'" + ": " + "(" + rest;
    assert Prefix(order) + rest == front + "'" + tail;
    assert front[8..] == ": ";
    FindChar(front, '\'', tail, 8);
  }

  lemma FindSecondQuote(order: string, rest: string)
    ensures Find(Prefix(order) + rest, "'", 11) == Some(14)
    ensures (Prefix(order) + rest)[11..14] == "<f4"
  {
    var front := "{" + "'descr'" + ": " + "'" + "<f4";
    var tail := ", 'fortran_order': " + order + ", " + "'shape'" + ": " + "(" + rest;
    assert Prefix(order) + rest == front + "'" + tail;
    assert front[11..] == "<f4";
    FindChar(front, '\'', tail, 11);
    assert (front + "'" + tail)[..14] == front;
  }

  lemma NoPairConcat(a: string, b: string, c: char, d: char)
    requires NoPair(a, c, d) && Lacks(b, c) && (a != "" ==> a[|a| - 1] != c)
    ensures NoPair(a + b, c, d)
  {
  }

  lemma FrontHasNoShape(order: string)
    requires IsOrder(order)
    ensures NoPair(Front(order), '\'', 's')
  {
    var front := "{" + "'descr'" + ": " + "'" + "<f4" + "'" + ", 'fortran_order': ";
    NoPairConcat(front, order + ", ", '\'', 's');
    assert Front(order) == front + (order + ", ");
  }

  lemma FindShape(order: string, rest: string)
    requires IsOrder(order)
    ensures var n := |Front(order)|;
      && |Prefix(order)| == n + 10
      && Find(Prefix(order) + rest, "'shape'", 0) == Some(n)
      && Find(Prefix(order) + rest, "(", n + 7) == Some(n + 9)
  {
    var n := |Front(order)|;
    assert Prefix(order) + rest == Front(order) + "'shape'" + (": " + "(" + rest);
    FrontHasNoShape(order);
    FindKey(Front(order), "'shape'", ": " + "(" + rest);
    var front := Front(order) + "'shape'" + ": ";
    assert Prefix(order) + rest == front + "(" + rest;
    assert front[n + 7..] == ": ";
    FindChar(front, '(', rest, n + 7);
  }

  /** What follows the tuple in a header. */
  function HeaderEnd(shape: seq<nat>): string {
    var n := |DictText(shape)|;
    ", }" + Spaces(PaddedTotal(n) - 10 - 1 - n) + "\n"
  }

  lemma HeaderSplits(shape: seq<nat>)
    ensures Header(shape) == PREFIX + TupleText(shape) + ")" + HeaderEnd(shape)
    ensures |HeaderEnd(shape)| <= 67
  {
  }

  lemma FrontLacksParenthesis(order: string, shape: seq<nat>)
    requires IsOrder(order)
    ensures Lacks(Prefix(order) + TupleText(shape), ')')
  {
    TupleChars(shape);
  }

  lemma DescrBehindPrefix(order: string, rest: string)
    ensures DescrOf(Prefix(order) + rest) == Some("<f4")
  {
    FindDescr(order, rest);
    FindFirstQuote(order, rest);
    FindSecondQuote(order, rest);
  }

  lemma TupleIsThere(front: string, tuple: string, end: string)
    ensures (front + (tuple + end))[|front|..|front + tuple|] == tuple
  {
  }

  lemma TupleBehindPrefix(order: string, tuple: string, end: string)
    requires IsOrder(order) && Lacks(Prefix(order) + tuple, ')')
    ensures TupleOf(Prefix(order) + (tuple + (")" + end))) == Some(tuple)
  {
    var n, front, rest := |Front(order)|, Prefix(order) + tuple, tuple + (")" + end);
    FindShape(order, rest);
    FindChar(front, ')', end, n + 9);
    assert front + ")" + end == Prefix(order) + rest;
    TupleIsThere(Prefix(order), tuple, ")" + end);
  }

  lemma FieldsBehindPrefix(order: string, tuple: string, end: string)
    requires IsOrder(order) && Lacks(Prefix(order) + tuple, ')')
    ensures HeaderFields(Prefix(order) + tuple + ")" + end) == Some(Fields("<f4", tuple))
  {
    var rest := tuple + (")" + end);
    DescrBehindPrefix(order, rest);
    TupleBehindPrefix(order, tuple, end);
    assert Prefix(order) + tuple + ")" + end == Prefix(order) + rest;
  }

  lemma FieldsOfHeader(shape: seq<nat>)
    ensures HeaderFields(Header(shape)) == Some(Fields("<f4", TupleText(shape)))
  {
    HeaderSplits(shape);
    FrontLacksParenthesis("False", shape);
    FieldsBehindPrefix("False", TupleText(shape), HeaderEnd(shape));
  }

  lemma NoFieldsWhenCut(shape: seq<nat>, h: nat)
    requires h + 65536 <= |Header(shape)|
    ensures HeaderFields(Header(shape)[..h]).None?
  {
    HeaderSplits(shape);
    FrontLacksParenthesis("False", shape);
    var hdr := Header(shape)[..h];
    assert hdr == (PREFIX + TupleText(shape))[..h];
    forall p: nat ensures Find(hdr, ")", p).None? {
      if p <= h {
        FindNothing(hdr, ')', p);
      }
    }
  }

  lemma ReadFittingHeader(shape: seq<nat>, data: string)
    requires |data| == 4 * Count(shape)
    ensures ReadBody(Header(shape), data) == if shape != [] then Ok(NpyArray(shape, 'f', 4, data)) else Failed
  {
    FieldsOfHeader(shape);
    DimsRoundTrip(shape);
    assert DtypeOf("<f4") == Some(('f', 4));
    if shape != [] {
      assert data[..4 * Count(shape)] == data;
      assert ReadData(shape, 'f', 4, data) == Ok(NpyArray(shape, 'f', 4, data));
    }
  }

  lemma CutHeaderFails(shape: seq<nat>, h: nat, rest: string)
    requires h + 65536 <= |Header(shape)|
    ensures ReadBody(Header(shape)[..h], rest) == Failed
  {
    NoFieldsWhenCut(shape, h);
  }

  lemma WholeHeader(hdr: string, data: string, h: nat)
    requires h == |hdr|
    ensures hdr[..h] == hdr && hdr[h..] + data == data
  {
  }

  // ---------------------------------------------------------------- the texts themselves

  /** The types the reader knows, by descriptor: little-endian or single octets, and nothing else. */
  lemma KnownDescriptors(descr: string)
    ensures DtypeOf(descr) == Some(('f', 4)) <==> descr in {"<f4", "f4"}
    ensures DtypeOf(descr) == Some(('d', 8)) <==> descr in {"<f8", "f8"}
    ensures DtypeOf(descr) == Some(('i', 4)) <==> descr in {"<i4", "i4"}
    ensures DtypeOf(descr) == Some(('I', 8)) <==> descr in {"<i8", "i8"}
    ensures DtypeOf(descr) == Some(('u', 1)) <==> descr in {"|u1", "u1"}
    ensures DtypeOf(descr).None? <==>
              descr !in {"<f4", "f4", "<f8", "f8", "<i4", "i4", "<i8", "i8", "|u1", "u1"}
  {
  }

  /** The fixed text of a header, letter by letter. */
  lemma PrefixLetters()
    ensures PREFIX == "{'descr': '<f4', 'fortran_order': False, 'shape': ("
    ensures MAGIC == [147 as char] + "NUMPY" + [1 as char, 0 as char]
  {
    assert "{" + "'descr'" == "{'descr'";
    assert "{'descr'" + ": " + "'" == "{'descr': '";
    assert "{'descr': '" + "<f4" + "'" == "{'descr': '<f4'";
    assert "{'descr': '<f4'" + ", 'fortran_order': " == "{'descr': '<f4', 'fortran_order': ";
    assert "{'descr': '<f4', 'fortran_order': " + "False" + ", " == "{'descr': '<f4', 'fortran_order': False, ";
    assert "{'descr': '<f4', 'fortran_order': False, " + "'shape'" ==
           "{'descr': '<f4', 'fortran_order': False, 'shape'";
    assert "{'descr': '<f4', 'fortran_order': False, 'shape'" + ": " + "(" ==
           "{'descr': '<f4', 'fortran_order': False, 'shape': (";
  }

  /** The tuples of a matrix, a vector and a scalar. */
  lemma TupleLetters()
    ensures TupleText([2, 3]) == "2, 3" && TupleText([12]) == "12," && TupleText([]) == ""
  {
    var two: seq<nat>, twelve: seq<nat> := [2], [12];
    assert [2, 3][..1] == two && two[..0] == [] && twelve[..0] == [];
    assert Decimal(2) == "2" && Decimal(3) == "3" && Decimal(12) == Decimal(1) + "2" && Decimal(1) == "1";
    assert DimsText(two) == "2" && DimsText(twelve) == "12";
    assert DimsText([2, 3]) == "2, 3";
  }

  /** Numbers as the reader takes them: white space in front, a sign, then digits up to the first other character;
      no digits are 0. */
  lemma NumberLetters()
    ensures Atoll("12") == 12 && Atoll(" \t-7") == -7 && Atoll("+3x4") == 3 && Atoll("x") == 0 && Atoll("") == 0
  {
    assert "12"[1..] == "2" && "2"[1..] == "" && DigitsValue("2", 1) == 12;
    assert " \t-7"[1..] == "\t-7" && "\t-7"[1..] == "-7" && "-7"[1..] == "7" && "7"[1..] == "";
    assert "+3x4"[1..] == "3x4" && "3x4"[1..] == "x4";
  }

  /** Every header is its dictionary, blanks and a final newline; its length field holds the low octet first. */
  lemma HeaderEnds(shape: seq<nat>)
    ensures |DictText(shape)| < |Header(shape)| && Header(shape)[..|DictText(shape)|] == DictText(shape)
    ensures Header(shape)[|Header(shape)| - 1] == '\n'
    ensures forall k :: |DictText(shape)| <= k < |Header(shape)| - 1 ==> Header(shape)[k] == ' '
    ensures |Length16(|Header(shape)|)| == 2
    ensures Length16(|Header(shape)|)[0] as int == |Header(shape)| % 256
    ensures Length16(|Header(shape)|)[1] as int == |Header(shape)| / 256 % 256
  {
  }

  // ---------------------------------------------------------------- element access

  function WidthRead(dtype: char): nat {
    if dtype == 'd' || dtype == 'I' then 8 else if dtype == 'f' || dtype == 'i' then 4 else 1
  }

  /** The octets of element `i` of `n` elements. */
  function Element(data: string, n: nat, size: nat, i: nat): string
    requires i < n && |data| == n * size
  {
    data[i * size..(i + 1) * size]
  }

  /** An element is all of its octets: octet `k` of element `i` is octet `i * size + k` of the data. */
  lemma ElementOctets(data: string, n: nat, size: nat, i: nat, k: nat)
    requires i < n && |data| == n * size && k < size
    ensures |Element(data, n, size, i)| == size
    ensures i * size + k < |data| && Element(data, n, size, i)[k] == data[i * size + k]
  {
    ElementFits(n, size, i);
  }

  lemma ElementFits(n: nat, size: nat, i: nat)
    requires i < n
    ensures 0 <= i * size <= (i + 1) * size <= n * size && (i + 1) * size - i * size == size
  {
  }

  /** The elements as numbers; `number` interprets the octets of one element of the given type. */
  method AsNumbers(a: NpyArray, number: (char, string) -> real) returns (v: seq<real>)
    requires Count(a.shape) >= 0 && a.itemsize == WidthRead(a.dtype)
    requires |a.data| == Count(a.shape) * a.itemsize
    ensures |v| == Count(a.shape)
    ensures forall i :: 0 <= i < |v| ==> v[i] == number(a.dtype, Element(a.data, |v|, a.itemsize, i))
  {
    v := [];
    var n := CountElements(a.shape);
    for i := 0 to n
      invariant |v| == i
      invariant forall k :: 0 <= k < i ==> v[k] == number(a.dtype, Element(a.data, n, a.itemsize, k))
    {
      v := v + [number(a.dtype, Element(a.data, n, a.itemsize, i))];
    }
  }
}
