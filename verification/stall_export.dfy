// The desktop stall exporter: which bytes of which logs are read, which rows of
// each category are kept, and which of those fit the output.
module StallExport {
  import V = SemVer

  // ------------------------------------------------------------------- ranges

  const FILE_LIMIT := 8388608
  const INPUT_LIMIT := 33554432
  const HEAD := 65536

  datatype Range = Range(offset: nat, count: nat)

  function Min(a: nat, b: nat): nat { if a < b then a else b }

  function Allowed(size: nat, remaining: nat): nat {
    Min(Min(size, FILE_LIMIT), remaining)
  }

  /** The whole file when it is allowed, else its head and its tail, else its tail alone. */
  function Ranges(size: nat, remaining: nat): seq<Range> {
    var allow := Allowed(size, remaining);
    if allow == size then [Range(0, size)]
    else if allow > HEAD then [Range(0, HEAD), Range(size - (allow - HEAD), allow - HEAD)]
    else if allow > 0 then [Range(size - allow, allow)] else []
  }

  function Counted(rs: seq<Range>): nat {
    if rs == [] then 0 else Counted(rs[..|rs| - 1]) + rs[|rs| - 1].count
  }

  /** Of every file, disjoint ranges within it are read, in order and to its end if anything is
      omitted; they hold just what is allowed, so that read and omitted bytes make up the file; and
      when that is more than 64 KiB the file's head is read.  A file gives up bytes only beyond its own
      8 MiB or beyond what is left of the input's. */
  lemma RangesAreWithin(size: nat, remaining: nat)
    ensures var rs := Ranges(size, remaining);
      && Counted(rs) == Allowed(size, remaining) <= size && Counted(rs) <= remaining && Counted(rs) <= 8388608
      && (Counted(rs) < size ==> Counted(rs) == 8388608 || Counted(rs) == remaining)
      && (forall i :: 0 <= i < |rs| ==> rs[i].offset + rs[i].count <= size)
      && (forall i, j :: 0 <= i < j < |rs| ==> rs[i].offset + rs[i].count <= rs[j].offset)
      && (rs != [] ==> rs[|rs| - 1].offset + rs[|rs| - 1].count == size)
      && (Counted(rs) > HEAD ==> rs[0].offset == 0 && rs[0].count >= HEAD)
  {
    var rs := Ranges(size, remaining);
    if |rs| == 2 {
      CountedTwo(rs[0], rs[1]);
    } else if |rs| == 1 {
      CountedOne(rs[0]);
    }
  }

  lemma CountedOne(a: Range)
    ensures Counted([a]) == a.count
  {
    assert [a][..0] == [];
  }

  lemma CountedTwo(a: Range, b: Range)
    ensures Counted([a, b]) == a.count + b.count
  {
    CountedOne(a);
    assert [a, b][..1] == [a];
  }

  function Sum(xs: seq<nat>): nat {
    if xs == [] then 0 else Sum(xs[..|xs| - 1]) + xs[|xs| - 1]
  }

  /** What is left of the input limit before file `n`. */
  function Left(sizes: seq<nat>, n: nat): (r: nat)
    requires n <= |sizes|
    ensures r <= INPUT_LIMIT
  {
    if n == 0 then INPUT_LIMIT else Left(sizes, n - 1) - Allowed(sizes[n - 1], Left(sizes, n - 1))
  }

  function AllRanges(sizes: seq<nat>, n: nat): (rs: seq<seq<Range>>)
    requires n <= |sizes|
    ensures |rs| == n
  {
    if n == 0 then [] else AllRanges(sizes, n - 1) + [Ranges(sizes[n - 1], Left(sizes, n - 1))]
  }

  function AllCounted(ranges: seq<seq<Range>>): nat {
    if ranges == [] then 0 else AllCounted(ranges[..|ranges| - 1]) + Counted(ranges[|ranges| - 1])
  }

  /** What is left is 32 MiB less what was read of the files before. */
  lemma {:induction false} LeftIs(sizes: seq<nat>, n: nat)
    requires n <= |sizes|
    ensures Left(sizes, n) + AllCounted(AllRanges(sizes, n)) == 33554432
  {
    if n > 0 {
      LeftIs(sizes, n - 1);
      RangesAreWithin(sizes[n - 1], Left(sizes, n - 1));
      assert AllRanges(sizes, n)[..n - 1] == AllRanges(sizes, n - 1);
    }
  }

  /** The loop over the files, newest first. */
  method ReadAll(sizes: seq<nat>) returns (ranges: seq<seq<Range>>, inputBytes: nat, omitted: nat)
    ensures ranges == AllRanges(sizes, |sizes|)
    ensures inputBytes == INPUT_LIMIT - Left(sizes, |sizes|) && inputBytes + omitted == Sum(sizes)
  {
    ranges, inputBytes, omitted := [], 0, 0;
    var remaining: nat := INPUT_LIMIT;
    for i := 0 to |sizes|
      invariant ranges == AllRanges(sizes, i)
      invariant inputBytes + remaining == INPUT_LIMIT && remaining == Left(sizes, i)
      invariant inputBytes + omitted == Sum(sizes[..i])
    {
      assert sizes[..i + 1][..i] == sizes[..i];
      var allow := Allowed(sizes[i], remaining);
      ranges := ranges + [Ranges(sizes[i], remaining)];
      inputBytes, omitted, remaining := inputBytes + allow, omitted + (sizes[i] - allow), remaining - allow;
    }
    assert sizes[..|sizes|] == sizes;
  }

  /** Nothing is omitted exactly when every file is within its limit and all of them within the
      input's. */
  lemma {:induction false} NothingOmittedIff(sizes: seq<nat>, n: nat)
    requires n <= |sizes|
    ensures INPUT_LIMIT - Left(sizes, n) <= Sum(sizes[..n])
    ensures INPUT_LIMIT - Left(sizes, n) == Sum(sizes[..n])
      <==> ((forall i :: 0 <= i < n ==> sizes[i] <= FILE_LIMIT) && Sum(sizes[..n]) <= INPUT_LIMIT)
  {
    if n > 0 {
      NothingOmittedIff(sizes, n - 1);
      assert sizes[..n][..n - 1] == sizes[..n - 1];
    }
  }

  // -------------------------------------------------------------------- lines

  type Bytes = string

  predicate IsBreak(c: char) {
    c == '\n' || c == '\r'
  }

  predicate NoBreak(data: Bytes, a: nat, b: nat)
    requires a <= b <= |data|
  {
    forall k :: a <= k < b ==> !IsBreak(data[k])
  }

  function FindBreak(data: Bytes, i: nat): (k: nat)
    requires i <= |data|
    ensures i <= k <= |data| && NoBreak(data, i, k) && (k < |data| ==> IsBreak(data[k]))
    decreases |data| - i
  {
    if i == |data| || IsBreak(data[i]) then i else FindBreak(data, i + 1)
  }

  /** Place `a` is between the two characters of one line break. */
  predicate InsideBreak(data: Bytes, a: nat) {
    0 < a < |data| && data[a - 1] == '\r' && data[a] == '\n'
  }

  /** Where a line starts and ends. */
  datatype Span = Span(from: nat, to: nat)

  /** Where the line break at `e` ends. */
  function Past(data: Bytes, e: nat): (k: nat)
    requires e < |data| && IsBreak(data[e])
    ensures e < k <= |data| && IsBreak(data[k - 1]) && !InsideBreak(data, k)
  {
    if InsideBreak(data, e + 1) then e + 2 else e + 1
  }

  /** The lines of `data` from `i` on; nothing after a last line break is no line. */
  function Lines(data: Bytes, i: nat): (ls: seq<Span>)
    requires i <= |data|
    ensures i < |data| ==> |ls| > 0
    decreases |data| - i
  {
    if i == |data| then [] else
    var e := FindBreak(data, i);
    [Span(i, e)] + if e == |data| then [] else Lines(data, Past(data, e))
  }

  /** What line `n` from `i` on is like. */
  predicate IsLine(data: Bytes, i: nat, n: nat, last: bool, line: Span) {
    && i <= line.from <= line.to <= |data| && line.from < |data| && NoBreak(data, line.from, line.to)
    && (if n == 0 then line.from == i
        else line.from > 0 && IsBreak(data[line.from - 1]) && !InsideBreak(data, line.from))
    && (line.to < |data| ==> IsBreak(data[line.to])) && (!last ==> line.to < |data|)
  }

  lemma {:induction false} LinesAre(data: Bytes, i: nat, n: nat)
    requires i <= |data| && n < |Lines(data, i)|
    ensures IsLine(data, i, n, n == |Lines(data, i)| - 1, Lines(data, i)[n])
    decreases |data| - i
  {
    var e := FindBreak(data, i);
    if n > 0 {
      LinesAre(data, Past(data, e), n - 1);
      LaterLine(data, i, e, n, n == |Lines(data, i)| - 1, Lines(data, i)[n]);
    }
  }

  lemma LaterLine(data: Bytes, i: nat, e: nat, n: nat, last: bool, line: Span)
    requires n > 0 && i <= e < |data| && IsBreak(data[e]) && IsLine(data, Past(data, e), n - 1, last, line)
    ensures IsLine(data, i, n, last, line)
  {
  }

  function Cut<T>(xs: seq<T>, first: bool, last: bool): seq<T> {
    var rest := if first && xs != [] then xs[1..] else xs;
    if last && rest != [] then rest[..|rest| - 1] else rest
  }

  lemma CutAt<T>(xs: seq<T>, first: bool, last: bool, n: nat)
    requires n < |Cut(xs, first, last)|
    ensures var m := if first then n + 1 else n;
      m < |xs| && Cut(xs, first, last)[n] == xs[m] && (last ==> m < |xs| - 1)
  {
  }

  /** What is read of a range. */
  function BytesIn(file: Bytes, r: Range): (data: Bytes)
    requires r.offset + r.count <= |file|
    ensures |data| == r.count
  {
    seq(r.count, i requires 0 <= i < r.count => file[r.offset + i])
  }

  /** The lines of a range that are handed on: not the first after an offset, not the last before the end. */
  function Handed(file: Bytes, r: Range): seq<Span>
    requires r.offset + r.count <= |file|
  {
    HandedOf(BytesIn(file, r), r.offset > 0, r.offset + r.count < |file|)
  }

  /** The same of the range's bytes, which are cut off before or after them. */
  function HandedOf(data: Bytes, cutBefore: bool, cutAfter: bool): seq<Span> {
    Cut(Lines(data, 0), cutBefore, cutAfter)
  }

  /** From `a` to `b` there is one line: before it and after it is a line break or an end of the file. */
  predicate WholeLine(file: Bytes, a: nat, b: nat) {
    && a <= b <= |file| && NoBreak(file, a, b) && !InsideBreak(file, a)
    && (a == 0 || IsBreak(file[a - 1])) && (b == |file| || IsBreak(file[b]))
  }

  lemma LineIsInFile(file: Bytes, r: Range, m: nat, last: bool, line: Span)
    requires r.offset + r.count <= |file| && IsLine(BytesIn(file, r), 0, m, last, line)
    requires (m == 0 ==> r.offset == 0) && (last ==> r.offset + r.count == |file|)
    ensures WholeLine(file, r.offset + line.from, r.offset + line.to)
  {
    RangeIsInFile(file, r, BytesIn(file, r), m, last, line);
  }

  lemma RangeIsInFile(file: Bytes, r: Range, data: Bytes, m: nat, last: bool, line: Span)
    requires r.offset + r.count <= |file| && |data| == r.count && IsLine(data, 0, m, last, line)
    requires forall k :: 0 <= k < |data| ==> data[k] == file[r.offset + k]
    requires (m == 0 ==> r.offset == 0) && (last ==> r.offset + r.count == |file|)
    ensures WholeLine(file, r.offset + line.from, r.offset + line.to)
  {
    forall k | r.offset + line.from <= k < r.offset + line.to ensures !IsBreak(file[k]) {
      assert data[k - r.offset] == file[k];
    }
    assert data[line.from] == file[r.offset + line.from];
    assert line.from > 0 ==> data[line.from - 1] == file[r.offset + line.from - 1];
  }

  lemma HandedIsLine(file: Bytes, r: Range, n: nat) returns (m: nat, last: bool)
    requires r.offset + r.count <= |file| && n < |Handed(file, r)|
    ensures IsLine(BytesIn(file, r), 0, m, last, Handed(file, r)[n])
    ensures (m == 0 ==> r.offset == 0) && (last ==> r.offset + r.count == |file|)
  {
    var lines := Lines(BytesIn(file, r), 0);
    CutAt(lines, r.offset > 0, r.offset + r.count < |file|, n);
    m := if r.offset > 0 then n + 1 else n;
    last := m == |lines| - 1;
    LinesAre(BytesIn(file, r), 0, m);
  }

  /** Every line handed on is a whole line of the file. */
  lemma HandedLinesAreWhole(file: Bytes, r: Range, n: nat)
    requires r.offset + r.count <= |file| && n < |Handed(file, r)|
    ensures WholeLine(file, r.offset + Handed(file, r)[n].from, r.offset + Handed(file, r)[n].to)
  {
    var m, last := HandedIsLine(file, r, n);
    LineIsInFile(file, r, m, last, Handed(file, r)[n]);
  }

  lemma FindBreakIs(data: Bytes, i: nat, e: nat)
    requires i <= e <= |data| && NoBreak(data, i, e) && (e < |data| ==> IsBreak(data[e]))
    ensures FindBreak(data, i) == e
  {
  }

  /** The line of `data` from `a` to `b`, which is not behind its last line break. */
  predicate IsLineOf(data: Bytes, a: nat, b: nat) {
    WholeLine(data, a, b) && a < |data|
  }

  /** The line that ends at `b`, or its line break, reaches the end. */
  predicate ReachesEnd(data: Bytes, b: nat) {
    b == |data| || (b < |data| && IsBreak(data[b]) && Past(data, b) == |data|)
  }

  /** The place of a whole line among the lines from `i` on, when `i` is where a line starts. */
  lemma {:induction false} WholeLineIsThere(data: Bytes, i: nat, a: nat, b: nat) returns (n: nat)
    requires i <= a && IsLineOf(data, a, b) && !InsideBreak(data, i) && (i == 0 || IsBreak(data[i - 1]))
    ensures n < |Lines(data, i)| && Lines(data, i)[n] == Span(a, b)
    ensures n == 0 <==> a == i
    ensures n == |Lines(data, i)| - 1 <==> ReachesEnd(data, b)
    decreases |data| - i
  {
    var e := FindBreak(data, i);
    if a == i {
      n := 0;
      FindBreakIs(data, i, b);
    } else {
      assert IsBreak(data[a - 1]) && e < a;
      PastIsBefore(data, e, a);
      n := WholeLineIsThere(data, Past(data, e), a, b);
      n := n + 1;
    }
  }

  /** A line that starts after a line break starts past it. */
  lemma PastIsBefore(data: Bytes, e: nat, a: nat)
    requires e < a < |data| && IsBreak(data[e]) && IsBreak(data[a - 1]) && !InsideBreak(data, a)
    ensures Past(data, e) <= a
  {
  }

  /** A whole line of the file within a range is a line of the range's bytes. */
  lemma LineIsInRange(file: Bytes, r: Range, a: nat, b: nat)
    requires r.offset + r.count <= |file| && r.offset <= a && b <= r.offset + r.count && a < r.offset + r.count
    requires WholeLine(file, a, b)
    ensures IsLineOf(BytesIn(file, r), a - r.offset, b - r.offset)
  {
    var data := BytesIn(file, r);
    var c, d := a - r.offset, b - r.offset;
    forall k | c <= k < d ensures !IsBreak(data[k]) {
      assert data[k] == file[r.offset + k];
    }
    assert data[c] == file[a];
    assert c > 0 ==> data[c - 1] == file[a - 1];
    assert d < |data| ==> data[d] == file[b];
  }

  lemma CutIff(lines: seq<Span>, first: bool, last: bool, n: nat, line: Span)
    requires n < |lines| && lines[n] == line && forall i, j :: 0 <= i < j < |lines| ==> lines[i] != lines[j]
    ensures line in Cut(lines, first, last) <==> !(first && n == 0) && !(last && n == |lines| - 1)
  {
    var cut := Cut(lines, first, last);
    var d := if first then 1 else 0;
    assert forall i :: 0 <= i < |cut| ==> cut[i] == lines[i + d];
    if !(first && n == 0) && !(last && n == |lines| - 1) {
      assert cut[n - d] == line;
    }
  }

  lemma {:induction false} LinesDiffer(data: Bytes, i: nat)
    requires i <= |data|
    ensures forall n :: 0 <= n < |Lines(data, i)| ==> i <= Lines(data, i)[n].from
    ensures forall m, n :: 0 <= m < n < |Lines(data, i)| ==> Lines(data, i)[m].from < Lines(data, i)[n].from
    decreases |data| - i
  {
    if i < |data| && FindBreak(data, i) < |data| {
      LinesDiffer(data, Past(data, FindBreak(data, i)));
    }
  }

  /** The line starts at a cut before the bytes, or it or its line break reaches a cut after them. */
  predicate TouchesCut(data: Bytes, c: nat, d: nat, cutBefore: bool, cutAfter: bool) {
    (cutBefore && c == 0) || (cutAfter && ReachesEnd(data, d))
  }

  /** Of the lines of a range's bytes, those are handed on that neither start at a cut nor reach one. */
  lemma HandedOfDataIff(data: Bytes, c: nat, d: nat, cutBefore: bool, cutAfter: bool)
    requires IsLineOf(data, c, d)
    ensures Span(c, d) in HandedOf(data, cutBefore, cutAfter) <==> !TouchesCut(data, c, d, cutBefore, cutAfter)
  {
    var n := WholeLineIsThere(data, 0, c, d);
    LinesDiffer(data, 0);
    CutIff(Lines(data, 0), cutBefore, cutAfter, n, Span(c, d));
  }

  /** The line touches an end of the range that is not an end of the file. */
  predicate AtCut(file: Bytes, r: Range, a: nat, b: nat)
    requires r.offset + r.count <= |file| && r.offset <= a && r.offset <= b
  {
    TouchesCut(BytesIn(file, r), a - r.offset, b - r.offset, r.offset > 0, r.offset + r.count < |file|)
  }

  /** Of the whole lines of the file that lie in a range, exactly those at a cut are not handed on. */
  lemma HandedIff(file: Bytes, r: Range, a: nat, b: nat)
    requires r.offset + r.count <= |file| && r.offset <= a && b <= r.offset + r.count && a < r.offset + r.count
    requires WholeLine(file, a, b)
    ensures Span(a - r.offset, b - r.offset) in Handed(file, r) <==> !AtCut(file, r, a, b)
  {
    LineIsInRange(file, r, a, b);
    LineIsHandedIff(file, r, a - r.offset, b - r.offset);
  }

  lemma LineIsHandedIff(file: Bytes, r: Range, c: nat, d: nat)
    requires r.offset + r.count <= |file| && IsLineOf(BytesIn(file, r), c, d)
    ensures Span(c, d) in Handed(file, r) <==>
            !TouchesCut(BytesIn(file, r), c, d, r.offset > 0, r.offset + r.count < |file|)
  {
    HandedOfDataIff(BytesIn(file, r), c, d, r.offset > 0, r.offset + r.count < |file|);
  }

  /** Every line of a file that is read in full is handed on. */
  lemma FullFileIsHanded(file: Bytes, a: nat, b: nat)
    requires WholeLine(file, a, b) && a < |file|
    ensures Span(a, b) in Handed(file, Range(0, |file|))
  {
    HandedIff(file, Range(0, |file|), a, b);
  }

  // -------------------------------------------------------------- kept rows

  datatype Row = Row(at: string, rank: nat, number: nat, body: string)

  predicate TextLess(a: string, b: string) {
    V.LexLess(V.CharLess, a, b)
  }

  /** By time, then older files first, then in reading order. */
  predicate RowLess(a: Row, b: Row) {
    TextLess(a.at, b.at) || (a.at == b.at && (a.rank > b.rank || (a.rank == b.rank && a.number < b.number)))
  }

  /** At one time rows of older files come first, and those of one file in the order they were read. */
  predicate SameTimeOrder(a: Row, b: Row) {
    a.at == b.at && a.rank >= b.rank && (a.rank == b.rank ==> a.number < b.number)
  }

  lemma RowOrder(a: Row, b: Row, c: Row)
    ensures !RowLess(a, a)
    ensures RowLess(a, b) && RowLess(b, c) ==> RowLess(a, c)
    ensures a.number != b.number ==> RowLess(a, b) || RowLess(b, a)
  {
    V.BaseOrders();
    V.LexIrreflexive(V.CharLess, a.at);
    V.LexTotal(V.CharLess, a.at, b.at);
    if TextLess(a.at, b.at) && TextLess(b.at, c.at) {
      V.LexTransitive(V.CharLess, a.at, b.at, c.at);
    }
  }

  ghost predicate Sorted(rs: seq<Row>) {
    forall i, j :: 0 <= i < j < |rs| ==> RowLess(rs[i], rs[j])
  }

  predicate Numbered(rs: seq<Row>, n: nat) {
    forall i :: 0 <= i < |rs| ==> rs[i].number < n
  }

  /** A bucket's heap, as its rows in order: a push puts the row in its place. */
  function Insert(rs: seq<Row>, r: Row): (t: seq<Row>)
    ensures |t| == |rs| + 1 && multiset(t) == multiset(rs) + multiset{r}
  {
    if rs == [] || RowLess(rs[|rs| - 1], r) then rs + [r]
    else
      assert rs == rs[..|rs| - 1] + [rs[|rs| - 1]];
      Insert(rs[..|rs| - 1], r) + [rs[|rs| - 1]]
  }

  /** A push, and a pop of the least row when the bucket is over its quota. */
  function Push(bucket: seq<Row>, r: Row, quota: nat): seq<Row> {
    var t := Insert(bucket, r);
    if |t| > quota then t[1..] else t
  }

  function PushAll(rows: seq<Row>, quota: nat): seq<Row> {
    if rows == [] then [] else Push(PushAll(rows[..|rows| - 1], quota), rows[|rows| - 1], quota)
  }

  function SortedOf(rows: seq<Row>): (t: seq<Row>)
    ensures |t| == |rows| && multiset(t) == multiset(rows)
  {
    if rows == [] then [] else
      assert rows == rows[..|rows| - 1] + [rows[|rows| - 1]];
      Insert(SortedOf(rows[..|rows| - 1]), rows[|rows| - 1])
  }

  predicate Distinct(rows: seq<Row>) {
    forall i, j :: 0 <= i < j < |rows| ==> rows[i].number != rows[j].number
  }

  lemma {:induction false} InsertSorts(rs: seq<Row>, r: Row)
    requires Sorted(rs) && forall i :: 0 <= i < |rs| ==> rs[i].number != r.number
    ensures Sorted(Insert(rs, r))
    ensures forall x :: x in Insert(rs, r) <==> x in rs || x == r
  {
    if rs != [] {
      var last := rs[|rs| - 1];
      RowOrder(last, r, last);
      if RowLess(last, r) {
        forall i | 0 <= i < |rs| ensures RowLess(rs[i], r) {
          if i < |rs| - 1 {
            RowOrder(rs[i], last, r);
          }
        }
      } else {
        InsertSorts(rs[..|rs| - 1], r);
        var t := Insert(rs[..|rs| - 1], r);
        assert forall x :: x in t ==> RowLess(x, last);
      }
    }
  }

  lemma MembersOf(a: seq<Row>, b: seq<Row>, x: Row)
    requires multiset(a) == multiset(b)
    ensures x in a <==> x in b
  {
    assert x in a <==> x in multiset(a);
    assert x in b <==> x in multiset(b);
  }

  lemma {:induction false} SortedOfSorts(rows: seq<Row>)
    requires Distinct(rows)
    ensures Sorted(SortedOf(rows))
  {
    if rows != [] {
      var before, r := rows[..|rows| - 1], rows[|rows| - 1];
      SortedOfSorts(before);
      forall i | 0 <= i < |SortedOf(before)| ensures SortedOf(before)[i].number != r.number {
        MembersOf(SortedOf(before), before, SortedOf(before)[i]);
      }
      InsertSorts(SortedOf(before), r);
    }
  }

  function Last(rs: seq<Row>, n: nat): seq<Row> {
    if |rs| > n then rs[|rs| - n..] else rs
  }

  lemma LastOfOneMore(rs: seq<Row>, r: Row, n: nat)
    requires n > 0
    ensures Last(rs + [r], n) == Last(rs, n - 1) + [r]
  {
  }

  lemma InsertBefore(rs: seq<Row>, last: Row, r: Row)
    requires !RowLess(last, r)
    ensures Insert(rs + [last], r) == Insert(rs, r) + [last]
  {
    assert (rs + [last])[..|rs|] == rs;
  }

  /** Dropping the least rows and inserting can be done in either order. */
  lemma {:induction false} InsertIntoLast(rs: seq<Row>, r: Row, n: nat)
    ensures Last(Insert(Last(rs, n), r), n) == Last(Insert(rs, r), n)
  {
    if |rs| > n && n > 0 {
      var rest, last := rs[..|rs| - 1], rs[|rs| - 1];
      var end := Last(rs, n);
      assert end == Last(rest, n - 1) + [last] by {
        LastOfOneMore(rest, last, n);
        assert rs == rest + [last];
      }
      if RowLess(last, r) {
        LastOfOneMore(rs, r, n);
        LastOfOneMore(end, r, n);
        assert Last(end, n - 1) == Last(rs, n - 1);
      } else {
        InsertIntoLast(rest, r, n - 1);
        InsertBefore(rest, last, r);
        InsertBefore(Last(rest, n - 1), last, r);
        LastOfOneMore(Insert(rest, r), last, n);
        LastOfOneMore(Insert(Last(rest, n - 1), r), last, n);
      }
    }
  }

  /** What a bucket holds is the end of the sorted list of all its rows. */
  lemma {:induction false} BucketIsTop(rows: seq<Row>, quota: nat)
    ensures PushAll(rows, quota) == Last(SortedOf(rows), quota)
  {
    if rows != [] {
      var before, r := rows[..|rows| - 1], rows[|rows| - 1];
      BucketIsTop(before, quota);
      PushIsLast(Last(SortedOf(before), quota), r, quota);
      InsertIntoLast(SortedOf(before), r, quota);
    }
  }

  lemma PushIsLast(bucket: seq<Row>, r: Row, quota: nat)
    requires |bucket| <= quota
    ensures Push(bucket, r, quota) == Last(Insert(bucket, r), quota)
  {
  }

  /** After any input a bucket holds, in order, as many rows as its quota allows, all of them greater
      than every row of its category that was dropped. */
  lemma BucketKeepsLargest(rows: seq<Row>, quota: nat)
    requires Distinct(rows)
    ensures var kept := PushAll(rows, quota);
      && |kept| == Min(|rows|, quota) && Sorted(kept)
      && (forall x :: x in kept ==> x in rows)
      && (forall x, y :: x in rows && x !in kept && y in kept ==> RowLess(x, y))
  {
    BucketIsTop(rows, quota);
    SortedOfSorts(rows);
    var all := SortedOf(rows);
    forall x ensures x in all <==> x in rows {
      MembersOf(all, rows, x);
    }
    EndIsLargest(all, quota);
  }

  lemma EndIsLargest(all: seq<Row>, n: nat)
    requires Sorted(all)
    ensures var kept := Last(all, n);
      && |kept| == Min(|all|, n) && Sorted(kept) && (forall x :: x in kept ==> x in all)
      && (forall x, y :: x in all && x !in kept && y in kept ==> RowLess(x, y))
  {
  }

  // ------------------------------------------------------------ the exporter

  datatype Category = Enabled | FrontendGap | FrontendStartup | Native | Startup | Lifecycle | Focus | HostIo

  function Quota(c: Category): nat {
    match c
    case Enabled => 48 case FrontendGap => 512 case FrontendStartup => 96 case Native => 128
    case Startup => 96 case Lifecycle => 64 case Focus => 16 case HostIo => 64
  }

  /** A line of file `rank`, recognized as a row of some category. */
  datatype Line = Line(rank: nat, category: Category, at: string, body: string)

  /** The rows of one category, numbered over all lines. */
  function RowsOf(lines: seq<Line>, c: Category): (rs: seq<Row>)
    ensures Numbered(rs, |lines| + 1) && Distinct(rs)
  {
    if lines == [] then [] else
    var before := RowsOf(lines[..|lines| - 1], c);
    var l := lines[|lines| - 1];
    if l.category == c then before + [Row(l.at, l.rank, |lines|, l.body)] else before
  }

  const CATEGORIES := {Enabled, FrontendGap, FrontendStartup, Native, Startup, Lifecycle, Focus, HostIo}

  lemma AllCategories()
    ensures forall c: Category :: c in CATEGORIES
  {
    forall c: Category ensures c in CATEGORIES {
      match c
      case Enabled => case FrontendGap => case FrontendStartup => case Native =>
      case Startup => case Lifecycle => case Focus => case HostIo =>
    }
  }

  method HeapPush(bucket: seq<Row>, row: Row, quota: nat) returns (pushed: seq<Row>)
    ensures pushed == Push(bucket, row, quota)
  {
    pushed := Insert(bucket, row);
    if |pushed| > quota {
      pushed := pushed[1..];
    }
  }

  /** The counts and buckets are those of `lines`. */
  ghost predicate Tallied(lines: seq<Line>, seen: map<Category, nat>, buckets: map<Category, seq<Row>>) {
    forall c: Category :: c in seen && c in buckets && TalliedFor(lines, c, seen[c], buckets[c])
  }

  ghost predicate TalliedFor(lines: seq<Line>, c: Category, count: nat, bucket: seq<Row>) {
    count == |RowsOf(lines, c)| && bucket == PushAll(RowsOf(lines, c), Quota(c))
  }

  lemma TalliedOneMore(lines: seq<Line>, l: Line, seen: map<Category, nat>, buckets: map<Category, seq<Row>>, bucket: seq<Row>)
    requires Tallied(lines, seen, buckets)
    requires l.category in buckets
    requires bucket == Push(buckets[l.category], Row(l.at, l.rank, |lines| + 1, l.body), Quota(l.category))
    ensures l.category in seen
    ensures Tallied(lines + [l], seen[l.category := seen[l.category] + 1], buckets[l.category := bucket])
  {
  }

  class Exporter {
    var sequence: nat
    var seen: map<Category, nat>
    var buckets: map<Category, seq<Row>>
    ghost var lines: seq<Line>

    ghost predicate Valid()
      reads this
    {
      sequence == |lines| && Tallied(lines, seen, buckets)
    }

    constructor ()
      ensures Valid() && lines == []
    {
      sequence, lines := 0, [];
      seen := map c | c in CATEGORIES :: 0;
      buckets := map c | c in CATEGORIES :: [];
      AllCategories();
    }

    /** One recognized line: it is numbered, counted and pushed, and the least row over quota goes. */
    method Process(l: Line)
      requires Valid()
      modifies this
      ensures Valid() && lines == old(lines) + [l]
    {
      sequence := sequence + 1;
      var row := Row(l.at, l.rank, sequence, l.body);
      assert l.category in seen && l.category in buckets;
      var bucket := HeapPush(buckets[l.category], row, Quota(l.category));
      TalliedOneMore(lines, l, seen, buckets, bucket);
      lines := lines + [l];
      seen := seen[l.category := seen[l.category] + 1];
      buckets := buckets[l.category := bucket];
    }
  }

  // --------------------------------------------------------------- the output

  const BUDGET := 1900000

  /** What is written of `rows`, the newest first choice: each goes in unless it does not fit what is left. */
  function Fit(rows: seq<Row>, size: Row -> nat, budget: nat): seq<Row> {
    if rows == [] then [] else
    var r, rest := rows[|rows| - 1], rows[..|rows| - 1];
    if size(r) > budget then Fit(rest, size, budget) else Fit(rest, size, budget - size(r)) + [r]
  }

  function Sizes(rows: seq<Row>, size: Row -> nat): nat {
    if rows == [] then 0 else Sizes(rows[..|rows| - 1], size) + size(rows[|rows| - 1])
  }

  /** The places of the rows that are written. */
  function Places(rows: seq<Row>, size: Row -> nat, budget: nat): seq<nat> {
    if rows == [] then [] else
    var r, rest := rows[|rows| - 1], rows[..|rows| - 1];
    if size(r) > budget then Places(rest, size, budget) else Places(rest, size, budget - size(r)) + [|rows| - 1]
  }

  /** The output is some of the rows, in order, and fits its budget. */
  lemma {:induction false} FitChooses(rows: seq<Row>, size: Row -> nat, budget: nat)
    ensures var out, at := Fit(rows, size, budget), Places(rows, size, budget);
      && Sizes(out, size) <= budget && |at| == |out|
      && (forall i, j :: 0 <= i < j < |at| ==> at[i] < at[j])
      && (forall i :: 0 <= i < |at| ==> at[i] < |rows| && rows[at[i]] == out[i])
  {
    if rows != [] {
      var r, rest := rows[|rows| - 1], rows[..|rows| - 1];
      if size(r) > budget {
        FitChooses(rest, size, budget);
      } else {
        FitChooses(rest, size, budget - size(r));
        var out := Fit(rest, size, budget - size(r));
        SizesOneMore(out, r, size);
      }
    }
  }

  lemma SizesOneMore(out: seq<Row>, r: Row, size: Row -> nat)
    ensures Sizes(out + [r], size) == Sizes(out, size) + size(r)
  {
    assert (out + [r])[..|out|] == out;
  }

  predicate HasRoom(rows: seq<Row>, size: Row -> nat, budget: nat, k: nat)
    requires k < |rows|
  {
    size(rows[k]) + Sizes(Fit(rows[k + 1..], size, budget), size) <= budget
  }

  /** A row is written exactly when the newer rows that are written leave room for it. */
  lemma {:induction false} WrittenIffRoom(rows: seq<Row>, size: Row -> nat, budget: nat, k: nat)
    requires k < |rows|
    ensures k in Places(rows, size, budget) <==> HasRoom(rows, size, budget, k)
  {
    var n := |rows| - 1;
    var r, rest := rows[n], rows[..n];
    FitChooses(rest, size, budget);
    if k == n {
      assert rows[k + 1..] == [];
      if size(r) <= budget {
        FitChooses(rest, size, budget - size(r));
        var before := Places(rest, size, budget - size(r));
        assert (before + [n])[|before|] == n;
      }
    } else {
      var tail := rows[k + 1..];
      assert tail[..|tail| - 1] == rest[k + 1..] && tail[|tail| - 1] == r;
      if size(r) > budget {
        WrittenIffRoom(rest, size, budget, k);
      } else {
        WrittenIffRoom(rest, size, budget - size(r), k);
        SizesOneMore(Fit(rest[k + 1..], size, budget - size(r)), r, size);
      }
    }
  }

  /** The emitted rows of sorted rows are sorted. */
  lemma OutputIsSorted(rows: seq<Row>, size: Row -> nat, budget: nat)
    requires Sorted(rows)
    ensures Sorted(Fit(rows, size, budget))
  {
    FitChooses(rows, size, budget);
  }

  /** The loop from the newest row down. */
  method Emit(rows: seq<Row>, size: Row -> nat) returns (emitted: seq<Row>, omitted: nat)
    ensures emitted == Fit(rows, size, BUDGET) && |emitted| + omitted == |rows|
  {
    emitted, omitted := [], 0;
    var budget: nat := BUDGET;
    assert rows[..|rows|] == rows && Fit(rows, size, BUDGET) + [] == Fit(rows, size, BUDGET);
    for i := |rows| downto 0
      invariant Fit(rows, size, BUDGET) == Fit(rows[..i], size, budget) + emitted
      invariant |emitted| + omitted == |rows| - i
    {
      var r := rows[i];
      assert rows[..i + 1][..i] == rows[..i] && rows[..i + 1][i] == r;
      if size(r) > budget {
        omitted := omitted + 1;
      } else {
        assert Fit(rows[..i], size, budget - size(r)) + [r] + emitted == Fit(rows[..i], size, budget - size(r)) + ([r] + emitted);
        emitted, budget := [r] + emitted, budget - size(r);
      }
    }
  }

  // ---------------------------------------------------------- the whole export

  const ORDER := [Enabled, FrontendGap, FrontendStartup, Native, Startup, Lifecycle, Focus, HostIo]

  /** What the buckets of some categories hold together. */
  function KeptIn(lines: seq<Line>, cs: seq<Category>): seq<Row> {
    if cs == [] then [] else
    var c := cs[|cs| - 1];
    KeptIn(lines, cs[..|cs| - 1]) + PushAll(RowsOf(lines, c), Quota(c))
  }

  /** How many rows of each category stay. */
  lemma QuotasAre(lines: seq<Line>, c: Category, quota: nat)
    requires (c, quota) in {(Enabled, 48), (FrontendGap, 512), (FrontendStartup, 96), (Native, 128),
                            (Startup, 96), (Lifecycle, 64), (Focus, 16), (HostIo, 64)}
    ensures |PushAll(RowsOf(lines, c), Quota(c))| == if |RowsOf(lines, c)| < quota then |RowsOf(lines, c)| else quota
  {
    BucketKeepsLargest(RowsOf(lines, c), Quota(c));
  }

  /** No export has more than 1024 rows. */
  lemma AtMost1024Stay(lines: seq<Line>)
    ensures |KeptIn(lines, ORDER)| <= 1024
  {
    KeptInTotal(lines, 8);
    assert ORDER[..8] == ORDER;
  }

  /** How many rows the first categories may keep. */
  function Quotas(n: nat): nat
    requires n <= |ORDER|
  {
    if n == 0 then 0 else Quotas(n - 1) + Quota(ORDER[n - 1])
  }

  lemma {:induction false} KeptInTotal(lines: seq<Line>, n: nat)
    requires n <= |ORDER|
    ensures |KeptIn(lines, ORDER[..n])| <= Quotas(n)
  {
    if n > 0 {
      KeptInTotal(lines, n - 1);
      assert ORDER[..n][..n - 1] == ORDER[..n - 1];
      KeptOneMore(lines, ORDER[..n]);
    }
  }

  lemma KeptOneMore(lines: seq<Line>, cs: seq<Category>)
    requires cs != []
    ensures |KeptIn(lines, cs)| <= |KeptIn(lines, cs[..|cs| - 1])| + Quota(cs[|cs| - 1])
  {
    BucketKeepsLargest(RowsOf(lines, cs[|cs| - 1]), Quota(cs[|cs| - 1]));
  }

  lemma {:induction false} RowIsLine(lines: seq<Line>, c: Category, r: Row)
    requires r in RowsOf(lines, c)
    ensures 1 <= r.number <= |lines| && lines[r.number - 1].category == c
    ensures Says(lines, r)
  {
    if r in RowsOf(lines[..|lines| - 1], c) {
      RowIsLine(lines[..|lines| - 1], c, r);
    }
  }

  lemma SortedIsDistinct(rows: seq<Row>, kept: seq<Row>)
    requires Distinct(rows) && Sorted(kept) && forall x :: x in kept ==> x in rows
    ensures Distinct(kept)
  {
    forall i, j | 0 <= i < j < |kept| ensures kept[i].number != kept[j].number {
      assert kept[i] in rows && kept[j] in rows;
      var m :| 0 <= m < |rows| && rows[m] == kept[i];
      var n :| 0 <= n < |rows| && rows[n] == kept[j];
      RowOrder(kept[i], kept[j], kept[i]);
      RowOrder(kept[j], kept[i], kept[i]);
    }
  }

  /** The row stands for a line read, of one of `cs`. */
  predicate StandsFor(lines: seq<Line>, cs: seq<Category>, r: Row) {
    1 <= r.number <= |lines| && lines[r.number - 1].category in cs && r in RowsOf(lines, lines[r.number - 1].category)
  }

  /** The row says what that line says. */
  predicate Says(lines: seq<Line>, r: Row) {
    1 <= r.number <= |lines| && r == Row(lines[r.number - 1].at, lines[r.number - 1].rank, r.number, lines[r.number - 1].body)
  }

  lemma BucketStands(lines: seq<Line>, cs: seq<Category>, c: Category)
    requires c in cs
    ensures var kept := PushAll(RowsOf(lines, c), Quota(c));
      Distinct(kept) && forall r :: r in kept ==> StandsFor(lines, cs, r) && lines[r.number - 1].category == c
  {
    var rows := RowsOf(lines, c);
    var kept := PushAll(rows, Quota(c));
    BucketKeepsLargest(rows, Quota(c));
    SortedIsDistinct(rows, kept);
    forall r | r in kept ensures StandsFor(lines, cs, r) && lines[r.number - 1].category == c {
      RowIsLine(lines, c, r);
    }
  }

  lemma StandsForMore(lines: seq<Line>, cs: seq<Category>, c: Category, r: Row)
    requires StandsFor(lines, cs, r) && c !in cs
    ensures StandsFor(lines, cs + [c], r) && lines[r.number - 1].category != c
  {
  }

  lemma ConcatIsDistinct(lines: seq<Line>, a: seq<Row>, b: seq<Row>, c: Category)
    requires Distinct(a) && Distinct(b)
    requires forall r :: r in a ==> 1 <= r.number <= |lines| && lines[r.number - 1].category != c
    requires forall r :: r in b ==> 1 <= r.number <= |lines| && lines[r.number - 1].category == c
    ensures Distinct(a + b)
  {
  }

  lemma {:induction false} KeptAreDistinct(lines: seq<Line>, cs: seq<Category>)
    requires forall i, j :: 0 <= i < j < |cs| ==> cs[i] != cs[j]
    ensures Distinct(KeptIn(lines, cs))
    ensures forall r :: r in KeptIn(lines, cs) ==> StandsFor(lines, cs, r)
  {
    if cs != [] {
      var rest, c := cs[..|cs| - 1], cs[|cs| - 1];
      KeptAreDistinct(lines, rest);
      BucketStands(lines, cs, c);
      assert cs == rest + [c];
      var a, b := KeptIn(lines, rest), PushAll(RowsOf(lines, c), Quota(c));
      forall r | r in a ensures StandsFor(lines, cs, r) && lines[r.number - 1].category != c {
        StandsForMore(lines, rest, c, r);
      }
      ConcatIsDistinct(lines, a, b, c);
    }
  }

  /** Every line read is a row of its category. */
  lemma {:induction false} LineIsRow(lines: seq<Line>, k: nat)
    requires k < |lines|
    ensures var l := lines[k]; Row(l.at, l.rank, k + 1, l.body) in RowsOf(lines, l.category)
  {
    var n := |lines| - 1;
    if k < n {
      LineIsRow(lines[..n], k);
    }
  }

  function Exported(lines: seq<Line>, size: Row -> nat): seq<Row> {
    Fit(SortedOf(KeptIn(lines, ORDER)), size, BUDGET)
  }

  /** Whatever lines were read, the export is in order, fits its budget, and holds rows that stand
      for lines read. */
  lemma ExportIsSound(lines: seq<Line>, size: Row -> nat)
    ensures var out := Exported(lines, size);
      && Sorted(out) && Sizes(out, size) <= 1900000
      && (forall i, j :: 0 <= i < j < |out| ==> TextLess(out[i].at, out[j].at) || SameTimeOrder(out[i], out[j]))
      && (forall r :: r in out ==> StandsFor(lines, ORDER, r) && Says(lines, r))
  {
    KeptAreDistinct(lines, ORDER);
    var kept := KeptIn(lines, ORDER);
    SortedOfSorts(kept);
    OutputIsSorted(SortedOf(kept), size, BUDGET);
    FitChooses(SortedOf(kept), size, BUDGET);
    SortedInTime(Exported(lines, size));
    forall r | r in Exported(lines, size) ensures StandsFor(lines, ORDER, r) && Says(lines, r) {
      OutputIsKept(kept, size, BUDGET, r);
      StandingSays(lines, r);
    }
  }

  lemma SortedInTime(rs: seq<Row>)
    requires Sorted(rs)
    ensures forall i, j :: 0 <= i < j < |rs| ==> TextLess(rs[i].at, rs[j].at) || SameTimeOrder(rs[i], rs[j])
  {
  }

  lemma OutputIsKept(kept: seq<Row>, size: Row -> nat, budget: nat, r: Row)
    requires r in Fit(SortedOf(kept), size, budget)
    ensures r in kept
  {
    FitChooses(SortedOf(kept), size, budget);
    MembersOf(SortedOf(kept), kept, r);
  }

  lemma StandingSays(lines: seq<Line>, r: Row)
    requires StandsFor(lines, ORDER, r)
    ensures Says(lines, r)
  {
    RowIsLine(lines, lines[r.number - 1].category, r);
  }

  // ------------------------------------------------- which rows are exported

  /** The rows greater than `r`. */
  function Greater(rows: seq<Row>, r: Row): set<Row> {
    set x | x in rows && RowLess(r, x)
  }

  function Members(rows: seq<Row>): set<Row> {
    set x | x in rows
  }

  lemma MembersOneMore(rest: seq<Row>, last: Row)
    ensures Members(rest + [last]) == Members(rest) + {last}
    ensures last !in rest ==> last !in Members(rest)
  {
  }

  lemma LastIsNew(rest: seq<Row>, last: Row)
    requires Sorted(rest + [last])
    ensures Sorted(rest) && last !in rest
  {
    var rows := rest + [last];
    assert forall i :: 0 <= i < |rest| ==> rows[i] == rest[i];
    RowOrder(last, last, last);
    forall i | 0 <= i < |rest| ensures rest[i] != last {
      assert RowLess(rows[i], rows[|rest|]);
    }
  }

  lemma {:induction false} SortedSetSize(rows: seq<Row>)
    requires Sorted(rows)
    ensures |Members(rows)| == |rows|
  {
    if rows != [] {
      var rest, last := rows[..|rows| - 1], rows[|rows| - 1];
      assert rows == rest + [last];
      LastIsNew(rest, last);
      SortedSetSize(rest);
      MembersOneMore(rest, last);
    }
  }

  lemma GreaterAreAfter(all: seq<Row>, i: nat)
    requires Sorted(all) && i < |all|
    ensures |Greater(all, all[i])| == |all| - 1 - i
  {
    var r, tail := all[i], all[i + 1..];
    forall x ensures x in Greater(all, r) <==> x in tail {
      if x in Greater(all, r) {
        var j :| 0 <= j < |all| && all[j] == x;
        RowOrder(r, x, r);
        RowOrder(r, r, r);
        assert j > i ==> all[j] == tail[j - i - 1];
      }
    }
    assert Greater(all, r) == Members(tail);
    SortedSetSize(tail);
  }

  /** A row is kept exactly when fewer rows of its category than the quota are greater. */
  lemma KeptIff(rows: seq<Row>, quota: nat, r: Row)
    requires Distinct(rows) && r in rows
    ensures r in PushAll(rows, quota) <==> |Greater(rows, r)| < quota
  {
    var all := SortedOf(rows);
    BucketIsTop(rows, quota);
    SortedOfSorts(rows);
    forall x ensures x in all <==> x in rows {
      MembersOf(all, rows, x);
    }
    var i :| 0 <= i < |all| && all[i] == r;
    assert Greater(rows, r) == Greater(all, r);
    GreaterAreAfter(all, i);
    LastIff(all, quota, i);
  }

  lemma LastIff(all: seq<Row>, n: nat, i: nat)
    requires Sorted(all) && i < |all|
    ensures all[i] in Last(all, n) <==> |all| - 1 - i < n
  {
    var kept := Last(all, n);
    var dropped := if |all| > n then |all| - n else 0;
    RowOrder(all[i], all[i], all[i]);
    assert i >= dropped ==> kept[i - dropped] == all[i];
    forall j | 0 <= j < |kept| && i < dropped ensures kept[j] != all[i] {
      assert kept[j] == all[j + dropped];
    }
  }

  /** What is kept of category `c` is in the bucket of `c` only. */
  lemma {:induction false} KeptInIff(lines: seq<Line>, cs: seq<Category>, c: Category, r: Row)
    requires r in RowsOf(lines, c)
    ensures r in KeptIn(lines, cs) <==> c in cs && r in PushAll(RowsOf(lines, c), Quota(c))
  {
    if cs != [] {
      var rest, d := cs[..|cs| - 1], cs[|cs| - 1];
      KeptInIff(lines, rest, c, r);
      OneBucket(lines, c, d, r);
      InLastOrBefore(cs, c);
      InEither(KeptIn(lines, rest), PushAll(RowsOf(lines, d), Quota(d)), r);
    }
  }

  lemma OneBucket(lines: seq<Line>, c: Category, d: Category, r: Row)
    requires r in RowsOf(lines, c)
    ensures r in PushAll(RowsOf(lines, d), Quota(d)) ==> d == c
  {
    BucketKeepsLargest(RowsOf(lines, d), Quota(d));
    OneCategory(lines, c, d, r);
  }

  lemma OneCategory(lines: seq<Line>, c: Category, d: Category, r: Row)
    requires r in RowsOf(lines, c)
    ensures r in RowsOf(lines, d) ==> d == c
  {
    RowIsLine(lines, c, r);
    if r in RowsOf(lines, d) {
      RowIsLine(lines, d, r);
    }
  }

  lemma InLastOrBefore(cs: seq<Category>, c: Category)
    requires cs != []
    ensures c in cs <==> c in cs[..|cs| - 1] || c == cs[|cs| - 1]
  {
    assert cs == cs[..|cs| - 1] + [cs[|cs| - 1]];
  }

  lemma InEither(a: seq<Row>, b: seq<Row>, r: Row)
    ensures r in a + b <==> r in a || r in b
  {
  }

  /** The rows of `rows` greater than `r`, in order. */
  function Newer(rows: seq<Row>, r: Row): seq<Row> {
    if rows == [] then [] else
    var rest, last := rows[..|rows| - 1], rows[|rows| - 1];
    Newer(rest, r) + if RowLess(r, last) then [last] else []
  }

  lemma {:induction false} NewerOfParts(a: seq<Row>, b: seq<Row>, r: Row)
    requires forall x :: x in a ==> !RowLess(r, x)
    requires forall x :: x in b ==> RowLess(r, x)
    ensures Newer(a + b, r) == b
  {
    if b != [] {
      NewerOfParts(a, b[..|b| - 1], r);
      assert (a + b)[..|a + b| - 1] == a + b[..|b| - 1];
    } else if a != [] {
      NewerOfParts(a[..|a| - 1], b, r);
      assert a + b == a && a[..|a| - 1] + b == a[..|a| - 1];
    }
  }

  /** The output ends with what is written of the rows after `k` alone. */
  lemma {:induction false} FitEnds(rows: seq<Row>, size: Row -> nat, budget: nat, k: nat) returns (before: seq<Row>)
    requires k <= |rows|
    ensures Fit(rows, size, budget) == before + Fit(rows[k..], size, budget)
    ensures forall x :: x in before ==> x in rows[..k]
  {
    if k == |rows| {
      before := Fit(rows, size, budget);
      FitChooses(rows, size, budget);
      assert rows[k..] == [] && rows[..k] == rows && before + [] == before;
    } else {
      var r, rest := rows[|rows| - 1], rows[..|rows| - 1];
      var left := if size(r) > budget then budget else budget - size(r);
      before := FitEnds(rest, size, left, k);
      var tail := rows[k..];
      assert tail[..|tail| - 1] == rest[k..] && tail[|tail| - 1] == r && rest[..k] == rows[..k];
      assert before + Fit(rest[k..], size, left) + [r] == before + (Fit(rest[k..], size, left) + [r]);
    }
  }

  lemma WrittenMeansPlaced(rows: seq<Row>, size: Row -> nat, budget: nat, k: nat)
    requires Sorted(rows) && k < |rows|
    ensures rows[k] in Fit(rows, size, budget) <==> k in Places(rows, size, budget)
  {
    var out, at := Fit(rows, size, budget), Places(rows, size, budget);
    FitChooses(rows, size, budget);
    if rows[k] in out {
      var i :| 0 <= i < |out| && out[i] == rows[k];
      RowOrder(rows[k], rows[k], rows[k]);
      assert at[i] == k;
    }
    if k in at {
      var i :| 0 <= i < |at| && at[i] == k;
      assert out[i] == rows[k];
    }
  }

  lemma NewerAreWritten(rows: seq<Row>, size: Row -> nat, budget: nat, k: nat)
    requires Sorted(rows) && k < |rows|
    ensures Newer(Fit(rows, size, budget), rows[k]) == Fit(rows[k + 1..], size, budget)
  {
    var r, tail := rows[k], rows[k + 1..];
    var before := FitEnds(rows, size, budget, k + 1);
    var after := Fit(tail, size, budget);
    FitChooses(tail, size, budget);
    forall x | x in after ensures RowLess(r, x) {
      var i :| 0 <= i < |after| && after[i] == x;
      var j := Places(tail, size, budget)[i];
      assert x == tail[j] == rows[k + 1 + j];
    }
    forall x | x in before ensures !RowLess(r, x) {
      var j :| 0 <= j < k + 1 && rows[..k + 1][j] == x;
      RowOrder(x, r, x);
      RowOrder(r, r, r);
    }
    NewerOfParts(before, after, r);
  }

  lemma KeptOfAll(lines: seq<Line>, c: Category, r: Row)
    requires r in RowsOf(lines, c)
    ensures r in SortedOf(KeptIn(lines, ORDER)) <==> |Greater(RowsOf(lines, c), r)| < Quota(c)
  {
    MembersOf(SortedOf(KeptIn(lines, ORDER)), KeptIn(lines, ORDER), r);
    EveryCategoryIsOrdered(c);
    KeptInIff(lines, ORDER, c, r);
    KeptIff(RowsOf(lines, c), Quota(c), r);
  }

  lemma WrittenIff(rows: seq<Row>, size: Row -> nat, budget: nat, r: Row)
    requires Sorted(rows)
    ensures var out := Fit(rows, size, budget);
      r in out <==> r in rows && size(r) + Sizes(Newer(out, r), size) <= budget
  {
    FitChooses(rows, size, budget);
    if r in rows {
      var k :| 0 <= k < |rows| && rows[k] == r;
      WrittenMeansPlaced(rows, size, budget, k);
      WrittenIffRoom(rows, size, budget, k);
      NewerAreWritten(rows, size, budget, k);
    }
  }

  /** From the lines read to the file written: a row is exported exactly when fewer rows of its
      category than the quota are newer, and the newer exported rows leave room for it. */
  lemma ExportedIff(lines: seq<Line>, c: Category, size: Row -> nat, r: Row)
    requires r in RowsOf(lines, c)
    ensures var out := Exported(lines, size);
      r in out <==> |Greater(RowsOf(lines, c), r)| < Quota(c) && size(r) + Sizes(Newer(out, r), size) <= 1900000
  {
    KeptAreDistinct(lines, ORDER);
    SortedOfSorts(KeptIn(lines, ORDER));
    KeptOfAll(lines, c, r);
    WrittenIff(SortedOf(KeptIn(lines, ORDER)), size, BUDGET, r);
  }

  lemma EveryCategoryIsOrdered(c: Category)
    ensures c in ORDER
  {
    var i := match c
      case Enabled => 0 case FrontendGap => 1 case FrontendStartup => 2 case Native => 3
      case Startup => 4 case Lifecycle => 5 case Focus => 6 case HostIo => 7;
    assert ORDER[i] == c;
  }
}
