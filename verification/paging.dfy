/**
 Paging of query results: `PageList` carries one page of items together with the
 page number, the page size and the total count, and derives the page count and
 the next/previous flags; `ToPageList` cuts page `page` out of a query with
 LINQ's Skip((page - 1) * pageSize).Take(pageSize).

 The query is modelled as an in-memory sequence with the semantics of
 Enumerable.Skip and Enumerable.Take (a count at or below zero skips nothing,
 respectively takes nothing).  The source computes the offset in unchecked
 32-bit arithmetic; `ToPageListAsWritten` keeps that wrap-around, `ToPageList`
 computes the offset exactly.
 */
module Paging {
  import opened Common

  const MinInt32: int := -0x8000_0000
  const MaxInt32: int := 0x7FFF_FFFF

  /** The values of a C# int. */
  type Int32 = x: int | MinInt32 <= x <= MaxInt32

  /** Unchecked conversion of an integer to int: the value modulo 2^32, in the
      range of int. */
  function Wrap32(x: int): (r: Int32)
    ensures (x - r) % 0x1_0000_0000 == 0
    ensures MinInt32 <= x <= MaxInt32 ==> r == x
  {
    (x - MinInt32) % 0x1_0000_0000 + MinInt32
  }

  datatype PageList<T> = PageList(items: seq<T>, page: int, pageSize: int, totalCount: int)

  /** ⌈a / b⌉ over the rationals. */
  function CeilDiv(a: int, b: int): (r: int)
    requires b != 0
    ensures b > 0 ==> (r - 1) * b < a <= r * b
    ensures b < 0 ==> r * b <= a < (r - 1) * b
  {
    if b > 0 then
      CeilDivPositive(a, b);
      -((-a) / b)
    else
      CeilDivPositive(-a, -b);
      NegateBoth(-(a / -b), b);
      -(a / -b)
  }

  lemma CeilDivPositive(a: int, b: int)
    requires b > 0
    ensures var r := -((-a) / b); (r - 1) * b < a <= r * b
  {
    var q := (-a) / b;
    var m := (-a) % b;
    assert -a == q * b + m && 0 <= m < b;
    assert (-q) * b == -(q * b);
    assert (-q - 1) * b == -(q * b) - b;
  }

  lemma NegateBoth(r: int, b: int)
    ensures r * b == -(r * -b) && (r - 1) * b == -((r - 1) * -b)
  {
  }

  /** PageList.TotalPages: the page count ⌈TotalCount / PageSize⌉.  The
      quotient is taken in double precision in the source, which for int
      operands never rounds across an integer.  Division by a zero page size
      yields an infinity or NaN whose conversion to int is platform-defined, and
      is modelled as None. */
  function TotalPages<T>(p: PageList<T>): (r: Option<int>)
    ensures r.Some? <==> p.pageSize != 0
    ensures p.pageSize > 0 ==>
              (r.value - 1) * p.pageSize < p.totalCount <= r.value * p.pageSize
    ensures p.pageSize > 0 && p.totalCount == 0 ==> r == Some(0)
    ensures p.pageSize > 0 && p.totalCount > 0 ==> r.value >= 1
  {
    if p.pageSize == 0 then None
    else
      var t := CeilDiv(p.totalCount, p.pageSize);
      CeilingSign(t, p.pageSize);
      Some(t)
  }

  lemma MulSign(a: int, b: int)
    requires b > 0
    ensures a <= 0 ==> a * b <= 0
    ensures a >= 1 ==> a * b >= b
  {
  }

  lemma CeilingSign(t: int, b: int)
    ensures b > 0 ==> (t <= 0 ==> t * b <= 0) && (t - 1 <= 0 ==> (t - 1) * b <= 0)
    ensures b > 0 ==> (t >= 1 ==> t * b >= b) && (t - 1 >= 1 ==> (t - 1) * b >= b)
  {
    if b > 0 {
      MulSign(t, b);
      MulSign(t - 1, b);
    }
  }

  /** PageList.HasNextPage */
  function HasNextPage<T>(p: PageList<T>): (r: Option<bool>)
    ensures r.Some? <==> p.pageSize != 0
    ensures r.Some? ==> (r.value <==> p.page < TotalPages(p).value)
  {
    match TotalPages(p)
    case None => None
    case Some(t) => Some(p.page < t)
  }

  /** PageList.HasPreviousPage: for a positive page size, exactly when the
      page starts at a positive offset. */
  predicate HasPreviousPage<T>(p: PageList<T>)
    ensures p.pageSize > 0 ==> (HasPreviousPage(p) <==> (p.page - 1) * p.pageSize > 0)
  {
    if p.pageSize > 0 then
      MulSign(p.page - 1, p.pageSize);
      p.page > 1
    else p.page > 1
  }

  /** Enumerable.Skip */
  function Skip<T>(s: seq<T>, n: int): (r: seq<T>)
    ensures n <= 0 ==> r == s
    ensures 0 <= n <= |s| ==> r == s[n..]
    ensures n >= |s| ==> r == []
  {
    if n <= 0 then s else if n >= |s| then [] else s[n..]
  }

  /** Enumerable.Take */
  function Take<T>(s: seq<T>, n: int): (r: seq<T>)
    ensures n <= 0 ==> r == []
    ensures 0 <= n <= |s| ==> r == s[..n]
    ensures n >= |s| ==> r == s
  {
    if n <= 0 then [] else if n >= |s| then s else s[..n]
  }

  function Min(a: int, b: int): int { if a <= b then a else b }

  /** Skip(off).Take(size), for a non-negative offset and size, is the slice
      of `s` from `off` of length `size`, cut off at the end of `s`. */
  lemma SkipTakeIsSlice<T>(s: seq<T>, off: int, size: int)
    requires off >= 0 && size >= 0
    ensures Take(Skip(s, off), size) == s[Min(off, |s|)..Min(off + size, |s|)]
  {
  }

  /** ToPageListAsync with the offset (page - 1) * pageSize computed exactly. */
  function ToPageList<T>(query: seq<T>, page: int, pageSize: int): (r: PageList<T>)
    ensures r.totalCount == |query|
    ensures r.page == page && r.pageSize == pageSize
    ensures |r.items| <= if pageSize > 0 then pageSize else 0
    ensures page >= 1 && pageSize >= 0 ==>
              var off := (page - 1) * pageSize;
              r.items == query[Min(off, |query|)..Min(off + pageSize, |query|)]
  {
    var off := (page - 1) * pageSize;
    PageSlice(query, page, pageSize);
    PageList(Take(Skip(query, off), pageSize), page, pageSize, |query|)
  }

  lemma MulNonNegative(a: int, b: int)
    requires a >= 0 && b >= 0
    ensures a * b >= 0
  {
  }

  lemma PageSlice<T>(query: seq<T>, page: int, pageSize: int)
    ensures page >= 1 && pageSize >= 0 ==>
              var off := (page - 1) * pageSize;
              off >= 0 &&
              Take(Skip(query, off), pageSize) == query[Min(off, |query|)..Min(off + pageSize, |query|)]
  {
    if page >= 1 && pageSize >= 0 {
      MulNonNegative(page - 1, pageSize);
      SkipTakeIsSlice(query, (page - 1) * pageSize, pageSize);
    }
  }

  /** ToPageListAsync as written: (page - 1) * pageSize in unchecked int
      arithmetic. */
  function ToPageListAsWritten<T>(query: seq<T>, page: Int32, pageSize: Int32): (r: PageList<T>)
    ensures r.totalCount == |query|
    ensures r.page == page && r.pageSize == pageSize
    ensures |r.items| <= if pageSize > 0 then pageSize else 0
  {
    var off := Wrap32(Wrap32(page - 1) * pageSize);
    PageList(Take(Skip(query, off), pageSize), page, pageSize, |query|)
  }

  /** While the offset fits in an int, the two agree. */
  lemma AsWrittenAgreesWhenOffsetFits<T>(query: seq<T>, page: Int32, pageSize: Int32)
    requires page >= 1
    requires (page - 1) * pageSize <= MaxInt32
    requires (page - 1) * pageSize >= MinInt32
    ensures ToPageListAsWritten(query, page, pageSize) == ToPageList(query, page, pageSize)
  {
  }

  /** Page 21474838 of size 100 starts at offset 2147483700, past the largest
      int: the wrapped offset is negative, Enumerable.Skip skips nothing, and
      the page far beyond the end of a one-element query returns that element
      instead of nothing.  (A SQL provider that rejects a negative OFFSET fails
      the query instead.) */
  lemma OffsetOverflowReturnsFirstPage()
    ensures ToPageListAsWritten([7], 21474838, 100).items == [7]
    ensures ToPageList([7], 21474838, 100).items == []
  {
    assert Wrap32(21474837 * 100) == -2147483596;
  }

  /** A page that starts at or beyond the end of the query is empty, with the
      total count still that of the whole query. */
  lemma PastTheEndIsEmpty<T>(query: seq<T>, page: int, pageSize: int)
    requires page >= 1 && pageSize >= 0
    requires (page - 1) * pageSize >= |query|
    ensures ToPageList(query, page, pageSize).items == []
    ensures ToPageList(query, page, pageSize).totalCount == |query|
  {
  }

  /** For a positive page size, there is a next page exactly when items remain
      after this one, and a previous page exactly when this one does not start
      at the beginning. */
  lemma PageFlagsMeanItemsElsewhere<T>(query: seq<T>, page: int, pageSize: int)
    requires page >= 1 && pageSize >= 1
    ensures HasNextPage(ToPageList(query, page, pageSize)) == Some(page * pageSize < |query|)
    ensures HasPreviousPage(ToPageList(query, page, pageSize)) <==> (page - 1) * pageSize > 0
  {
    var t := TotalPages(ToPageList(query, page, pageSize)).value;
    if page < t {
      MulMonotone(page, t - 1, pageSize);
    } else {
      MulMonotone(t, page, pageSize);
    }
    if page > 1 {
      MulSign(page - 1, pageSize);
    }
  }

  lemma MulMonotone(a: int, b: int, c: int)
    requires a <= b && c >= 0
    ensures a * c <= b * c
  {
    MulNonNegative(b - a, c);
  }

  /** The items of pages 1..n, concatenated. */
  function PagesUpTo<T>(query: seq<T>, pageSize: int, n: nat): seq<T> {
    if n == 0 then [] else PagesUpTo(query, pageSize, n - 1) + ToPageList(query, n, pageSize).items
  }

  lemma {:induction false} PagesUpToIsPrefix<T>(query: seq<T>, pageSize: int, n: nat)
    requires pageSize >= 1
    ensures PagesUpTo(query, pageSize, n) == query[..Min(n * pageSize, |query|)]
  {
    if n > 0 {
      PagesUpToIsPrefix(query, pageSize, n - 1);
      PageExtendsPrefix(query, pageSize, n);
    }
  }

  /** Page n continues the prefix that pages 1..n - 1 cover. */
  lemma PageExtendsPrefix<T>(query: seq<T>, pageSize: int, n: int)
    requires n >= 1 && pageSize >= 1
    ensures query[..Min((n - 1) * pageSize, |query|)] + ToPageList(query, n, pageSize).items
            == query[..Min(n * pageSize, |query|)]
  {
    NextOffset(n, pageSize);
    var a := Min((n - 1) * pageSize, |query|);
    var b := Min(n * pageSize, |query|);
    assert query[..a] + query[a..b] == query[..b];
  }

  /** Page n + 1 starts where page n ends. */
  lemma NextOffset(n: int, pageSize: int)
    requires n >= 1 && pageSize >= 1
    ensures 0 <= (n - 1) * pageSize && (n - 1) * pageSize + pageSize == n * pageSize
  {
    MulNonNegative(n - 1, pageSize);
  }

  /** Reading pages 1 to TotalPages one after the other yields the whole query,
      each element once and in order. */
  lemma PagesConcatenateToQuery<T>(query: seq<T>, pageSize: int)
    requires pageSize >= 1
    ensures var t := TotalPages(ToPageList(query, 1, pageSize)).value;
            t >= 0 && PagesUpTo(query, pageSize, t) == query
  {
    var t := TotalPages(ToPageList(query, 1, pageSize)).value;
    if t < 0 {
      MulSign(t, pageSize);
    }
    PagesUpToIsPrefix(query, pageSize, t);
  }
}
