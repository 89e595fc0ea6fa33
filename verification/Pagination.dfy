/** The gate list of internal/core/store/gate_postgres.go: pages cut out of an ordered snapshot
    by fetching one row more than a page holds. */
module Pagination {
  import opened Arithmetic

  const DEFAULT_LIMIT := 20

  datatype Result<T> = Page(rows: seq<T>, next: bool) | QueryFailed

  function Limit(size: int): (limit: nat)
    ensures limit > 0
  {
    if size <= 0 then DEFAULT_LIMIT else size
  }

  /** LIMIT and OFFSET over the ordered snapshot. */
  function Window<T>(rows: seq<T>, limit: nat, offset: nat): seq<T> {
    if |rows| <= offset then []
    else if |rows| <= offset + limit then rows[offset..]
    else rows[offset..offset + limit]
  }

  /** One page: the rows at its offset, and whether rows remain after them. The query fails
      on a negative offset, or when the store does (`down`). */
  function Listed<T>(rows: seq<T>, page: int, size: int, down: bool): Result<T> {
    if down || page < 0 then QueryFailed
    else Page(Window(rows, Limit(size), page * Limit(size)), (page + 1) * Limit(size) < |rows|)
  }

  method List<T>(rows: seq<T>, page: int, size: int, down: bool) returns (r: Result<T>)
    ensures r == Listed(rows, page, size, down)
  {
    var limit := size;
    if limit <= 0 {
      limit := DEFAULT_LIMIT;
    }
    var offset := page * limit;
    OffsetSign(page, limit);
    if down || offset < 0 {
      return QueryFailed;
    }
    var list := Window(rows, limit + 1, offset);
    var next := |list| > limit;
    if next {
      list := list[..limit];
    }
    assert (page + 1) * limit == offset + limit;
    return Page(list, next);
  }

  lemma OffsetSign(page: int, limit: nat)
    requires limit > 0
    ensures page * limit < 0 <==> page < 0
  {
    if page < 0 {
      assert page * limit <= -1 * limit;
    } else {
      assert page * limit >= 0;
    }
  }

  /** The pages from `page` on, by following `next`. */
  function Walk<T>(rows: seq<T>, size: int, page: nat): seq<seq<T>>
    decreases |rows| - page * Limit(size)
  {
    var p := Listed(rows, page, size, false);
    assert (page + 1) * Limit(size) == page * Limit(size) + Limit(size);
    [p.rows] + if p.next then Walk(rows, size, page + 1) else []
  }

  function Concat<T>(pages: seq<seq<T>>): seq<T> {
    if pages == [] then [] else pages[0] + Concat(pages[1..])
  }

  function Ceil(a: nat, b: nat): nat
    requires b > 0
  {
    (a + b - 1) / b
  }

  lemma {:induction false} WalkRows<T>(rows: seq<T>, size: int, page: nat)
    requires page * Limit(size) <= |rows|
    ensures Concat(Walk(rows, size, page)) == rows[page * Limit(size)..]
    decreases |rows| - page * Limit(size)
  {
    var limit := Limit(size);
    assert (page + 1) * limit == page * limit + limit;
    var here := Window(rows, limit, page * limit);
    if (page + 1) * limit < |rows| {
      WalkRows(rows, size, page + 1);
      assert Walk(rows, size, page)[1..] == Walk(rows, size, page + 1);
      assert rows[page * limit..] == here + rows[(page + 1) * limit..];
    } else {
      assert Concat([here]) == here + Concat([here][1..]) == here;
    }
  }

  lemma {:induction false} WalkCount<T>(rows: seq<T>, size: int, page: nat)
    requires page == 0 || page * Limit(size) < |rows|
    ensures page + |Walk(rows, size, page)| == if rows == [] then 1 else Ceil(|rows|, Limit(size))
    decreases |rows| - page * Limit(size)
  {
    var limit := Limit(size);
    assert (page + 1) * limit == page * limit + limit;
    if (page + 1) * limit < |rows| {
      WalkCount(rows, size, page + 1);
    } else if rows != [] {
      CeilUnique(|rows|, limit, page);
    }
  }

  lemma CeilUnique(a: nat, b: nat, page: nat)
    requires b > 0 && page * b < a <= (page + 1) * b
    ensures Ceil(a, b) == page + 1
  {
    assert (page + 1) * b == page * b + b;
    DivUnique(a + b - 1, b, page + 1, a - page * b - 1);
  }

  /** Following the pages from 0 returns every row exactly once, in order, in
      max(1, ceil(rows / limit)) pages. */
  lemma Partition<T>(rows: seq<T>, size: int)
    ensures Concat(Walk(rows, size, 0)) == rows
    ensures |Walk(rows, size, 0)| == if rows == [] then 1 else Ceil(|rows|, Limit(size))
  {
    WalkRows(rows, size, 0);
    WalkCount(rows, size, 0);
  }

  /** What a page holds, row by row: as many rows as asked for, or 20 where the size is not
      positive, from that many times the page number on; fewer only at the end, and `next` exactly
      when rows remain. A negative page fails. */
  lemma {:induction false} PageRows<T(!new)>(rows: seq<T>, page: int, size: int)
    ensures page < 0 <==> Listed(rows, page, size, false).QueryFailed?
    ensures page >= 0 ==>
              var limit, r := if size <= 0 then 20 else size, Listed(rows, page, size, false);
              && |r.rows| == (if |rows| <= page * limit then 0
                              else if |rows| - page * limit <= limit then |rows| - page * limit
                              else limit)
              && (forall k :: 0 <= k < |r.rows| ==>
                    0 <= page * limit + k < |rows| && r.rows[k] == rows[page * limit + k])
              && (r.next <==> page * limit + limit < |rows|)
  {
    var limit := if size <= 0 then 20 else size;
    OffsetSign(page, limit);
    assert (page + 1) * limit == page * limit + limit;
  }
}
