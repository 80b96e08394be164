/** The cursor chain of one usage slice, as a deterministic upstream defines it (`upstream_adapter.py`). */
module Pagination {
  import opened Prelude

  type Cursor = string

  /** What `_page` looks at in a response: `data`, `next_page` and `has_more`. */
  datatype CursorField = Absent | Text(c: string) | NotText
  datatype Payload<R> = Payload(data: Option<seq<R>>, nextPage: CursorField, hasMore: bool)

  /** A response after `_page` and the bucket parser: a contract error, or records and the next cursor. */
  datatype Page<R> = Invalid(code: string) | Page(records: seq<R>, next: Option<Cursor>)

  /** `_page`. */
  function ReadPage<R>(p: Payload<R>): Page<R> {
    if p.data.None? then Invalid("usage_response_invalid")
    else if p.nextPage.NotText? || (p.nextPage.Text? && p.nextPage.c == "") then Invalid("usage_cursor_invalid")
    else if p.hasMore && p.nextPage.Absent? then Invalid("usage_cursor_missing")
    else Page(p.data.value, if p.nextPage.Absent? then None else Some(p.nextPage.c))
  }

  /** The cursor of request number `k`, if the chain gets that far. */
  function CursorAt<R>(client: Option<Cursor> -> Page<R>, k: nat): Option<Option<Cursor>> {
    if k == 0 then Some(None)
    else
      var before := CursorAt(client, k - 1);
      if before.None? || client(before.value).Invalid? || client(before.value).next.None? then None
      else Some(client(before.value).next)
  }

  /** The records of the first `n` pages in chain order. */
  function Records<R>(client: Option<Cursor> -> Page<R>, n: nat): seq<R> {
    if n == 0 then []
    else Records(client, n - 1) +
         (var c := CursorAt(client, n - 1); if c.Some? && client(c.value).Page? then client(c.value).records else [])
  }

  /** The chain has exactly `n` pages, all of them valid. */
  ghost predicate EndsAfter<R>(client: Option<Cursor> -> Page<R>, n: nat) {
    n > 0 && CursorAt(client, n - 1).Some? &&
    var last := client(CursorAt(client, n - 1).value); last.Page? && last.next.None?
  }

  /** Some page of the chain breaks the response contract with this code. */
  ghost predicate BreaksWith<R>(client: Option<Cursor> -> Page<R>, n: nat, code: string) {
    CursorAt(client, n).Some? && client(CursorAt(client, n).value) == Invalid(code)
  }

  ghost predicate NeverEnds<R>(client: Option<Cursor> -> Page<R>) {
    forall k: nat :: CursorAt(client, k).Some?
  }

  lemma {:induction false} ChainIsDownwardClosed<R>(client: Option<Cursor> -> Page<R>, i: nat, k: nat)
    requires i <= k && CursorAt(client, k).Some?
    ensures CursorAt(client, i).Some?
    decreases k
  {
    if i < k { ChainIsDownwardClosed(client, i, k - 1); }
  }

  /** Equal cursors have equal futures. */
  lemma {:induction false} SameFuture<R>(client: Option<Cursor> -> Page<R>, i: nat, j: nat, m: nat)
    requires CursorAt(client, i) == CursorAt(client, j)
    ensures CursorAt(client, i + m) == CursorAt(client, j + m)
  {
    if m > 0 { SameFuture(client, i, j, m - 1); }
  }

  /** Once a cursor comes back, the chain goes on forever. */
  lemma {:induction false} RepeatMeansNeverEnds<R>(client: Option<Cursor> -> Page<R>, i: nat, j: nat, k: nat)
    requires i < j && CursorAt(client, i) == CursorAt(client, j) && CursorAt(client, j).Some?
    ensures CursorAt(client, k).Some?
    decreases k
  {
    if k <= j {
      ChainIsDownwardClosed(client, k, j);
    } else {
      RepeatMeansNeverEnds(client, i, j, k - (j - i));
      SameFuture(client, i, j, k - j);
    }
  }

  /** A chain ends in one way only: after one page count, with one error, or never. */
  lemma EndIsUnique<R>(client: Option<Cursor> -> Page<R>, n: nat, m: nat, code: string)
    requires EndsAfter(client, n)
    ensures !NeverEnds(client) && !BreaksWith(client, m, code) && (EndsAfter(client, m) ==> m == n)
  {
    assert CursorAt(client, n).None?;
    if m > n && CursorAt(client, m - 1).Some? { ChainIsDownwardClosed(client, n, m - 1); }
    if EndsAfter(client, m) && m < n { ChainIsDownwardClosed(client, m, n - 1); }
    if BreaksWith(client, m, code) {
      if m >= n { ChainIsDownwardClosed(client, n, m); }
      if m + 1 < n { ChainIsDownwardClosed(client, m + 1, n - 1); }
    }
  }
}
