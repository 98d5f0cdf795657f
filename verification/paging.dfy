/** `ListTasks` (section 3.1.4 of the A2A v1.0 specification): offset pages over one caller's tasks. */
module Paging {
  import opened Wrappers
  import Sublists
  import Tasks
  import Text

  const MAX_SAFE_INTEGER: nat := 0x1F_FFFF_FFFF_FFFF

  /** The filters of a listing; the empty context and the unspecified state filter nothing. */
  datatype Query = Query(contextId: string, status: Tasks.TaskState, updatedAfter: Option<int>)

  datatype Page = Page(tasks: seq<Tasks.Task>, nextToken: string, totalSize: nat)

  predicate Matches(r: Tasks.Row, q: Query) {
    && (q.contextId != "" ==> r.task.contextId == q.contextId)
    && (!q.status.Unspecified? ==> r.task.state == q.status)
    && (q.updatedAfter.Some? ==> r.updatedAt >= q.updatedAfter.value)
  }

  /** The matching tasks, in the order the table lists its rows. */
  function Filtered(rows: seq<Tasks.Row>, q: Query): seq<Tasks.Task>
    decreases rows
  {
    if rows == [] then []
    else (if Matches(rows[0], q) then [rows[0].task] else []) + Filtered(rows[1..], q)
  }

  function ClampPageSize(pageSize: Option<int>): (n: nat)
    ensures 1 <= n <= 100
  {
    match pageSize
    case None => 50
    case Some(size) => if size < 1 then 1 else if size > 100 then 100 else size
  }

  /** The digits a string begins with. */
  function DigitPrefix(s: string): (d: string)
    ensures d <= s && Text.AllDigits(d)
    decreases s
  {
    if s == "" || !Text.IsDigit(s[0]) then "" else [s[0]] + DigitPrefix(s[1..])
  }

  /** `parseInt` in base ten, of a number that is only used when it is a safe positive integer. */
  function ParseOffset(token: string): nat {
    var s := Text.TrimStart(token);
    var digits := DigitPrefix(if s != "" && s[0] == '+' then s[1..] else s);
    if digits == "" || Text.Value(digits) > MAX_SAFE_INTEGER then 0 else Text.Value(digits)
  }

  function Min(a: nat, b: nat): nat {
    if a < b then a else b
  }

  /** The table's page: past the end there is nothing. */
  function Slice<T>(all: seq<T>, limit: nat, offset: nat): seq<T> {
    if offset >= |all| then [] else all[offset..Min(offset + limit, |all|)]
  }

  function List(rows: seq<Tasks.Row>, q: Query, pageSize: Option<int>, token: string): Page {
    var all, offset := Filtered(rows, q), ParseOffset(token);
    var tasks := Slice(all, ClampPageSize(pageSize), offset);
    var next := offset + |tasks|;
    Page(tasks, if next < |all| then Text.Decimal(next) else "", |all|)
  }

  // ---- the token --------------------------------------------------------------------------------

  lemma {:induction false} DigitPrefixOfDigits(d: string)
    requires Text.AllDigits(d)
    ensures DigitPrefix(d) == d
    decreases d
  {
    if d != "" {
      DigitPrefixOfDigits(d[1..]);
    }
  }

  /** A token leads back to its offset exactly when the offset is a safe integer. */
  lemma TokenRoundTrip(n: nat)
    ensures ParseOffset(Text.Decimal(n)) == if n <= MAX_SAFE_INTEGER then n else 0
  {
    var d := Text.Decimal(n);
    assert Text.IsDigit(d[0]);
    assert Text.TrimStart(d) == d;
    DigitPrefixOfDigits(d);
    Text.ValueOfDecimal(n);
  }

  lemma DecimalIsNotEmpty(n: nat)
    ensures Text.Decimal(n) != "" && ParseOffset("") == 0
  {}

  // ---- following the tokens ------------------------------------------------------------------------

  /** The sizes asked for, page by page; a caller may change its mind. */
  type Sizes = nat -> Option<int>

  /** Everything the pages from `token` on contain, following each page's token to the last. */
  function Followed(rows: seq<Tasks.Row>, q: Query, sizes: Sizes, k: nat, token: string): seq<Tasks.Task>
    requires |Filtered(rows, q)| <= MAX_SAFE_INTEGER
    decreases |Filtered(rows, q)| - ParseOffset(token)
  {
    var page := List(rows, q, sizes(k), token);
    if page.nextToken == "" then page.tasks
    else
      PageAdvances(rows, q, sizes(k), token);
      page.tasks + Followed(rows, q, sizes, k + 1, page.nextToken)
  }

  /** A page with a token behind it is not empty, and its token is further on. */
  lemma PageAdvances(rows: seq<Tasks.Row>, q: Query, pageSize: Option<int>, token: string)
    requires |Filtered(rows, q)| <= MAX_SAFE_INTEGER
    ensures
      var page, offset := List(rows, q, pageSize, token), ParseOffset(token);
      page.nextToken != "" ==>
        && |page.tasks| == ClampPageSize(pageSize)
        && ParseOffset(page.nextToken) == offset + |page.tasks| < |Filtered(rows, q)|
    ensures List(rows, q, pageSize, token).totalSize == |Filtered(rows, q)|
  {
    hide Filtered, ParseOffset;
    var page, offset := List(rows, q, pageSize, token), ParseOffset(token);
    if page.nextToken != "" {
      TokenRoundTrip(offset + |page.tasks|);
    }
  }

  lemma {:induction false} FollowedFrom(rows: seq<Tasks.Row>, q: Query, sizes: Sizes, k: nat, token: string)
    requires |Filtered(rows, q)| <= MAX_SAFE_INTEGER && ParseOffset(token) <= |Filtered(rows, q)|
    ensures Followed(rows, q, sizes, k, token) == Filtered(rows, q)[ParseOffset(token)..]
    decreases |Filtered(rows, q)| - ParseOffset(token)
  {
    hide Filtered, ParseOffset, ClampPageSize;
    var all, page, offset := Filtered(rows, q), List(rows, q, sizes(k), token), ParseOffset(token);
    DecimalIsNotEmpty(offset + |page.tasks|);
    PageAdvances(rows, q, sizes(k), token);
    if page.nextToken != "" {
      FollowedFrom(rows, q, sizes, k + 1, page.nextToken);
      assert page.tasks + all[offset + |page.tasks|..] == all[offset..];
    }
  }

  /** From the empty token on, whatever sizes are asked for, the pages are the filtered list: no gap, no repeat. */
  lemma PagesAreTheList(rows: seq<Tasks.Row>, q: Query, sizes: Sizes)
    requires |Filtered(rows, q)| <= MAX_SAFE_INTEGER
    ensures Followed(rows, q, sizes, 0, "") == Filtered(rows, q)
  {
    DecimalIsNotEmpty(0);
    FollowedFrom(rows, q, sizes, 0, "");
  }

  // ---- what is listed -----------------------------------------------------------------------------------

  /** In the named context if one is named, in the named state if one is, and touched at or after the instant if one is given. */
  predicate Wanted(r: Tasks.Row, q: Query) {
    && (|q.contextId| == 0 || r.task.contextId == q.contextId)
    && (q.status == Tasks.Unspecified || r.task.state == q.status)
    && (q.updatedAfter.None? || q.updatedAfter.value <= r.updatedAt)
  }

  lemma {:induction false} FilteredOnTheEnd(rows: seq<Tasks.Row>, last: Tasks.Row, q: Query)
    ensures Filtered(rows + [last], q) == Filtered(rows, q) + (if Wanted(last, q) then [last.task] else [])
    decreases rows
  {
    if rows == [] {
      assert rows + [last] == [last] && [last][1..] == [];
    } else {
      assert (rows + [last])[1..] == rows[1..] + [last];
      FilteredOnTheEnd(rows[1..], last, q);
    }
  }

  /** A listing is of exactly the wanted tasks, in the table's order. */
  lemma {:induction false} ListsTheWanted(rows: seq<Tasks.Row>, q: Query)
    ensures Sublists.Selects(Filtered(rows, q), rows, (r: Tasks.Row) => Wanted(r, q), (r: Tasks.Row) => r.task)
    decreases rows
  {
    var p, f := (r: Tasks.Row) => Wanted(r, q), (r: Tasks.Row) => r.task;
    if rows == [] {
      Sublists.SelectsNothing(p, f);
    } else {
      var rest, last := rows[..|rows| - 1], rows[|rows| - 1];
      ListsTheWanted(rest, q);
      Sublists.OneMore(Filtered(rest, q), rest, last, p, f);
      FilteredOnTheEnd(rest, last, q);
      assert rest + [last] == rows;
    }
  }

  function Distance(a: int, b: int): nat {
    if a < b then b - a else a - b
  }

  /** The page size is the one between 1 and 100 that is nearest to what was asked for, and 50 when nothing was. */
  lemma PageSizeIsTheNearest(size: int, other: nat)
    requires 1 <= other <= 100
    ensures 1 <= ClampPageSize(Some(size)) <= 100
    ensures other != ClampPageSize(Some(size)) ==> Distance(ClampPageSize(Some(size)), size) < Distance(other, size)
    ensures ClampPageSize(None) == 50
  {}
}
