/**
 * The admin dashboard's table of recent notifications: the rows received
 * from GetRecent are shown ten at a time, and the page buttons move
 * between pages. The status column is coloured by a case-insensitive
 * switch on the status text.
 */
module DashboardComponent {
  import opened AnalyticsController

  /** pageSize = 10. */
  const PageSize: nat := 10

  const Green := "text-green-600"
  const Red := "text-red-600"
  const Yellow := "text-yellow-600"
  const Gray := "text-gray-600"

  /** Math.ceil(length / pageSize) for a non-negative length. */
  function TotalPages(length: nat): (pages: nat)
    ensures (pages - 1) * PageSize < length <= pages * PageSize || (length == 0 && pages == 0)
  {
    (length + PageSize - 1) / PageSize
  }

  function Max(a: int, b: int): int {
    if a >= b then a else b
  }

  function Clamp(i: int, length: nat): (r: nat)
    ensures r <= length
  {
    if i < 0 then Max(length + i, 0) else if i <= length then i else length
  }

  /** Array.prototype.slice(start, end): negative bounds count from the end, bounds past the end are clipped. */
  function Slice<T>(items: seq<T>, start: int, end: int): (r: seq<T>)
    ensures |r| <= |items|
    ensures start <= end ==> |r| <= end - start
    ensures 0 <= start ==> forall i | 0 <= i < |r| :: start + i < |items| && r[i] == items[start + i]
    ensures 0 <= start <= end <= |items| ==> r == items[start..end]
    ensures 0 <= start <= end ==>
              r == items[(if start <= |items| then start else |items|)..(if end <= |items| then end else |items|)]
  {
    var from := Clamp(start, |items|);
    var to := Clamp(end, |items|);
    if from < to then items[from..to] else []
  }

  /** The rows shown on a page: slice((page - 1) * pageSize, page * pageSize). */
  function Page<T>(items: seq<T>, page: int): (r: seq<T>)
    ensures |r| <= PageSize
    ensures page >= 1 ==> forall i | 0 <= i < |r| ::
              (page - 1) * PageSize + i < |items| && r[i] == items[(page - 1) * PageSize + i]
  {
    Slice(items, (page - 1) * PageSize, (page - 1) * PageSize + PageSize)
  }

  /**
   * A page holds at most pageSize rows, and its i-th row is the row at
   * (page - 1) * pageSize + i of the list; it is full unless it is the
   * last page.
   */
  lemma PageIsWindow<T>(items: seq<T>, page: int)
    requires page >= 1
    ensures |Page(items, page)| <= PageSize
    ensures forall i | 0 <= i < |Page(items, page)| ::
              (page - 1) * PageSize + i < |items| && Page(items, page)[i] == items[(page - 1) * PageSize + i]
    ensures page * PageSize <= |items| ==> |Page(items, page)| == PageSize
    ensures (page - 1) * PageSize < |items| ==> Page(items, page) != []
  {
  }

  /** A page past the last one is empty; every page from 1 to totalPages has rows. */
  lemma PageEmptyIffBeyondLast<T>(items: seq<T>, page: int)
    requires page >= 1
    ensures Page(items, page) == [] <==> page > TotalPages(|items|)
  {
    PageIsWindow(items, page);
  }

  /** Pages 1 to n, one after the other. */
  function FirstPages<T>(items: seq<T>, n: nat): seq<T> {
    if n == 0 then [] else FirstPages(items, n - 1) + Page(items, n)
  }

  lemma {:induction false} FirstPagesArePrefix<T>(items: seq<T>, n: nat)
    ensures FirstPages(items, n) == items[..if n * PageSize <= |items| then n * PageSize else |items|]
  {
    if n > 0 {
      FirstPagesArePrefix(items, n - 1);
      var lo := if (n - 1) * PageSize <= |items| then (n - 1) * PageSize else |items|;
      var hi := if n * PageSize <= |items| then n * PageSize else |items|;
      assert Page(items, n) == items[lo..hi];
      assert items[..lo] + items[lo..hi] == items[..hi];
    }
  }

  /** Paging through pages 1 to totalPages shows every row once, in order. */
  lemma PagesCoverList<T>(items: seq<T>)
    ensures FirstPages(items, TotalPages(|items|)) == items
  {
    FirstPagesArePrefix(items, TotalPages(|items|));
  }

  /** toLowerCase, for the ASCII letters. */
  function ToLower(s: string): (r: string)
    ensures |r| == |s|
    ensures forall i | 0 <= i < |s| :: r[i] == LowerChar(s[i])
  {
    if s == [] then [] else [LowerChar(s[0])] + ToLower(s[1..])
  }

  function LowerChar(c: char): char {
    if 'A' <= c <= 'Z' then (c as int + 32) as char else c
  }

  /** Colour class for a status: switch on status.toLowerCase(). */
  function GetStatusColor(status: string): (color: string)
    ensures color == Green <==> ToLower(status) == "sent"
    ensures color == Red <==> ToLower(status) == "failed"
    ensures color == Yellow <==> ToLower(status) == "pending"
    ensures color == Gray <==> ToLower(status) !in {"sent", "failed", "pending"}
  {
    match ToLower(status)
    case "sent" => Green
    case "failed" => Red
    case "pending" => Yellow
    case _ => Gray
  }

  lemma LowerIdempotent(s: string)
    ensures ToLower(ToLower(s)) == ToLower(s)
  {
  }

  /** Two spellings that differ only in letter case get the same colour. */
  lemma StatusColorIgnoresCase(a: string, b: string)
    requires ToLower(a) == ToLower(b)
    ensures GetStatusColor(a) == GetStatusColor(b)
  {
  }

  /** The three statuses the server stores, in capitals, get their colours. */
  lemma StoredStatusColors()
    ensures GetStatusColor("SENT") == Green
    ensures GetStatusColor("FAILED") == Red
    ensures GetStatusColor("PENDING") == Yellow
  {
    LowerOf("SENT", "sent");
    LowerOf("FAILED", "failed");
    LowerOf("PENDING", "pending");
  }

  lemma LowerOf(s: string, lower: string)
    requires |s| == |lower| && forall i | 0 <= i < |s| :: LowerChar(s[i]) == lower[i]
    ensures ToLower(s) == lower
  {
  }

  class Dashboard {
    var recentNotifications: seq<RecentRow>
    var paginatedNotifications: seq<RecentRow>
    var currentPage: int
    var totalPages: int

    /**
     * Between events: the page number is at least 1, totalPages matches
     * the list, and the visible rows are the current page of the list.
     */
    ghost predicate Valid()
      reads this
    {
      currentPage >= 1 &&
      totalPages == TotalPages(|recentNotifications|) &&
      paginatedNotifications == Page(recentNotifications, currentPage)
    }

    constructor ()
      ensures recentNotifications == [] && paginatedNotifications == []
      ensures currentPage == 1 && totalPages == 0
      ensures Valid()
    {
      recentNotifications := [];
      paginatedNotifications := [];
      currentPage := 1;
      totalPages := 0;
    }

    method UpdatePaginatedNotifications()
      modifies this
      ensures paginatedNotifications == Page(recentNotifications, currentPage)
      ensures recentNotifications == old(recentNotifications) && currentPage == old(currentPage)
      ensures totalPages == old(totalPages)
    {
      var startIndex := (currentPage - 1) * PageSize;
      var endIndex := startIndex + PageSize;
      paginatedNotifications := Slice(recentNotifications, startIndex, endIndex);
    }

    /** Recomputes totalPages and the visible rows; the page number is kept. */
    method SetupPagination()
      modifies this
      ensures totalPages == TotalPages(|recentNotifications|)
      ensures paginatedNotifications == Page(recentNotifications, currentPage)
      ensures recentNotifications == old(recentNotifications) && currentPage == old(currentPage)
      ensures old(currentPage) >= 1 ==> Valid()
    {
      totalPages := TotalPages(|recentNotifications|);
      UpdatePaginatedNotifications();
    }

    /** The recent-notifications response arrives: store it and paginate. */
    method ReceiveRecent(data: seq<RecentRow>)
      modifies this
      ensures recentNotifications == data && currentPage == old(currentPage)
      ensures totalPages == TotalPages(|data|) && paginatedNotifications == Page(data, currentPage)
      ensures old(Valid()) ==> Valid()
      ensures old(Valid()) && currentPage > TotalPages(|data|) ==> paginatedNotifications == []
    {
      recentNotifications := data;
      SetupPagination();
      if currentPage >= 1 {
        PageEmptyIffBeyondLast(data, currentPage);
      }
    }

    /** Moves to the page only when it is between 1 and totalPages; otherwise nothing changes. */
    method GoToPage(page: int)
      modifies this
      ensures recentNotifications == old(recentNotifications) && totalPages == old(totalPages)
      ensures 1 <= page <= old(totalPages) ==>
                currentPage == page && paginatedNotifications == Page(recentNotifications, page)
      ensures !(1 <= page <= old(totalPages)) ==>
                currentPage == old(currentPage) && paginatedNotifications == old(paginatedNotifications)
      ensures old(Valid()) ==> Valid()
    {
      if page >= 1 && page <= totalPages {
        currentPage := page;
        UpdatePaginatedNotifications();
      }
    }

    method NextPage()
      modifies this
      ensures recentNotifications == old(recentNotifications) && totalPages == old(totalPages)
      ensures 0 <= old(currentPage) < old(totalPages) ==> currentPage == old(currentPage) + 1
      ensures !(0 <= old(currentPage) < old(totalPages)) ==>
                currentPage == old(currentPage) && paginatedNotifications == old(paginatedNotifications)
      ensures old(Valid()) ==> Valid()
    {
      GoToPage(currentPage + 1);
    }

    method PrevPage()
      modifies this
      ensures recentNotifications == old(recentNotifications) && totalPages == old(totalPages)
      ensures 2 <= old(currentPage) <= old(totalPages) + 1 ==> currentPage == old(currentPage) - 1
      ensures !(2 <= old(currentPage) <= old(totalPages) + 1) ==>
                currentPage == old(currentPage) && paginatedNotifications == old(paginatedNotifications)
      ensures old(Valid()) ==> Valid()
    {
      GoToPage(currentPage - 1);
    }
  }
}
