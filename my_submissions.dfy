/** The worker's own submissions: a fixed page size, the colour of a status
    badge, and a pager clamped to the page count the server reports. */
module MySubmissions {
  const PageSize: nat := 10

  /** The request for one page: the page number and the fixed size. */
  datatype PageRequest = PageRequest(page: int, limit: int)

  function RequestFor(page: int): (r: PageRequest)
    ensures r.page == page && r.limit == 10
  {
    PageRequest(page, PageSize)
  }

  datatype Badge = Green | Red | Amber

  /** `statusColor`: approved is green, rejected is red, anything else
      (pending, or a status this page does not know) is amber. */
  function StatusColor(status: string): (b: Badge)
    ensures b == Green <==> status == "approved"
    ensures b == Red <==> status == "rejected"
    ensures b == Amber <==> status != "approved" && status != "rejected"
  {
    if status == "approved" then Green
    else if status == "rejected" then Red
    else Amber
  }

  /** The page shown and the page count of the last answer (1 before any
      answer arrives). */
  datatype View = View(page: int, totalPages: int)

  const Initial: View := View(1, 1)

  /** `Math.max(1, p - 1)` */
  function PreviousPage(p: int): (r: int)
    ensures r >= 1 && r <= if p > 1 then p else 1
    ensures p > 1 ==> r == p - 1
  {
    if 1 > p - 1 then 1 else p - 1
  }

  /** `Math.min(totalPages, p + 1)` */
  function NextPage(p: int, totalPages: int): (r: int)
    ensures r <= totalPages && r <= p + 1
    ensures r == p + 1 || r == totalPages
  {
    if totalPages < p + 1 then totalPages else p + 1
  }

  predicate PreviousDisabled(v: View) { v.page <= 1 }

  predicate NextDisabled(v: View) { v.page >= v.totalPages }

  /** The pager is rendered only when there is more than one page. */
  predicate ShowPager(v: View) { v.totalPages > 1 }

  datatype Action = ClickPrevious | ClickNext | Loaded(totalPages: int)

  /** The view after an action: a click on a hidden or disabled button
      changes nothing; an answer from the server replaces the page count. */
  function Apply(v: View, a: Action): (r: View)
    ensures a.Loaded? ==> r == v.(totalPages := a.totalPages)
    ensures a.ClickPrevious? && ShowPager(v) && !PreviousDisabled(v) ==> r.page == v.page - 1
    ensures a.ClickNext? && ShowPager(v) && !NextDisabled(v) ==> r.page == v.page + 1
    ensures !a.Loaded? ==> r.totalPages == v.totalPages
    ensures a.ClickPrevious? && !(ShowPager(v) && !PreviousDisabled(v)) ==> r == v
    ensures a.ClickNext? && !(ShowPager(v) && !NextDisabled(v)) ==> r == v
  {
    match a
    case Loaded(n) => v.(totalPages := n)
    case ClickPrevious =>
      if ShowPager(v) && !PreviousDisabled(v) then v.(page := PreviousPage(v.page)) else v
    case ClickNext =>
      if ShowPager(v) && !NextDisabled(v) then v.(page := NextPage(v.page, v.totalPages)) else v
  }

  /** A page the pager can show: at least 1 and, once there are pages, not
      past the last one. */
  predicate InRange(v: View) {
    1 <= v.page && (v.totalPages >= 1 ==> v.page <= v.totalPages)
  }

  /** Clicks keep the page in range: Previous never goes below 1 and Next
      never goes past the page count. */
  lemma ClicksKeepRange(v: View, a: Action)
    requires InRange(v) && !a.Loaded?
    ensures InRange(Apply(v, a))
  {
  }

  /** The page never drops below 1, whatever the server answers. */
  lemma PageStaysPositive(v: View, a: Action)
    requires v.page >= 1
    ensures Apply(v, a).page >= 1
  {
  }

  /** Next on an enabled button moves forward and stays within the count;
      the clamp only matters when the count is below the page. */
  lemma NextClampInactiveWhenEnabled(p: int, totalPages: int)
    requires p < totalPages
    ensures NextPage(p, totalPages) == p + 1
  {
  }
}
