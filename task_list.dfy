/** The worker's task list: the query sent for a page of tasks, the filter
    inputs that send the view back to page 1, and the Previous/Next pager. */
module TaskList {
  import opened Wrappers

  const PageSize: nat := 12

  /** The decimal text of a natural number, as `String(n)` writes it. */
  function Decimal(n: nat): (r: string)
    ensures r != []
    ensures forall i :: 0 <= i < |r| ==> '0' <= r[i] <= '9'
    ensures |r| == 1 <==> n < 10
  {
    if n < 10 then [Digit(n)] else Decimal(n / 10) + [Digit(n % 10)]
  }

  function Digit(d: nat): (c: char)
    requires d < 10
    ensures '0' <= c <= '9' && c as int - '0' as int == d
  {
    ('0' as int + d) as char
  }

  /** The number a string of decimal digits denotes. */
  function DigitsValue(s: string): nat
    requires forall i :: 0 <= i < |s| ==> '0' <= s[i] <= '9'
  {
    if s == [] then 0
    else DigitsValue(s[..|s| - 1]) * 10 + (s[|s| - 1] as int - '0' as int)
  }

  /** Reading back the decimal text gives the page number that was written. */
  lemma {:induction false} DecimalRoundTrip(n: nat)
    ensures DigitsValue(Decimal(n)) == n
  {
    if n >= 10 {
      var s := Decimal(n);
      assert s[..|s| - 1] == Decimal(n / 10);
      DecimalRoundTrip(n / 10);
    }
  }

  /** The names the task request may carry; `Name` is the text written in
      the query string. */
  datatype Key = Page | Limit | Search | RewardMin | RewardMax

  function Name(k: Key): string {
    match k
    case Page => "page"
    case Limit => "limit"
    case Search => "search"
    case RewardMin => "rewardMin"
    case RewardMax => "rewardMax"
  }

  lemma NamesDistinct(k: Key, k': Key)
    ensures Name(k) == Name(k') <==> k == k'
  {
    if k != k' {
      assert Name(k)[0] != Name(k')[0] || Name(k)[|Name(k)| - 1] != Name(k')[|Name(k')| - 1];
    }
  }

  /** The `limit` text is the page size written in decimal. */
  lemma LimitIsPageSize()
    ensures Decimal(PageSize) == "12"
  {
  }

  /** One `key=value` entry of the query string, in insertion order. */
  datatype Param = Param(key: Key, value: string)

  /** `params.get(k)`: the value of the first entry with key `k`. */
  function Lookup(ps: seq<Param>, k: Key): (r: Option<string>)
    ensures r.None? <==> forall i :: 0 <= i < |ps| ==> ps[i].key != k
  {
    if ps == [] then None
    else if ps[0].key == k then Some(ps[0].value)
    else
      Lookup(ps[1..], k)
  }

  /** No key occurs twice. */
  predicate DistinctKeys(ps: seq<Param>) {
    forall i, j :: 0 <= i < j < |ps| ==> ps[i].key != ps[j].key
  }

  /** Appending an entry leaves earlier keys as they were and makes a new
      key visible. */
  lemma {:induction false} LookupAppend(ps: seq<Param>, p: Param, k: Key)
    ensures Lookup(ps + [p], k) ==
              if Lookup(ps, k).Some? then Lookup(ps, k)
              else if p.key == k then Some(p.value) else None
  {
    if ps != [] {
      assert (ps + [p])[1..] == ps[1..] + [p];
      LookupAppend(ps[1..], p, k);
    }
  }

  /** `params.set(k, v)` for a key not yet present: the entry goes at the
      end, and every other key keeps its value. */
  method Set(ps: seq<Param>, k: Key, v: string) returns (r: seq<Param>)
    requires Lookup(ps, k).None?
    requires DistinctKeys(ps)
    ensures DistinctKeys(r)
    ensures Lookup(r, k) == Some(v)
    ensures forall k' :: k' != k ==> Lookup(r, k') == Lookup(ps, k')
  {
    r := ps + [Param(k, v)];
    forall k' ensures Lookup(r, k') ==
                        if Lookup(ps, k').Some? then Lookup(ps, k')
                        else if k == k' then Some(v) else None
    {
      LookupAppend(ps, Param(k, v), k');
    }
  }

  /** A value entered in a text or number box is added only when it is not
      the empty string. */
  function Optional(v: string): Option<string> {
    if v == "" then None else Some(v)
  }

  /** `if (v) params.set(k, v)`: the key is added exactly when the box holds
      something. */
  method SetIfGiven(ps: seq<Param>, k: Key, v: string) returns (r: seq<Param>)
    requires Lookup(ps, k).None?
    requires DistinctKeys(ps)
    ensures DistinctKeys(r)
    ensures Lookup(r, k) == Optional(v)
    ensures forall k' :: k' != k ==> Lookup(r, k') == Lookup(ps, k')
  {
    r := ps;
    if v != "" {
      r := Set(ps, k, v);
    }
  }

  /** `new URLSearchParams({ page, limit: 12 })`: exactly the page and the
      limit, in that order. */
  method NewParams(page: nat) returns (ps: seq<Param>)
    ensures Lookup(ps, Page) == Some(Decimal(page))
    ensures Lookup(ps, Limit) == Some("12")
    ensures forall k :: k != Page && k != Limit ==> Lookup(ps, k).None?
    ensures DistinctKeys(ps)
  {
    ps := [Param(Page, Decimal(page)), Param(Limit, "12")];
    assert Lookup(ps[1..], Limit) == Some("12");
  }

  /** The query of the task request: `page` and `limit` always; `search`,
      `rewardMin` and `rewardMax` only when the box holds something. */
  method BuildQuery(page: nat, search: string, rewardMin: string, rewardMax: string)
    returns (ps: seq<Param>)
    ensures Lookup(ps, Page) == Some(Decimal(page))
    ensures Lookup(ps, Limit) == Some("12")
    ensures Lookup(ps, Search) == Optional(search)
    ensures Lookup(ps, RewardMin) == Optional(rewardMin)
    ensures Lookup(ps, RewardMax) == Optional(rewardMax)
    ensures DistinctKeys(ps)
  {
    ps := NewParams(page);
    ps := SetIfGiven(ps, Search, search);
    ps := SetIfGiven(ps, RewardMin, rewardMin);
    ps := SetIfGiven(ps, RewardMax, rewardMax);
  }

  /** The state of the page that decides what is fetched and how the pager
      looks; `total` is the count the server reported. */
  datatype View = View(page: int, search: string, rewardMin: string, rewardMax: string, total: int)

  const Initial: View := View(1, "", "", "", 0)

  /** `Math.max(1, p - 1)` */
  function PreviousPage(p: int): (r: int)
    ensures r >= 1
    ensures p > 1 ==> r == p - 1
    ensures p <= 1 ==> r == 1
  {
    if p - 1 > 1 then p - 1 else 1
  }

  function NextPage(p: int): (r: int)
    ensures r == p + 1
  {
    p + 1
  }

  predicate PreviousDisabled(v: View) { v.page <= 1 }

  predicate NextDisabled(v: View) { v.page * PageSize >= v.total }

  /** The pager is rendered only when there are more tasks than fit on a page. */
  predicate ShowPager(v: View) { v.total > PageSize }

  /** What the user can do on the page. */
  datatype Action =
    | EditSearch(text: string)
    | EditRewardMin(text: string)
    | EditRewardMax(text: string)
    | ClickPrevious
    | ClickNext

  /** The view after an action; a click on a button that is hidden or
      disabled changes nothing. */
  function Apply(v: View, a: Action): (r: View)
    ensures a.EditSearch? ==> r == v.(search := a.text, page := 1)
    ensures a.EditRewardMin? ==> r == v.(rewardMin := a.text, page := 1)
    ensures a.EditRewardMax? ==> r == v.(rewardMax := a.text, page := 1)
    ensures a.ClickPrevious? ==>
      r == if ShowPager(v) && !PreviousDisabled(v) then v.(page := v.page - 1) else v
    ensures a.ClickNext? ==>
      r == if ShowPager(v) && !NextDisabled(v) then v.(page := v.page + 1) else v
    ensures r.total == v.total
  {
    match a
    case EditSearch(t) => v.(search := t, page := 1)
    case EditRewardMin(t) => v.(rewardMin := t, page := 1)
    case EditRewardMax(t) => v.(rewardMax := t, page := 1)
    case ClickPrevious =>
      if ShowPager(v) && !PreviousDisabled(v) then v.(page := PreviousPage(v.page)) else v
    case ClickNext =>
      if ShowPager(v) && !NextDisabled(v) then v.(page := NextPage(v.page)) else v
  }

  /** The page is at least 1, and every page after the first starts at a
      task the server counted. */
  predicate PageInRange(v: View) {
    v.page >= 1 && (v.page == 1 || (v.page - 1) * PageSize < v.total)
  }

  /** Every action keeps the page in range while the count stays put. */
  lemma ApplyKeepsPageInRange(v: View, a: Action)
    requires PageInRange(v)
    ensures PageInRange(Apply(v, a))
  {
  }

  /** Any run of actions from the initial view (with a fixed count) keeps
      the page in range. */
  function Run(v: View, actions: seq<Action>): (r: View)
    ensures r.total == v.total
    decreases |actions|
  {
    if actions == [] then v else Run(Apply(v, actions[0]), actions[1..])
  }

  lemma {:induction false} RunKeepsPageInRange(v: View, actions: seq<Action>)
    requires PageInRange(v)
    ensures PageInRange(Run(v, actions))
    decreases |actions|
  {
    if actions != [] {
      ApplyKeepsPageInRange(v, actions[0]);
      RunKeepsPageInRange(Apply(v, actions[0]), actions[1..]);
    }
  }

  lemma InitialInRange(total: int)
    ensures PageInRange(Initial.(total := total))
  {
  }

  /** Editing any filter box returns the view to page 1 whatever the page was. */
  lemma FilterEditResetsPage(v: View, t: string)
    ensures Apply(v, EditSearch(t)).page == 1
    ensures Apply(v, EditRewardMin(t)).page == 1
    ensures Apply(v, EditRewardMax(t)).page == 1
  {
  }
}
