/**
 Fetching everything from a paged Auth0 endpoint. The server is arbitrary: it may leave out
 properties, change its total or send empty pages; what the loop then does is stated exactly.
 */
module Auth0Pagination {
  import opened Options

  /** A response: None stands for a missing property. */
  datatype Response<T> = Response(total: Option<int>, items: Option<seq<T>>)

  /** `_get_pagination_params` */
  datatype Pagination = Pagination(firstPage: int, perPage: nat, includeTotals: bool)

  const GENERAL := Pagination(0, 50, true)
  const GROUP_MEMBERS := Pagination(1, 25, false)

  datatype Request = Unpaged | Page(number: int, perPage: nat, includeTotals: bool)

  /** What the server answers to its k-th request. */
  type Server<!T> = (nat, Request) -> Response<T>

  datatype Result<T> = Items(items: seq<T>) | MissingTotal | MissingEndpoint | TotalChanged

  function RequestAt(p: Option<Pagination>, k: nat): Request {
    match p
    case Some(q) => Page(q.firstPage + k, q.perPage, q.includeTotals)
    case None => Unpaged
  }

  function Answer<T>(server: Server<T>, p: Option<Pagination>, k: nat): Response<T> {
    server(k, RequestAt(p, k))
  }

  // ---------------------------------------------------------------- what get_all returns

  /** Complete, with the total of the first answer. */
  predicate Usable<T>(server: Server<T>, p: Option<Pagination>, k: nat) {
    var a := Answer(server, p, k);
    a.total.Some? && a.items.Some? && a.total == Answer(server, p, 0).total
  }

  /** The items of the first n answers. */
  function Gathered<T>(server: Server<T>, p: Option<Pagination>, n: nat): seq<T> {
    if n == 0 then []
    else
      Gathered(server, p, n - 1)
      + (match Answer(server, p, n - 1).items case Some(items) => items case None => [])
  }

  /** After answer k there are no more requests. */
  predicate Stops<T>(server: Server<T>, p: Option<Pagination>, k: nat)
    requires Usable(server, p, k)
  {
    || p.None?
    || |Gathered(server, p, k + 1)| >= Answer(server, p, k).total.value
    || |Answer(server, p, k).items.value| < 1
  }

  /** Answer k is good, and another request follows. */
  predicate Continues<T>(server: Server<T>, p: Option<Pagination>, k: nat) {
    Usable(server, p, k) && !Stops(server, p, k)
  }

  /** The result r comes of exactly n requests: all before the last are good, the last one decides. */
  ghost predicate Outcome<T>(server: Server<T>, p: Option<Pagination>, r: Result<T>, n: nat) {
    && n >= 1
    && (forall k :: 0 <= k < n - 1 ==> Continues(server, p, k))
    && var last := Answer(server, p, n - 1);
       match r
       case Items(items) => Usable(server, p, n - 1) && Stops(server, p, n - 1) && items == Gathered(server, p, n)
       case MissingTotal => last.total.None?
       case MissingEndpoint => last.total.Some? && last.items.None?
       case TotalChanged => last.total.Some? && last.items.Some? && last.total != Answer(server, p, 0).total
  }

  method GetAll<T>(server: Server<T>, pagination: Option<Pagination>) returns (r: Result<T>, requests: nat)
    ensures Outcome(server, pagination, r, requests)
  {
    var items: seq<T> := [];
    var total: Option<int> := None;
    var k := 0;
    requests := 0;
    while true
      invariant requests == k
      invariant items == Gathered(server, pagination, k)
      invariant k == 0 <==> total.None?
      invariant k > 0 ==> pagination.Some? && total == Answer(server, pagination, 0).total && |items| < total.value
      invariant forall j :: 0 <= j < k ==> Continues(server, pagination, j)
      decreases total.None?, if total.Some? then total.value - |items| else 0
    {
      var response := server(k, RequestAt(pagination, k));
      requests := requests + 1;
      if response.total.None? {
        return MissingTotal, requests;
      }
      if response.items.None? {
        return MissingEndpoint, requests;
      }
      if total.None? {
        total := response.total;
      }
      if total != response.total {
        return TotalChanged, requests;
      }
      items := items + response.items.value;
      if pagination.None? {
        break;
      }
      if |items| >= total.value {
        break;
      }
      if |response.items.value| < 1 {
        break;
      }
      k := k + 1;
    }
    r := Items(items);
  }

  // ---------------------------------------------------------------- any server

  /** The total that the first answer reports; 0 stands for none. */
  function FirstTotal<T>(server: Server<T>, p: Option<Pagination>): int {
    match Answer(server, p, 0).total case Some(total) => total case None => 0
  }

  lemma {:induction false} GatheredGrows<T>(server: Server<T>, p: Option<Pagination>, n: nat)
    requires p.Some? && forall k :: 0 <= k < n ==> Continues(server, p, k)
    ensures |Gathered(server, p, n)| >= n
    ensures n > 0 ==> |Gathered(server, p, n)| < FirstTotal(server, p)
  {
    if n > 0 {
      GatheredGrows(server, p, n - 1);
      assert Continues(server, p, n - 1);
    }
  }

  /** Whatever the server does: at most as many requests as the total it first reports, and at least one. */
  lemma {:induction false} RequestsBounded<T>(server: Server<T>, p: Option<Pagination>, r: Result<T>, n: nat)
    requires Outcome(server, p, r, n)
    ensures n <= if FirstTotal(server, p) > 1 then FirstTotal(server, p) else 1
    ensures p.None? ==> n == 1
  {
    if n > 1 {
      assert Continues(server, p, 0);
      GatheredGrows(server, p, n - 1);
    }
  }

  lemma {:induction false} LastOneEnds<T>(server: Server<T>, p: Option<Pagination>, r: Result<T>, n: nat)
    requires Outcome(server, p, r, n)
    ensures n >= 1 && !Continues(server, p, n - 1)
    ensures forall k :: 0 <= k < n - 1 ==> Continues(server, p, k)
  {
  }

  /** The outcome is determined by the server. */
  lemma {:induction false} OutcomeUnique<T>(server: Server<T>, p: Option<Pagination>, r: Result<T>, n: nat,
                                            r': Result<T>, n': nat)
    requires Outcome(server, p, r, n) && Outcome(server, p, r', n')
    ensures n == n' && r == r'
  {
    LastOneEnds(server, p, r, n);
    LastOneEnds(server, p, r', n');
    hide Continues;
    assert n == n';
  }

  // ---------------------------------------------------------------- a server of slices

  function Min(a: int, b: int): int {
    if a < b then a else b
  }

  /** `list[i * size : (i + 1) * size]` */
  function Slice<T>(list: seq<T>, size: nat, i: int): seq<T> {
    if i < 0 then [] else list[Min(i * size, |list|)..Min((i + 1) * size, |list|)]
  }

  /**
   * It answers every page request that asks for totals, or every one that does not, with that slice,
   * pages being numbered from `base`, and with the total.
   */
  ghost predicate Serves<T>(server: Server<T>, list: seq<T>, base: int, includeTotals: bool) {
    forall k: nat, number: int, size: nat ::
      server(k, Page(number, size, includeTotals)) == Response(Some(|list|), Some(Slice(list, size, number - base)))
  }

  /** The general API: a total is reported only when it is asked for. */
  ghost predicate ReportsIfAsked<T>(server: Server<T>, list: seq<T>) {
    && Serves(server, list, 0, true)
    && forall k: nat, number: int, size: nat :: server(k, Page(number, size, false)).total.None?
  }

  /** The group members' API: it answers with an error, without a total, to a request that asks for one. */
  ghost predicate RefusesToBeAsked<T>(server: Server<T>, list: seq<T>) {
    && Serves(server, list, 1, false)
    && forall k: nat, number: int, size: nat :: server(k, Page(number, size, true)) == Response(None, None)
  }

  /** max(1, ceil(total / size)) */
  function PageCount(total: nat, size: nat): (n: nat)
    requires size > 0
    ensures n >= 1
  {
    if total <= size then 1 else 1 + PageCount(total - size, size)
  }

  /** It is the smallest number of pages, but at least one, that hold everything. */
  lemma {:induction false} PageCountIsCeiling(total: nat, size: nat)
    requires size > 0
    ensures var n := PageCount(total, size); n >= 1 && total <= n * size && (n > 1 ==> (n - 1) * size < total)
  {
    if total > size {
      PageCountIsCeiling(total - size, size);
    }
  }

  lemma {:induction false} SliceNext<T>(list: seq<T>, size: nat, n: nat)
    requires n > 0
    ensures list[..Min((n - 1) * size, |list|)] + Slice(list, size, n - 1) == list[..Min(n * size, |list|)]
  {
  }

  lemma {:induction false} SlicesGathered<T>(server: Server<T>, p: Pagination, list: seq<T>, n: nat)
    requires Serves(server, list, p.firstPage, p.includeTotals)
    ensures Gathered(server, Some(p), n) == list[..Min(n * p.perPage, |list|)]
  {
    if n > 0 {
      SlicesGathered(server, p, list, n - 1);
      SliceNext(list, p.perPage, n);
    }
  }

  /**
   * Complete: against a server that serves slices of a list, numbered from the page that the class
   * starts with, the result is that list, in order, after max(1, ceil(total / perPage)) requests.
   */
  lemma {:induction false} SlicesComplete<T>(server: Server<T>, p: Pagination, list: seq<T>, r: Result<T>, n: nat)
    requires p.perPage > 0 && Serves(server, list, p.firstPage, p.includeTotals)
    requires Outcome(server, Some(p), r, n)
    ensures r == Items(list)
    ensures n == PageCount(|list|, p.perPage)
  {
    hide Usable, Stops, Gathered, PageCount, Serves;
    var count := PageCount(|list|, p.perPage);
    forall k: nat | k < count
      ensures Usable(server, Some(p), k)
      ensures k < count - 1 ==> !Stops(server, Some(p), k)
      ensures k == count - 1 ==> Stops(server, Some(p), k) && Gathered(server, Some(p), k + 1) == list
    {
      KthPage(server, p, list, k, count);
    }
    KthPage(server, p, list, count - 1, count);
    assert forall k :: 0 <= k < count - 1 ==> Continues(server, Some(p), k);
    assert Outcome(server, Some(p), Items(list), count);
    OutcomeUnique(server, Some(p), r, n, Items(list), count);
  }

  lemma {:induction false} KthPage<T>(server: Server<T>, p: Pagination, list: seq<T>, k: nat, count: nat)
    requires p.perPage > 0 && Serves(server, list, p.firstPage, p.includeTotals) && k < count == PageCount(|list|, p.perPage)
    ensures Usable(server, Some(p), k)
    ensures k < count - 1 ==> !Stops(server, Some(p), k)
    ensures k == count - 1 ==> Stops(server, Some(p), k) && Gathered(server, Some(p), k + 1) == list
  {
    PagesBefore(k, p.perPage, |list|);
    SlicesGathered(server, p, list, k + 1);
    hide PageCount, Gathered;
    assert Answer(server, Some(p), k) == Response(Some(|list|), Some(Slice(list, p.perPage, k)));
    assert Answer(server, Some(p), 0) == Response(Some(|list|), Some(Slice(list, p.perPage, 0)));
    if k == count - 1 {
      assert list[..|list|] == list;
    }
  }

  lemma {:induction false} PagesBefore(k: nat, size: nat, total: nat)
    requires size > 0 && k < PageCount(total, size)
    ensures k < PageCount(total, size) - 1 ==> k * size < (k + 1) * size < total
    ensures k == PageCount(total, size) - 1 ==> total <= (k + 1) * size
    ensures PageCount(total, size) >= 1
  {
    var count := PageCount(total, size);
    PageCountIsCeiling(total, size);
    if k < count - 1 {
      assert (k + 1) * size == k * size + size;
      Monotone(k + 1, count - 1, size);
    }
  }

  lemma {:induction false} Monotone(a: nat, b: nat, size: nat)
    requires a <= b
    ensures a * size <= b * size
  {
  }

  /** Each variant asks its own API as that one wants to be asked: zero-based with totals, one-based without. */
  lemma {:induction false} BothVariantsComplete<T>(general: Server<T>, members: Server<T>, list: seq<T>,
                                                   r: Result<T>, n: nat, r': Result<T>, n': nat)
    requires ReportsIfAsked(general, list) && Outcome(general, Some(GENERAL), r, n)
    requires RefusesToBeAsked(members, list) && Outcome(members, Some(GROUP_MEMBERS), r', n')
    ensures r == r' == Items(list)
    ensures n == PageCount(|list|, 50) && n' == PageCount(|list|, 25)
  {
    SlicesComplete(general, GENERAL, list, r, n);
    SlicesComplete(members, GROUP_MEMBERS, list, r', n');
  }

  /** Asked the other way, either API makes the very first answer an error. */
  lemma {:induction false} AskedTheOtherWay<T>(general: Server<T>, members: Server<T>, list: seq<T>, p: Pagination,
                                               r: Result<T>, n: nat)
    requires ReportsIfAsked(general, list) && RefusesToBeAsked(members, list)
    requires Outcome(if p.includeTotals then members else general, Some(p), r, n)
    ensures r == MissingTotal && n == 1
  {
    var server := if p.includeTotals then members else general;
    assert Answer(server, Some(p), 0).total.None?;
    assert !Continues(server, Some(p), 0);
    LastOneEnds(server, Some(p), r, n);
  }

  /** Items beyond the reported total, or fewer, are returned without complaint: fewer after an empty page only. */
  lemma {:induction false} ShortOnlyAfterEmptyPage<T>(server: Server<T>, p: Pagination, items: seq<T>, n: nat)
    requires Outcome(server, Some(p), Items(items), n)
    ensures |items| < FirstTotal(server, Some(p)) ==> Answer(server, Some(p), n - 1).items == Some([])
  {
  }
}
