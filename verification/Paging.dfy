/**
 * Three loops that fetch a list page by page, against a server that slices it. The total a page reports
 * is a parameter of its own, since the server counts and slices in separate queries, and it may be missing;
 * an honest server reports the length of the list.
 */
module Paging {
  import opened Wrappers
  import opened Ceiling

  datatype Page<T> = Page(items: seq<T>, size: nat, total: Option<nat>)

  /** `_page`: an absent or zero size means 50. */
  function PageSize(requested: int): (size: nat)
    ensures 1 <= size <= 500
    ensures 1 <= requested <= 500 ==> size == requested
  {
    if requested == 0 then 50 else if requested < 1 then 1 else if requested > 500 then 500 else requested
  }

  /** A page is as large as requested, or as near to it as 1 to 500 allow, and 50 by default. */
  lemma PageSizeIsNearest(requested: int)
    ensures PageSize(0) == 50
    ensures requested != 0 ==> Nearest(requested, 1, 500, PageSize(requested))
  {
  }

  /** transactions.list: `offset((page - 1) * page_size).limit(page_size)`. */
  function Serve<T>(list: seq<T>, total: Option<nat>, page: nat, requested: int): Page<T>
    requires page >= 1
  {
    var size := PageSize(requested);
    var offset := Least((page - 1) * size, |list|);
    Page(list[offset..Least(offset + size, |list|)], size, total)
  }

  /** A page takes the list from where the pages before it reach to where it reaches. */
  lemma PageJoins<T>(list: seq<T>, total: Option<nat>, page: nat, size: nat)
    requires page >= 1 && 1 <= size <= 500
    ensures Serve(list, total, page, size).size == size && Serve(list, total, page, size).total == total
    ensures list[..Reach(|list|, size, page - 1)] + Serve(list, total, page, size).items
            == list[..Reach(|list|, size, page)]
    ensures Serve(list, total, page, size).items == [] <==> page > CeilDiv(|list|, size)
  {
    ReachIs(|list|, size, page - 1);
    ReachAll(|list|, size, page - 1);
  }

  /** One request: the server's page and the total it reports. */
  method Ask<T>(list: seq<T>, total: Option<nat>, page: nat, size: nat) returns (reply: Page<T>)
    requires page >= 1 && 1 <= size <= 500
    ensures reply.size == size && reply.total == total
    ensures list[..Reach(|list|, size, page - 1)] + reply.items == list[..Reach(|list|, size, page)]
    ensures reply.items == [] <==> page > CeilDiv(|list|, size)
  {
    reply := Serve(list, total, page, size);
    PageJoins(list, total, page, size);
  }

  /** The requests a total asks for: at least one. */
  function Rounds(total: nat, size: nat): nat
    requires size > 0
  {
    if total == 0 then 1 else CeilDiv(total, size)
  }

  /** What comes back when the server reports the given total. */
  function Fetched<T>(list: seq<T>, total: nat, size: nat): seq<T>
    requires size > 0
  {
    list[..Reach(|list|, size, Rounds(total, size))]
  }

  lemma RoundsReached(total: nat, size: nat, page: nat)
    requires size > 0 && page >= 1
    ensures page * size >= total <==> page >= Rounds(total, size)
  {
    CoversIff(total, size, page);
  }

  /** The first two loops read a missing total as 0. */
  function Claimed(reported: Option<nat>): nat {
    if reported.Some? then reported.value else 0
  }

  /**
   * The loop of `_list_all_transactions`: it trusts the reported total and makes as many requests as that
   * asks for; an error page (number `failAt`) raises and gives no list.
   */
  method ListAllTransactions<T>(list: seq<T>, reported: Option<nat>, failAt: Option<nat>)
    returns (items: Option<seq<T>>, requests: nat)
    requires failAt.Some? ==> failAt.value >= 1
    ensures var rounds := Rounds(Claimed(reported), 500);
            && (items.None? <==> failAt.Some? && failAt.value <= rounds)
            && (items.Some? ==> items.value == Fetched(list, Claimed(reported), 500) && requests == rounds)
            && (items.None? ==> requests == failAt.value)
  {
    ghost var claimed := Claimed(reported);
    var all: seq<T> := [];
    var page := 1;
    requests := 0;
    while true
      invariant page >= 1 && requests == page - 1
      invariant all == list[..Reach(|list|, 500, page - 1)]
      invariant page > 1 ==> (page - 1) * 500 < claimed
      invariant failAt.Some? ==> page <= failAt.value
      decreases claimed + 500 - page
    {
      requests := requests + 1;
      RoundsReached(claimed, 500, page);
      if page > 1 { RoundsReached(claimed, 500, page - 1); }
      if failAt == Some(page) { return None, requests; }
      var reply := Ask(list, reported, page, 500);
      all := all + reply.items;
      var total := if reply.total.Some? && reply.total.value != 0 then reply.total.value else |all|;
      if page * reply.size >= total { return Some(all), requests; }
      page := page + 1;
    }
  }

  /** Nothing is missing when an empty page ends the loop before the reported total does. */
  lemma StoppedEarly<T>(list: seq<T>, reported: nat, size: nat, page: nat)
    requires size > 0 && 1 <= page <= Rounds(reported, size)
    requires page == Rounds(reported, size) || page > CeilDiv(|list|, size)
    ensures list[..Reach(|list|, size, page)] == Fetched(list, reported, size)
  {
    ReachAll(|list|, size, page);
    ReachAll(|list|, size, Rounds(reported, size));
  }

  /** The loop of `_fetch_paginated`: it also stops at an empty page, and an error keeps what came before. */
  method FetchPaginated<T>(list: seq<T>, reported: Option<nat>, failAt: Option<nat>)
    returns (items: seq<T>, failed: bool, requests: nat)
    requires failAt.Some? ==> failAt.value >= 1
    ensures var rounds := Least(Rounds(Claimed(reported), 500), CeilDiv(|list|, 500) + 1);
            && (failed <==> failAt.Some? && failAt.value <= rounds)
            && (!failed ==> items == Fetched(list, Claimed(reported), 500) && requests == rounds)
            && (failed ==> requests == failAt.value && items == list[..Reach(|list|, 500, requests - 1)])
  {
    ghost var claimed := Claimed(reported);
    items := [];
    var page := 1;
    requests := 0;
    while true
      invariant page >= 1 && requests == page - 1
      invariant items == list[..Reach(|list|, 500, page - 1)]
      invariant page > 1 ==> (page - 1) * 500 < claimed && page - 1 <= CeilDiv(|list|, 500)
      invariant failAt.Some? ==> page <= failAt.value
      decreases claimed + 500 - page
    {
      requests := requests + 1;
      RoundsReached(claimed, 500, page);
      if page > 1 { RoundsReached(claimed, 500, page - 1); }
      if failAt == Some(page) { return items, true, requests; }
      var reply := Ask(list, reported, page, 500);
      items := items + reply.items;
      var total := if reply.total.Some? && reply.total.value != 0 then reply.total.value else |items|;
      if page * 500 >= total || reply.items == [] {
        StoppedEarly(list, claimed, 500, page);
        return items, false, requests;
      }
      page := page + 1;
    }
  }

  /** Without a total only an empty page ends the loop. */
  function GatewayRounds(n: nat, reported: Option<nat>, size: nat): nat
    requires size > 0
  {
    if reported.Some? && reported.value <= n then Rounds(reported.value, size) else CeilDiv(n, size) + 1
  }

  function ClampSize(requested: int): (size: nat)
    ensures 1 <= size <= 500
  {
    if requested < 1 then 1 else if requested > 500 then 500 else requested
  }

  lemma ClampSizeIsNearest(requested: int)
    ensures Nearest(requested, 1, 500, ClampSize(requested))
  {
  }

  lemma GatewayProceeds(n: nat, reported: Option<nat>, size: nat, page: nat)
    requires size > 0 && page >= 1 && (page > 1 ==> page - 1 < GatewayRounds(n, reported, size))
    ensures page <= GatewayRounds(n, reported, size)
  {
    if reported.Some? {
      RoundsReached(reported.value, size, 1);
      if reported.value > 0 { CeilDivBounds(reported.value, size); }
    }
  }

  lemma GatewayStops(n: nat, reported: Option<nat>, size: nat, page: nat)
    requires size > 0 && page >= 1 && (page > 1 ==> page - 1 < GatewayRounds(n, reported, size))
    ensures (reported.Some? && Reach(n, size, page) >= reported.value) || page > CeilDiv(n, size) <==>
            page == GatewayRounds(n, reported, size)
  {
    GatewayProceeds(n, reported, size, page);
    ReachIs(n, size, page);
    CoversIff(n, size, page);
    if reported.Some? {
      RoundsReached(reported.value, size, page);
      if reported.value > 0 { CeilDivBounds(reported.value, size); }
    }
  }

  /** The loop of `get_paginated_items`: it compares what it has with a reported total, or stops at an empty page. */
  method GetPaginatedItems<T>(list: seq<T>, reported: Option<nat>, pageSize: int, failAt: Option<nat>)
    returns (items: seq<T>, total: Option<nat>, failed: bool, requests: nat)
    requires failAt.Some? ==> failAt.value >= 1
    ensures var rounds := GatewayRounds(|list|, reported, ClampSize(pageSize));
            && (failed <==> failAt.Some? && failAt.value <= rounds)
            && requests == (if failed then failAt.value else rounds)
    ensures items == list[..Reach(|list|, ClampSize(pageSize), if failed then requests - 1 else requests)]
    ensures total == if failed && requests == 1 then None else reported
  {
    var size := ClampSize(pageSize);
    items, total := [], None;
    var page := 1;
    requests := 0;
    while true
      invariant page >= 1 && requests == page - 1
      invariant items == list[..Reach(|list|, size, page - 1)]
      invariant total == if page == 1 then None else reported
      invariant page > 1 ==> page - 1 < GatewayRounds(|list|, reported, size)
      invariant failAt.Some? ==> page <= failAt.value
      decreases GatewayRounds(|list|, reported, size) + 1 - page
    {
      requests := requests + 1;
      GatewayProceeds(|list|, reported, size, page);
      if failAt == Some(page) { return items, total, true, requests; }
      var reply := Ask(list, reported, page, size);
      if reply.total.Some? { total := reply.total; }
      GatewayStops(|list|, reported, size, page);
      items := items + reply.items;
      if total.Some? && |items| >= total.value { return items, total, false, requests; }
      if reply.items == [] { return items, total, false, requests; }
      page := page + 1;
    }
  }

  /**
   * An honest server: each loop returns exactly the list, in order, in max(1, ceil(n / size)) requests;
   * for the second and third that is as many as they would make at most.
   */
  lemma HonestServer<T>(list: seq<T>, size: nat)
    requires size > 0
    ensures Fetched(list, |list|, size) == list
    ensures Least(Rounds(|list|, size), CeilDiv(|list|, size) + 1) == Rounds(|list|, size)
    ensures GatewayRounds(|list|, Some(|list|), size) == Rounds(|list|, size)
    ensures Rounds(|list|, size) == (if CeilDiv(|list|, size) > 1 then CeilDiv(|list|, size) else 1)
  {
    ReachAll(|list|, size, Rounds(|list|, size));
    CeilDivBounds(|list|, size);
  }

  /** How far the third loop reaches, against the first two. */
  lemma GatewayReach(n: nat, reported: Option<nat>, size: nat)
    requires size > 0
    ensures var far := Reach(n, size, GatewayRounds(n, reported, size));
            var near := Reach(n, size, Rounds(Claimed(reported), size));
            (far == near <==> reported.Some? || n <= size) && (reported.None? ==> far == n)
  {
    if reported.None? || reported.value > n { ReachAll(n, size, CeilDiv(n, size) + 1); }
    if reported.None? {
      ReachIs(n, size, 1);
    } else if reported.value > n {
      RoundsReached(reported.value, size, Rounds(reported.value, size));
      ReachIs(n, size, Rounds(reported.value, size));
    }
  }

  /**
   * Any reply: asked with the same page size, the third loop returns the items of the first two exactly when
   * a total is reported or one page holds the list. Without a total it returns the list; with one, all of them
   * do exactly when the pages the total asks for cover it. The first two stop after one page without one.
   */
  lemma LoopsAgree<T>(list: seq<T>, reported: Option<nat>, size: nat)
    requires size > 0
    ensures var third := list[..Reach(|list|, size, GatewayRounds(|list|, reported, size))];
            && (third == Fetched(list, Claimed(reported), size) <==> reported.Some? || |list| <= size)
            && (reported.None? ==> third == list)
    ensures Fetched(list, Claimed(reported), size) == list <==> Rounds(Claimed(reported), size) * size >= |list|
    ensures reported.None? ==> Fetched(list, Claimed(reported), size) == list[..Least(size, |list|)]
  {
    ReachIs(|list|, size, 1);
    GatewayReach(|list|, reported, size);
    var rounds := Rounds(Claimed(reported), size);
    ReachAll(|list|, size, rounds);
    CoversIff(|list|, size, rounds);
    assert |Fetched(list, Claimed(reported), size)| == Reach(|list|, size, rounds);
  }
}
