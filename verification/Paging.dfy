/** The two loops that read a paged list from a server that may answer anything at any call. */
module Paging {
  import opened Replies

  const PAGE := 100
  const MAX_MEMBERSHIPS := 2000

  datatype Item = Item(id: string, organization: string)

  datatype Answer = Failed | Page(items: seq<Item>, total: Option<int>)

  datatype Fault = Transport | Contract | Scope | Unavailable | Limit

  datatype Result = Success(items: seq<Item>) | Failure(fault: Fault)

  /** The answer to a call, by its number, the offset and the limit asked for. */
  type Server = (nat, nat, nat) -> Answer

  /** How a list is read: at most `max` items, in pages of which the last is cut down to the bound or not, holding
      items that `accepts` lets through. */
  datatype Reading = Reading(max: nat, cut: bool, accepts: Item -> bool)

  function LimitAt(r: Reading, offset: nat): (n: nat) {
    if r.cut && offset < r.max && r.max - offset < PAGE then r.max - offset else PAGE
  }

  predicate Known(items: seq<Item>, id: string) {
    exists i :: 0 <= i < |items| && items[i].id == id
  }

  /** Takes the items of a page, each accepted and new. */
  function Take(r: Reading, got: seq<Item>, page: seq<Item>): (t: Option<seq<Item>>)
    ensures t.Some? ==> |t.value| == |got| + |page|
    decreases |page|
  {
    if page == [] then Some(got)
    else if !r.accepts(page[0]) || Known(got, page[0].id) then None
    else Take(r, got + [page[0]], page[1..])
  }

  /** Reads on from what has been read; the number of the call is the number of pages so far. */
  function ReadFrom(r: Reading, server: Server, call: nat, got: seq<Item>): Result
    decreases r.max - |got|
  {
    if |got| >= r.max then Failure(Limit)
    else
      var offset := |got|;
      match server(call, offset, LimitAt(r, offset))
      case Failed => Failure(Transport)
      case Page(items, total) =>
        if total.None? || total.value > r.max || total.value < offset + |items| || |items| > LimitAt(r, offset) then
          Failure(Contract)
        else
          var all := Take(r, got, items);
          if all.None? then Failure(Scope)
          else if |all.value| >= total.value then Success(all.value)
          else if items == [] then Failure(Unavailable)
          else ReadFrom(r, server, call + 1, all.value)
  }

  // ---------------------------------------------------------------- what success means

  predicate Distinct(items: seq<Item>) {
    forall i, j | 0 <= i < j < |items| :: items[i].id != items[j].id
  }

  lemma {:induction false} TakeIs(r: Reading, got: seq<Item>, page: seq<Item>)
    ensures Take(r, got, page).Some? ==> Take(r, got, page).value == got + page
    ensures Take(r, got, page).Some? && Distinct(got) ==> Distinct(got + page)
    ensures Take(r, got, page).Some? ==> forall i | 0 <= i < |page| :: r.accepts(page[i])
    decreases |page|
  {
    if page == [] {
      assert got + page == got;
    } else if r.accepts(page[0]) && !Known(got, page[0].id) {
      var more := got + [page[0]];
      TakeIs(r, more, page[1..]);
      assert more + page[1..] == got + page;
      if Distinct(got) {
        forall i, j | 0 <= i < j < |more| ensures more[i].id != more[j].id {
        }
      }
      if Take(r, got, page).Some? {
        forall i | 0 <= i < |page| ensures r.accepts(page[i]) {
          assert i > 0 ==> page[i] == page[1..][i - 1];
        }
      }
    }
  }

  /** Accepted items none of which has been seen or comes twice are taken. */
  lemma {:induction false} TakesAll(r: Reading, got: seq<Item>, page: seq<Item>)
    requires Distinct(got + page) && forall i | 0 <= i < |page| :: r.accepts(page[i])
    ensures Take(r, got, page) == Some(got + page)
    decreases |page|
  {
    if page == [] {
      assert got + page == got;
    } else {
      assert (got + page)[|got|] == page[0];
      forall i | 0 <= i < |got| ensures got[i].id != page[0].id {
        assert (got + page)[i] == got[i];
      }
      assert (got + [page[0]]) + page[1..] == got + page;
      TakesAll(r, got + [page[0]], page[1..]);
    }
  }

  function Flatten(pages: seq<seq<Item>>): seq<Item> {
    if pages == [] then [] else pages[0] + Flatten(pages[1..])
  }

  lemma FlattenCons(got: seq<Item>, page: seq<Item>, rest: seq<seq<Item>>)
    ensures ([page] + rest)[1..] == rest && got + Flatten([page] + rest) == (got + page) + Flatten(rest)
  {
    assert ([page] + rest)[1..] == rest;
  }

  /** These pages are the answers of consecutive calls, asked for at consecutive offsets; `total` is the last total. */
  predicate Served(r: Reading, server: Server, call: nat, offset: nat, pages: seq<seq<Item>>, total: int)
    decreases |pages|
  {
    && pages != []
    && server(call, offset, LimitAt(r, offset)).Page?
    && server(call, offset, LimitAt(r, offset)).items == pages[0]
    && (if |pages| == 1 then server(call, offset, LimitAt(r, offset)).total == Some(total)
        else pages[0] != [] && Served(r, server, call + 1, offset + |pages[0]|, pages[1..], total))
  }

  /** A list that is read is the pages served in order, put together: all items accepted, no identifier twice, as
      many as the last total said. */
  lemma {:induction false} ReadIsPages(r: Reading, server: Server, call: nat, got: seq<Item>)
      returns (pages: seq<seq<Item>>, total: int)
    requires ReadFrom(r, server, call, got).Success? && Distinct(got)
    ensures var all := ReadFrom(r, server, call, got).items;
            && Served(r, server, call, |got|, pages, total)
            && all == got + Flatten(pages) && |all| == total <= r.max && Distinct(all)
            && forall i | |got| <= i < |all| :: r.accepts(all[i])
    decreases r.max - |got|
  {
    var a := server(call, |got|, LimitAt(r, |got|));
    TakeIs(r, got, a.items);
    var more := got + a.items;
    if |more| >= a.total.value {
      pages, total := [a.items], a.total.value;
      assert Flatten(pages) == a.items + Flatten([]) == a.items;
    } else {
      var rest;
      rest, total := ReadIsPages(r, server, call + 1, more);
      pages := [a.items] + rest;
      FlattenCons(got, a.items, rest);
    }
  }

  // ---------------------------------------------------------------- an honest server

  /** A server with a fixed list that serves it in pieces of its own choice, none of them empty before the end. */
  ghost predicate Serves(server: Server, items: seq<Item>) {
    forall call: nat, offset: nat, limit: nat | offset <= |items| && limit > 0 ::
      ServesAt(server, items, call, offset, limit)
  }

  predicate ServesAt(server: Server, items: seq<Item>, call: nat, offset: nat, limit: nat)
    requires offset <= |items|
  {
    var a := server(call, offset, limit);
    && a.Page? && a.total == Some(|items|) && |a.items| <= limit && offset + |a.items| <= |items|
    && a.items == items[offset..offset + |a.items|] && (offset < |items| ==> a.items != [])
  }

  lemma {:induction false} ReadsOn(r: Reading, server: Server, items: seq<Item>, call: nat, offset: nat)
    requires Serves(server, items) && Distinct(items) && (forall i | 0 <= i < |items| :: r.accepts(items[i]))
    requires |items| <= r.max && offset < r.max && offset <= |items|
    ensures ReadFrom(r, server, call, items[..offset]) == Success(items)
    decreases |items| - offset
  {
    var limit := LimitAt(r, offset);
    assert ServesAt(server, items, call, offset, limit);
    var a := server(call, offset, limit);
    var next := offset + |a.items|;
    assert items[..offset] + a.items == items[..next] && Distinct(items[..next]);
    forall i | 0 <= i < |a.items| ensures r.accepts(a.items[i]) {
      assert a.items[i] == items[offset + i];
    }
    TakesAll(r, items[..offset], a.items);
    if next < |items| {
      ReadsOn(r, server, items, call + 1, next);
    } else {
      assert items[..next] == items;
    }
  }

  /** Against such a server, reading ends with exactly its list, however it cuts its pages; the list must fit the
      bound, and the bound must not be zero. */
  lemma ReadsHonestServer(r: Reading, server: Server, items: seq<Item>)
    requires Serves(server, items) && Distinct(items) && (forall i | 0 <= i < |items| :: r.accepts(items[i]))
    ensures ReadFrom(r, server, 0, []) == Success(items) <==> |items| <= r.max && r.max > 0
  {
    if |items| <= r.max && r.max > 0 {
      assert items[..0] == [];
      ReadsOn(r, server, items, 0, 0);
    } else if r.max > 0 {
      assert ServesAt(server, items, 0, 0, LimitAt(r, 0));
    }
  }

  /** With a bound above zero the loop never runs out of offsets: reaching the bound means having read the total. */
  lemma {:induction false} NeverRunsOut(r: Reading, server: Server, call: nat, got: seq<Item>)
    requires |got| < r.max
    ensures ReadFrom(r, server, call, got) != Failure(Limit)
    decreases r.max - |got|
  {
    var a := server(call, |got|, LimitAt(r, |got|));
    if a.Page? {
      TakeIs(r, got, a.items);
      var all := Take(r, got, a.items);
      if all.Some? && a.total.Some? && a.items != [] && |all.value| < a.total.value <= r.max {
        NeverRunsOut(r, server, call + 1, all.value);
      }
    }
  }

  // ---------------------------------------------------------------- the loops

  lemma KnownMore(items: seq<Item>, item: Item, id: string)
    ensures Known(items + [item], id) <==> Known(items, id) || item.id == id
  {
    var more := items + [item];
    if Known(items, id) {
      var i :| 0 <= i < |items| && items[i].id == id;
      assert more[i].id == id;
    }
    if item.id == id {
      assert more[|items|].id == id;
    }
  }

  ghost predicate SeenAre(seen: set<string>, items: seq<Item>) {
    forall id :: id in seen <==> Known(items, id)
  }

  /** The inner loop of both: the items of one page, unless one is refused or known. */
  method TakePage(r: Reading, got: seq<Item>, seen: set<string>, page: seq<Item>)
      returns (all: Option<seq<Item>>, now: set<string>)
    requires SeenAre(seen, got)
    ensures all == Take(r, got, page)
    ensures all.Some? ==> SeenAre(now, all.value)
  {
    var result := got;
    now := seen;
    for i := 0 to |page|
      invariant Take(r, got, page) == Take(r, result, page[i..])
      invariant SeenAre(now, result)
    {
      assert page[i..][0] == page[i] && page[i..][1..] == page[i + 1..];
      if !r.accepts(page[i]) || page[i].id in now {
        return None, now;
      }
      forall id ensures id in now + {page[i].id} <==> Known(result + [page[i]], id) {
        KnownMore(result, page[i], id);
      }
      now := now + {page[i].id};
      result := result + [page[i]];
    }
    all := Some(result);
  }

  method Projects(server: Server, max: nat, accepts: Item -> bool) returns (r: Result)
    ensures r == ReadFrom(Reading(max, true, accepts), server, 0, [])
  {
    var reading := Reading(max, true, accepts);
    var result: seq<Item> := [];
    var seen: set<string> := {};
    var offset, call := 0, 0;
    while offset < max
      invariant offset == |result| && call >= 0
      invariant ReadFrom(reading, server, 0, []) == ReadFrom(reading, server, call, result)
      invariant SeenAre(seen, result)
      decreases max - offset
    {
      var n := PAGE;
      if max - offset < n {
        n := max - offset;
      }
      var res := server(call, offset, n);
      call := call + 1;
      if res.Failed? {
        return Failure(Transport);
      }
      if res.total.None? || res.total.value > max || res.total.value < offset + |res.items| || |res.items| > n {
        return Failure(Contract);
      }
      var all;
      all, seen := TakePage(reading, result, seen, res.items);
      if all.None? {
        return Failure(Scope);
      }
      TakeIs(reading, result, res.items);
      result := all.value;
      offset := offset + |res.items|;
      if offset >= res.total.value {
        return Success(result);
      }
      if |res.items| == 0 {
        return Failure(Unavailable);
      }
    }
    r := Failure(Limit);
  }

  /** The membership loop does not tell its faults apart. */
  function Coarse(r: Result): Result {
    if r.Failure? && r.fault != Transport then Failure(Unavailable) else r
  }

  method Memberships(server: Server, accepts: Item -> bool) returns (r: Result)
    ensures r == Coarse(ReadFrom(Reading(MAX_MEMBERSHIPS, false, accepts), server, 0, []))
  {
    var reading := Reading(MAX_MEMBERSHIPS, false, accepts);
    var out: seq<Item> := [];
    var seen: set<string> := {};
    var offset, call := 0, 0;
    while offset < MAX_MEMBERSHIPS
      invariant offset == |out| && call >= 0
      invariant ReadFrom(reading, server, 0, []) == ReadFrom(reading, server, call, out)
      invariant SeenAre(seen, out)
      decreases MAX_MEMBERSHIPS - offset
    {
      var res := server(call, offset, PAGE);
      call := call + 1;
      if res.Failed? {
        return Failure(Transport);
      }
      if res.total.None? || res.total.value > MAX_MEMBERSHIPS || res.total.value < offset + |res.items|
         || |res.items| > PAGE
      {
        return Failure(Unavailable);
      }
      var all;
      all, seen := TakePage(reading, out, seen, res.items);
      if all.None? {
        return Failure(Unavailable);
      }
      TakeIs(reading, out, res.items);
      out := all.value;
      offset := offset + |res.items|;
      if offset >= res.total.value {
        return Success(out);
      }
      if |res.items| == 0 {
        return Failure(Unavailable);
      }
    }
    r := Failure(Unavailable);
  }
}
