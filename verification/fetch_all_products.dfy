/** The catalog pagination helper: request a page of catalog items, append
    its edges to the accumulator, and, while the page says there is a next
    page and its last edge has a cursor, request the page after that cursor.

    The backend is an oracle `Source` from request variables to a page
    (`None`: the fetch rejects). The source recursion has no bound; the model
    carries a fuel count of the requests it may still issue. */
module Pagination {
  import opened Common

  datatype CatalogProduct = CatalogProduct(slug: Option<string>)

  /** One `catalogItems.edges` entry; `product` is `None` when the entry, its
      `node` or `node.product` is `null` (a `null` entry has no cursor either).
      The fold never looks inside the product. */
  datatype Edge = Edge(cursor: Option<string>, product: Option<CatalogProduct>)

  /** `data.catalogItems`; `hasNextPage` is `pageInfo?.hasNextPage`. */
  datatype CatalogItems = CatalogItems(edges: Option<seq<Edge>>, hasNextPage: Option<bool>)

  /** The `data` of one response. */
  datatype Page = Page(catalogItems: Option<CatalogItems>)

  type Source = Vars -> Option<Page>

  datatype Status = Done(edges: seq<Edge>) | Rejected | OutOfFuel

  /** The variables of every request issued, in order, and how the fold ended. */
  datatype Fetch = Fetch(requests: seq<Vars>, status: Status)

  /** `data.catalogItems?.edges ?? []`. */
  function PageEdges(p: Page): seq<Edge> {
    if p.catalogItems.None? || p.catalogItems.value.edges.None? then []
    else p.catalogItems.value.edges.value
  }

  /** `data.catalogItems?.pageInfo?.hasNextPage`, as a condition. */
  predicate HasNextPage(p: Page) {
    p.catalogItems.Some? && p.catalogItems.value.hasNextPage == Some(true)
  }

  /** The cursor the fold continues from: the last edge's cursor, when the page
      has a next page and that cursor is truthy. */
  function NextCursor(p: Page): (c: Option<string>)
    ensures c.Some? <==>
      HasNextPage(p) && |PageEdges(p)| > 0 && Truthy(PageEdges(p)[|PageEdges(p)| - 1].cursor)
    ensures c.Some? ==> c == PageEdges(p)[|PageEdges(p)| - 1].cursor
  {
    var edges := PageEdges(p);
    if HasNextPage(p) && |edges| > 0 && Truthy(edges[|edges| - 1].cursor) then edges[|edges| - 1].cursor
    else None
  }

  /** `{ ...variables, cursor }`: the caller's variables with `cursor` set,
      to `undefined` when there is none. */
  function RequestVars(variables: Vars, cursor: Option<string>): (r: Vars)
    ensures r.Keys == variables.Keys + {"cursor"}
    ensures forall k :: k in variables && k != "cursor" ==> r[k] == variables[k]
    ensures cursor.Some? ==> r["cursor"] == Str(cursor.value)
    ensures cursor.None? ==> r["cursor"] == Undefined
  {
    variables["cursor" := if cursor.Some? then Str(cursor.value) else Undefined]
  }

  /** The last request of a non-empty sequence. */
  function Last(requests: seq<Vars>): Vars
    requires |requests| > 0
  {
    requests[|requests| - 1]
  }

  /** `fetchAllProducts`, allowed at most `fuel` requests. */
  function FetchAll(source: Source, variables: Vars, acc: seq<Edge>, cursor: Option<string>, fuel: nat): (r: Fetch)
    ensures |r.requests| <= fuel
    ensures fuel > 0 ==> |r.requests| > 0 && r.requests[0] == RequestVars(variables, cursor)
    ensures forall i :: 0 <= i < |r.requests| ==> r.requests[i].Keys == variables.Keys + {"cursor"}
    ensures r.status.Done? ==> |acc| <= |r.status.edges| && r.status.edges[..|acc|] == acc
    ensures r.status.OutOfFuel? ==> fuel == |r.requests|
    decreases fuel
  {
    if fuel == 0 then Fetch([], OutOfFuel)
    else
      var request := RequestVars(variables, cursor);
      match source(request)
      case None => Fetch([request], Rejected)
      case Some(page) =>
        var acc' := acc + PageEdges(page);
        match NextCursor(page)
        case None => Fetch([request], Done(acc'))
        case Some(next) =>
          var rest := FetchAll(source, variables, acc', Some(next), fuel - 1);
          assert rest.status.Done? ==> rest.status.edges[..|acc|] == acc' [..|acc|];
          Fetch([request] + rest.requests, rest.status)
  }

  /** The edges of the pages answered to `requests`, concatenated in order. */
  function AllEdges(source: Source, requests: seq<Vars>): seq<Edge>
    requires forall i :: 0 <= i < |requests| ==> source(requests[i]).Some?
  {
    if requests == [] then [] else PageEdges(source(requests[0]).value) + AllEdges(source, requests[1..])
  }

  /** The sum of the page sizes answered to `requests`. */
  function TotalEdges(source: Source, requests: seq<Vars>): nat
    requires forall i :: 0 <= i < |requests| ==> source(requests[i]).Some?
  {
    if requests == [] then 0 else |PageEdges(source(requests[0]).value)| + TotalEdges(source, requests[1..])
  }

  /** A completed fold returns the accumulator followed by every visited
      page's edges, in request order (the last edge of each page included). */
  lemma {:induction false} FetchAllCollectsPages(source: Source, variables: Vars, acc: seq<Edge>, cursor: Option<string>, fuel: nat)
    ensures var r := FetchAll(source, variables, acc, cursor, fuel);
      r.status.Done? ==>
        && (forall i :: 0 <= i < |r.requests| ==> source(r.requests[i]).Some?)
        && r.status.edges == acc + AllEdges(source, r.requests)
    decreases fuel
  {
    var r := FetchAll(source, variables, acc, cursor, fuel);
    if fuel > 0 && r.status.Done? {
      var request := RequestVars(variables, cursor);
      var page := source(request).value;
      var acc' := acc + PageEdges(page);
      if NextCursor(page).Some? {
        var rest := FetchAll(source, variables, acc', NextCursor(page), fuel - 1);
        FetchAllCollectsPages(source, variables, acc', NextCursor(page), fuel - 1);
        assert r == Fetch([request] + rest.requests, rest.status);
        assert r.requests[1..] == rest.requests;
        assert forall i :: 1 <= i < |r.requests| ==> r.requests[i] == rest.requests[i - 1];
        assert AllEdges(source, r.requests) == PageEdges(page) + AllEdges(source, rest.requests);
        assert rest.status.edges == acc' + AllEdges(source, rest.requests);
      } else {
        assert r == Fetch([request], Done(acc'));
        assert AllEdges(source, r.requests[1..]) == [];
      }
    }
  }

  lemma {:induction false} AllEdgesLength(source: Source, requests: seq<Vars>)
    requires forall i :: 0 <= i < |requests| ==> source(requests[i]).Some?
    ensures |AllEdges(source, requests)| == TotalEdges(source, requests)
  {
    if requests != [] {
      AllEdgesLength(source, requests[1..]);
    }
  }

  /** Starting from an empty accumulator, a completed fold returns as many
      edges as the visited pages hold together. */
  lemma FetchAllLength(source: Source, variables: Vars, cursor: Option<string>, fuel: nat)
    ensures var r := FetchAll(source, variables, [], cursor, fuel);
      r.status.Done? ==>
        && (forall i :: 0 <= i < |r.requests| ==> source(r.requests[i]).Some?)
        && |r.status.edges| == TotalEdges(source, r.requests)
  {
    var r := FetchAll(source, variables, [], cursor, fuel);
    FetchAllCollectsPages(source, variables, [], cursor, fuel);
    if r.status.Done? {
      AllEdgesLength(source, r.requests);
    }
  }

  /** `request` agrees with the caller's `variables` on every key but `cursor`. */
  predicate KeepsCallerVariables(request: Vars, variables: Vars) {
    forall k :: k in variables && k != "cursor" ==> k in request && request[k] == variables[k]
  }

  /** Every request keeps the caller's variables other than `cursor`. */
  lemma {:induction false} FetchAllKeepsVariables(source: Source, variables: Vars, acc: seq<Edge>, cursor: Option<string>, fuel: nat)
    ensures forall i :: 0 <= i < |FetchAll(source, variables, acc, cursor, fuel).requests| ==>
      KeepsCallerVariables(FetchAll(source, variables, acc, cursor, fuel).requests[i], variables)
    decreases fuel
  {
    var r := FetchAll(source, variables, acc, cursor, fuel);
    if fuel > 0 {
      var request := RequestVars(variables, cursor);
      assert KeepsCallerVariables(request, variables);
      if source(request).Some? {
        var page := source(request).value;
        var acc' := acc + PageEdges(page);
        if NextCursor(page).Some? {
          var rest := FetchAll(source, variables, acc', NextCursor(page), fuel - 1);
          FetchAllKeepsVariables(source, variables, acc', NextCursor(page), fuel - 1);
          assert r == Fetch([request] + rest.requests, rest.status);
          assert forall i :: 1 <= i < |r.requests| ==> r.requests[i] == rest.requests[i - 1];
        }
      }
    }
  }

  /** The fold continues only as the pages direct: every request after the
      first carries the cursor of the previous page's last edge, which that
      page offered as a next-page cursor. */
  lemma {:induction false} FetchAllFollowsCursors(source: Source, variables: Vars, acc: seq<Edge>, cursor: Option<string>, fuel: nat)
    ensures forall i :: 0 <= i < |FetchAll(source, variables, acc, cursor, fuel).requests| - 1 ==>
      var request := FetchAll(source, variables, acc, cursor, fuel).requests[i];
      && source(request).Some?
      && NextCursor(source(request).value).Some?
      && FetchAll(source, variables, acc, cursor, fuel).requests[i + 1]["cursor"]
           == Str(NextCursor(source(request).value).value)
    decreases fuel
  {
    var r := FetchAll(source, variables, acc, cursor, fuel);
    if fuel > 0 {
      var request := RequestVars(variables, cursor);
      if source(request).Some? {
        var page := source(request).value;
        var acc' := acc + PageEdges(page);
        if NextCursor(page).Some? {
          var rest := FetchAll(source, variables, acc', NextCursor(page), fuel - 1);
          FetchAllFollowsCursors(source, variables, acc', NextCursor(page), fuel - 1);
          assert r == Fetch([request] + rest.requests, rest.status);
          forall i | 0 <= i < |r.requests| - 1
            ensures source(r.requests[i]).Some?
            ensures NextCursor(source(r.requests[i]).value).Some?
            ensures r.requests[i + 1]["cursor"] == Str(NextCursor(source(r.requests[i]).value).value)
          {
            if i == 0 {
              assert r.requests[1] == rest.requests[0] == RequestVars(variables, NextCursor(page));
            } else {
              assert r.requests[i] == rest.requests[i - 1];
              assert r.requests[i + 1] == rest.requests[i];
            }
          }
        }
      }
    }
  }

  /** How the fold ends. It rejects exactly when its last request is refused,
      and it completes exactly when its last request is answered by a page
      that offers no next cursor; in every other case it ran out of fuel. */
  lemma {:induction false} FetchAllStopsAtLastPage(source: Source, variables: Vars, acc: seq<Edge>, cursor: Option<string>, fuel: nat)
    ensures FetchAll(source, variables, acc, cursor, fuel).status.Rejected? <==>
      && |FetchAll(source, variables, acc, cursor, fuel).requests| > 0
      && source(Last(FetchAll(source, variables, acc, cursor, fuel).requests)).None?
    ensures FetchAll(source, variables, acc, cursor, fuel).status.Done? <==>
      && |FetchAll(source, variables, acc, cursor, fuel).requests| > 0
      && source(Last(FetchAll(source, variables, acc, cursor, fuel).requests)).Some?
      && NextCursor(source(Last(FetchAll(source, variables, acc, cursor, fuel).requests)).value).None?
    decreases fuel
  {
    var r := FetchAll(source, variables, acc, cursor, fuel);
    if fuel > 0 {
      var request := RequestVars(variables, cursor);
      if source(request).Some? {
        var page := source(request).value;
        var acc' := acc + PageEdges(page);
        if NextCursor(page).Some? {
          var rest := FetchAll(source, variables, acc', NextCursor(page), fuel - 1);
          FetchAllStopsAtLastPage(source, variables, acc', NextCursor(page), fuel - 1);
          assert r == Fetch([request] + rest.requests, rest.status);
          if |rest.requests| > 0 {
            assert Last(r.requests) == Last(rest.requests);
          } else {
            assert r.requests == [request];
          }
        }
      }
    }
  }
}
