/** The static-path listing of product pages: fetch every catalog item of the
    configured shop through the pagination helper and turn each product's
    slug into the page path `/<slug>`. */
module ProductPaths {
  import opened Common
  import opened Pagination

  /** The `options` argument; `variables` is `undefined` when the caller gives none. */
  datatype Options = Options(variables: Option<Vars>)

  /** The outcome: the paths in catalog order, the pagination's failure, or
      the rejection of the path mapping, whose destructuring throws on an
      edge without a node or product. */
  datatype Paths = Paths(paths: seq<string>) | FetchRejected | FetchOutOfFuel | MissingProduct

  /** The page size requested when the caller supplies no variables. */
  const DefaultPageSize: int := 250

  /** `variables = { first: 250 }` as a destructuring default. */
  function CallerVariables(options: Option<Options>): (vars: Vars)
    ensures options.None? || options.value.variables.None? ==> vars == map["first" := Num(DefaultPageSize)]
    ensures options.Some? && options.value.variables.Some? ==> vars == options.value.variables.value
  {
    if options.Some? && options.value.variables.Some? then options.value.variables.value
    else map["first" := Num(DefaultPageSize)]
  }

  /** `{ ...variables, shopIds: [config.shopId] }`. */
  function QueryVariables(options: Option<Options>, shopId: string): (vars: Vars)
    ensures "shopIds" in vars && vars["shopIds"] == List([Str(shopId)])
    ensures vars.Keys == CallerVariables(options).Keys + {"shopIds"}
    ensures forall k :: k in CallerVariables(options) && k != "shopIds" ==> vars[k] == CallerVariables(options)[k]
  {
    CallerVariables(options)["shopIds" := List([Str(shopId)])]
  }

  /** `` `/${slug}` ``; an absent slug is rendered as the text `undefined`. */
  function PathOf(p: CatalogProduct): (path: string)
    ensures |path| >= 1 && path[0] == '/'
    ensures p.slug.Some? ==> path[1..] == p.slug.value
    ensures p.slug.None? ==> path[1..] == "undefined"
  {
    "/" + p.slug.GetOr("undefined")
  }

  /** Whether the destructuring `{ node: { product: { slug } } }` can read an edge. */
  predicate HasProduct(e: Edge) {
    e.product.Some?
  }

  /** The path of every edge, in edge order; `None` when an edge has no
      product, where the destructuring throws. */
  function PathsOf(edges: seq<Edge>): (paths: Option<seq<string>>)
    ensures paths.Some? <==> forall i :: 0 <= i < |edges| ==> HasProduct(edges[i])
    ensures paths.Some? ==> |paths.value| == |edges|
    ensures paths.Some? ==> forall i :: 0 <= i < |edges| ==> paths.value[i] == PathOf(edges[i].product.value)
  {
    if edges == [] then Some([])
    else if edges[0].product.None? then None
    else
      match PathsOf(edges[1..])
      case None => None
      case Some(rest) => Some([PathOf(edges[0].product.value)] + rest)
  }

  /** `getAllProductPaths`, with the pagination allowed `fuel` requests. */
  function GetAllProductPaths(options: Option<Options>, shopId: string, source: Source, fuel: nat): (r: Paths)
    ensures var f := FetchAll(source, QueryVariables(options, shopId), [], None, fuel);
      && (r.Paths? <==> f.status.Done? && forall i :: 0 <= i < |f.status.edges| ==> HasProduct(f.status.edges[i]))
      && (r.MissingProduct? <==> f.status.Done? && exists i :: 0 <= i < |f.status.edges| && !HasProduct(f.status.edges[i]))
      && (r.FetchRejected? <==> f.status.Rejected?)
      && (r.Paths? ==> |r.paths| == |f.status.edges|)
  {
    var f := FetchAll(source, QueryVariables(options, shopId), [], None, fuel);
    match f.status
    case Done(edges) =>
      (match PathsOf(edges)
       case Some(paths) => Paths(paths)
       case None => MissingProduct)
    case Rejected => FetchRejected
    case OutOfFuel => FetchOutOfFuel
  }

  /** Every catalog request is scoped to the configured shop (overriding any
      caller `shopIds`), keeps the caller's other variables, and asks for the
      default page size of 250 when the caller supplied no variables. */
  lemma ProductPathRequests(options: Option<Options>, shopId: string, source: Source, fuel: nat)
    ensures var vars := QueryVariables(options, shopId);
      forall i :: 0 <= i < |FetchAll(source, vars, [], None, fuel).requests| ==>
        var request := FetchAll(source, vars, [], None, fuel).requests[i];
        && request["shopIds"] == List([Str(shopId)])
        && ((options.None? || options.value.variables.None?) ==> request["first"] == Num(DefaultPageSize))
  {
    var vars := QueryVariables(options, shopId);
    FetchAllKeepsVariables(source, vars, [], None, fuel);
    var r := FetchAll(source, vars, [], None, fuel);
    forall i | 0 <= i < |r.requests|
      ensures r.requests[i]["shopIds"] == List([Str(shopId)])
      ensures (options.None? || options.value.variables.None?) ==> r.requests[i]["first"] == Num(DefaultPageSize)
    {
      assert KeepsCallerVariables(r.requests[i], vars);
      if options.None? || options.value.variables.None? {
        assert "first" in vars;
      }
    }
  }

  /** The paths are the fetched products' slugs, one per edge and in edge
      order, each behind a leading slash: stripping that slash gives back the slug. */
  lemma {:induction false} PathsMatchSlugs(options: Option<Options>, shopId: string, source: Source, fuel: nat)
    requires GetAllProductPaths(options, shopId, source, fuel).Paths?
    ensures var edges := FetchAll(source, QueryVariables(options, shopId), [], None, fuel).status.edges;
      var paths := GetAllProductPaths(options, shopId, source, fuel).paths;
      && |paths| == |edges|
      && forall i :: 0 <= i < |edges| ==>
           && HasProduct(edges[i])
           && paths[i][0] == '/'
           && (edges[i].product.value.slug.Some? ==> paths[i][1..] == edges[i].product.value.slug.value)
  {
    var edges := FetchAll(source, QueryVariables(options, shopId), [], None, fuel).status.edges;
    assert GetAllProductPaths(options, shopId, source, fuel).paths == PathsOf(edges).value;
  }
}
