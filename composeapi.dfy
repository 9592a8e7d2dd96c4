/**
 * The client package: the records the API returns, the HAL envelopes that
 * wrap its collections, the requests the client sends and the typed
 * getters that unwrap the replies.
 *
 * The HTTP round trip is a parameter: a `Transport` maps each request to
 * the reply received, a body and the transport's error list. Decoding is
 * not modelled either: a reply's body carries, for each record type the
 * client decodes into, what the JSON decoder yields for that text (None
 * when the text is not well-formed JSON, in which case the decoder leaves
 * its target at the zero value).
 */
module ComposeApi {
  import opened Wrappers

  /** The API's versioned base URL; every endpoint is appended to it. */
  const ApiBase: string := "https://api.compose.io/2016-07/"

  /** An instant, kept opaque: only its `%s` rendering is ever used. */
  datatype Time = Time(rendered: string)

  /** The zero instant, as Go renders it. */
  const ZeroTime := Time("0001-01-01 00:00:00 +0000 UTC")

  /** A HAL link; `href` may still hold an unexpanded URI template. */
  datatype Link = Link(href: string, templated: bool)

  datatype Account = Account(id: string, slug: string, name: string)

  /** A recipe; `children` is its `_embedded.recipes` list. */
  datatype Recipe = Recipe(
    id: string, template: string, status: string, statusDetail: string,
    accountId: string, deploymentId: string, name: string,
    createdAt: Time, children: seq<Recipe>)

  /** A cluster; `kind` is the JSON field `type`. */
  datatype Cluster = Cluster(
    id: string, accountId: string, name: string, kind: string,
    provider: string, region: string, multitenant: bool,
    accountSlug: string, createdAt: Time, subdomain: string)

  datatype User = User(id: string)

  datatype ConnectionStrings = ConnectionStrings(
    health: string, ssh: string, admin: string, sshAdmin: string,
    cli: seq<string>, direct: seq<string>)

  /**
   * A deployment. `error` is the server's `errors.error` text, empty unless
   * it refused a creation; `kind` is the JSON field `type`; `webUi` is
   * `_links.compose_web_ui`.
   */
  datatype Deployment = Deployment(
    error: string, id: string, name: string, kind: string, createdAt: Time,
    provisionRecipeId: string, caCertificateBase64: string,
    connection: ConnectionStrings, webUi: Link)

  /** The body of a creation request. Empty strings, zero and false are left out of it. */
  datatype CreateDeploymentParams = CreateDeploymentParams(
    name: string, accountId: string, clusterId: string, datacenter: string,
    databaseType: string, version: string, units: int, ssl: bool, wiredTiger: bool)

  /** `_embedded.accounts`, `_embedded.deployments`, `_embedded.clusters`; a missing key decodes to []. */
  datatype AccountResponse = AccountResponse(accounts: seq<Account>)
  datatype DeploymentsResponse = DeploymentsResponse(deployments: seq<Deployment>)
  datatype ClustersResponse = ClustersResponse(clusters: seq<Cluster>)

  const ZeroRecipe := Recipe("", "", "", "", "", "", "", ZeroTime, [])
  const ZeroDeployment := Deployment("", "", "", "", ZeroTime, "", "",
    ConnectionStrings("", "", "", "", [], []), Link("", false))

  /**
   * A response body: its text and its decoding into each target type the
   * client uses (None: not well-formed JSON).
   */
  datatype Body = Body(
    text: string,
    accounts: Option<AccountResponse>,
    deployments: Option<DeploymentsResponse>,
    recipe: Option<Recipe>,
    clusters: Option<ClustersResponse>,
    user: Option<User>,
    deployment: Option<Deployment>)

  datatype TransportError = TransportError(message: string)

  /** What the HTTP library hands back; no errors is the empty list. */
  datatype Reply = Reply(body: Body, errs: seq<TransportError>)

  datatype Verb = Get | Post

  datatype Header = Header(name: string, value: string)

  datatype Request = Request(verb: Verb, url: string, headers: seq<Header>, payload: Option<CreateDeploymentParams>)

  /** The network, as a function from request to reply. */
  type Transport = Request -> Reply

  /** A typed getter's result: the value, or the transport's errors untouched. */
  datatype Fetch<T> = Fetched(value: T) | Failed(errs: seq<TransportError>)

  /** The resources the client reads. */
  datatype Endpoint =
    | Accounts
    | Deployments
    | RecipeOf(recipeId: string)
    | RecipesOf(deploymentId: string)
    | Clusters
    | CurrentUser

  /** The path of an endpoint below `ApiBase`; ids are spliced in verbatim, unescaped. */
  function Path(e: Endpoint): string {
    match e
    case Accounts => "accounts"
    case Deployments => "deployments"
    case RecipeOf(id) => "recipes/" + id
    case RecipesOf(id) => "deployments/" + id + "/recipes"
    case Clusters => "clusters"
    case CurrentUser => "user"
  }

  /** Reads a path back into the endpoint it names. */
  function ParsePath(path: string): Option<Endpoint> {
    if path == "accounts" then Some(Accounts)
    else if path == "deployments" then Some(Deployments)
    else if path == "clusters" then Some(Clusters)
    else if path == "user" then Some(CurrentUser)
    else if |path| >= 8 && path[..8] == "recipes/" then Some(RecipeOf(path[8..]))
    else if |path| >= 20 && path[..12] == "deployments/" && path[|path| - 8..] == "/recipes"
    then Some(RecipesOf(path[12..|path| - 8]))
    else None
  }

  /**
   * Every endpoint's URL determines the endpoint, ids included: no two
   * resources, and no two ids of one resource, share a URL.
   */
  lemma PathRoundTrip(e: Endpoint)
    ensures |ApiBase + Path(e)| >= |ApiBase|
    ensures (ApiBase + Path(e))[..|ApiBase|] == ApiBase
    ensures ParsePath((ApiBase + Path(e))[|ApiBase|..]) == Some(e)
  {
    var path := Path(e);
    assert (ApiBase + path)[|ApiBase|..] == path;
    match e
    case RecipeOf(id) =>
      assert path[0] == 'r';
      assert path[..8] == "recipes/" && path[8..] == id;
    case RecipesOf(id) =>
      assert path[0] == 'd' && path[11] == '/';
      assert path[..12] == "deployments/";
      assert path[|path| - 8..] == "/recipes";
      assert path[12..|path| - 8] == id;
    case _ =>
  }

  /** The bearer-token header every request carries. */
  function Authorization(token: string): Header {
    Header("Authorization", "Bearer " + token)
  }

  /** `getJSON`'s request: a GET of `ApiBase` + the endpoint's path. */
  function GetRequest(token: string, e: Endpoint): (r: Request)
    ensures r.verb == Get && r.payload == None
    ensures r.url == ApiBase + Path(e)
    ensures Authorization(token) in r.headers
  {
    Request(Get, ApiBase + Path(e), [Authorization(token), Header("Content-type", "json")], None)
  }

  /** `CreateDeploymentJSON`'s request: a POST of the parameters to the deployments URL. */
  function CreateRequest(token: string, params: CreateDeploymentParams): (r: Request)
    ensures r.verb == Post && r.payload == Some(params)
    ensures r.url == ApiBase + Path(Deployments)
    ensures Authorization(token) in r.headers
  {
    Request(Post, ApiBase + "deployments",
      [Authorization(token), Header("Content-type", "application/json; charset=utf-8")], Some(params))
  }

  /** A raw getter's result: the body text and the error list, both passed through. */
  datatype Raw = Raw(text: string, errs: seq<TransportError>)

  /** `getJSON` (and each `Get*JSON` wrapper): one GET, body and errors returned as received. */
  function GetJSON(token: string, t: Transport, e: Endpoint): (r: Raw)
    ensures r.text == t(GetRequest(token, e)).body.text
    ensures r.errs == t(GetRequest(token, e)).errs
  {
    var reply := t(GetRequest(token, e));
    Raw(reply.body.text, reply.errs)
  }

  /** The accounts list `GetAccount` indexes: the decoded envelope's, or [] for a malformed body. */
  function DecodedAccounts(reply: Reply): seq<Account> {
    reply.body.accounts.GetOr(AccountResponse([])).accounts
  }

  /** `GetAccount` only indexes when there are no errors, and index 0 must exist then. */
  predicate AccountIndexable(reply: Reply) {
    reply.errs != [] || |DecodedAccounts(reply)| > 0
  }

  /** The first account of the `accounts` envelope, in response order. */
  function GetAccount(token: string, t: Transport): (r: Fetch<Account>)
    requires AccountIndexable(t(GetRequest(token, Accounts)))
    ensures var reply := t(GetRequest(token, Accounts));
      && (r.Failed? <==> reply.errs != [])
      && (r.Failed? ==> r.errs == reply.errs)
      && (r.Fetched? ==> reply.body.accounts.Some? && r.value == reply.body.accounts.value.accounts[0])
  {
    var reply := t(GetRequest(token, Accounts));
    if reply.errs != [] then Failed(reply.errs) else Fetched(DecodedAccounts(reply)[0])
  }

  /** The `_embedded.deployments` list, same length and order; [] for a malformed body. */
  function GetDeployments(token: string, t: Transport): (r: Fetch<seq<Deployment>>)
    ensures var reply := t(GetRequest(token, Deployments));
      && (r.Failed? <==> reply.errs != [])
      && (r.Failed? ==> r.errs == reply.errs)
      && (r.Fetched? && reply.body.deployments.Some? ==> r.value == reply.body.deployments.value.deployments)
      && (r.Fetched? && reply.body.deployments.None? ==> r.value == [])
  {
    var reply := t(GetRequest(token, Deployments));
    if reply.errs != [] then Failed(reply.errs)
    else Fetched(reply.body.deployments.GetOr(DeploymentsResponse([])).deployments)
  }

  /** The decoded recipe; the `rawmode` argument plays no part; zero recipe for a malformed body. */
  function GetRecipe(rawmode: bool, token: string, t: Transport, recipeId: string): (r: Fetch<Recipe>)
    ensures var reply := t(GetRequest(token, RecipeOf(recipeId)));
      && (r.Failed? <==> reply.errs != [])
      && (r.Failed? ==> r.errs == reply.errs)
      && (r.Fetched? ==> r.value == reply.body.recipe.GetOr(ZeroRecipe))
      && (r.Fetched? && reply.body.recipe.None? ==> r.value.id == "" && r.value.children == [])
  {
    var reply := t(GetRequest(token, RecipeOf(recipeId)));
    if reply.errs != [] then Failed(reply.errs) else Fetched(reply.body.recipe.GetOr(ZeroRecipe))
  }

  /** The raw-mode argument of `GetRecipe` changes nothing. */
  lemma GetRecipeIgnoresRawMode(token: string, t: Transport, recipeId: string)
    ensures GetRecipe(true, token, t, recipeId) == GetRecipe(false, token, t, recipeId)
  {
  }

  /**
   * The `_embedded.recipes` list of the body read as a single recipe, same
   * length and order; [] for a malformed body.
   */
  function GetRecipesForDeployment(token: string, t: Transport, deploymentId: string): (r: Fetch<seq<Recipe>>)
    ensures var reply := t(GetRequest(token, RecipesOf(deploymentId)));
      && (r.Failed? <==> reply.errs != [])
      && (r.Failed? ==> r.errs == reply.errs)
      && (r.Fetched? && reply.body.recipe.Some? ==> r.value == reply.body.recipe.value.children)
      && (r.Fetched? && reply.body.recipe.None? ==> r.value == [])
  {
    var reply := t(GetRequest(token, RecipesOf(deploymentId)));
    if reply.errs != [] then Failed(reply.errs) else Fetched(reply.body.recipe.GetOr(ZeroRecipe).children)
  }

  /** The `_embedded.clusters` list, same length and order; [] for a malformed body. */
  function GetClusters(token: string, t: Transport): (r: Fetch<seq<Cluster>>)
    ensures var reply := t(GetRequest(token, Clusters));
      && (r.Failed? <==> reply.errs != [])
      && (r.Failed? ==> r.errs == reply.errs)
      && (r.Fetched? && reply.body.clusters.Some? ==> r.value == reply.body.clusters.value.clusters)
      && (r.Fetched? && reply.body.clusters.None? ==> r.value == [])
  {
    var reply := t(GetRequest(token, Clusters));
    if reply.errs != [] then Failed(reply.errs)
    else Fetched(reply.body.clusters.GetOr(ClustersResponse([])).clusters)
  }

  /** The decoded user; a user with an empty id for a malformed body. */
  function GetUser(token: string, t: Transport): (r: Fetch<User>)
    ensures var reply := t(GetRequest(token, CurrentUser));
      && (r.Failed? <==> reply.errs != [])
      && (r.Failed? ==> r.errs == reply.errs)
      && (r.Fetched? ==> r.value == reply.body.user.GetOr(User("")))
  {
    var reply := t(GetRequest(token, CurrentUser));
    if reply.errs != [] then Failed(reply.errs) else Fetched(reply.body.user.GetOr(User("")))
  }

  /**
   * The decoded deployment of the POST's reply. A server-side refusal is
   * not an error here: it is a fetched deployment whose `error` is set.
   */
  function CreateDeployment(token: string, t: Transport, params: CreateDeploymentParams): (r: Fetch<Deployment>)
    ensures var reply := t(CreateRequest(token, params));
      && (r.Failed? <==> reply.errs != [])
      && (r.Failed? ==> r.errs == reply.errs)
      && (r.Fetched? ==> r.value == reply.body.deployment.GetOr(ZeroDeployment))
      && (r.Fetched? && reply.body.deployment.Some? ==> r.value.error == reply.body.deployment.value.error)
  {
    var reply := t(CreateRequest(token, params));
    if reply.errs != [] then Failed(reply.errs) else Fetched(reply.body.deployment.GetOr(ZeroDeployment))
  }
}
