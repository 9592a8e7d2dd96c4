/**
 * The command-line front end: one method per verb, each issuing its
 * requests through the client and emitting standard-output lines one
 * after another, and `Run`, the dispatch of `main`.
 *
 * An invocation's result is an `Outcome`: the requests it sent, in order,
 * the lines it printed, and how it ended: normally, through `log.Fatal`
 * (message on the diagnostic stream, exit status 1) or through a Go
 * runtime panic (exit status 2).
 */
module Cocli {
  import opened Wrappers
  import opened Text
  import opened Strings
  import ComposeApi

  /** The global flags `--raw`, `--fmt` and `--fullca`, all false by default. */
  datatype Flags = Flags(raw: bool, fmt: bool, fullca: bool)

  /** The verbs, with their arguments and flags ("" when not given). */
  datatype Command =
    | ShowAccountCmd
    | ShowDeploymentsCmd
    | ShowRecipeCmd(recipeId: string)
    | ShowRecipesCmd(deploymentId: string)
    | ShowClustersCmd
    | ShowUserCmd
    | CreateDeploymentCmd(name: string, dbType: string, cluster: string, datacenter: string)

  /** A value printed with `printAsJSON`; its indented JSON text is left abstract. */
  datatype Document =
    | AccountDoc(account: ComposeApi.Account)
    | DeploymentsDoc(deployments: seq<ComposeApi.Deployment>)
    | RecipeDoc(recipe: ComposeApi.Recipe)
    | RecipesDoc(recipes: seq<ComposeApi.Recipe>)
    | ClustersDoc(clusters: seq<ComposeApi.Cluster>)
    | UserDoc(user: ComposeApi.User)
    | DeploymentDoc(deployment: ComposeApi.Deployment)

  /** One line of standard output. */
  datatype Line = Plain(text: string) | JsonOf(doc: Document)

  datatype Ending = Success | Fatal(message: string) | Panic(message: string)

  datatype Outcome = Outcome(requests: seq<ComposeApi.Request>, output: seq<Line>, ending: Ending)

  const TokenMissing := "COMPOSEAPITOKEN environment variable not set"
  const RawCreateRefused := "Raw mode not supported for createDeployment"
  const PlacementMissing := "Must supply either a --cluster id or --datacenter region"

  /** The runtime error of indexing the first account of an empty list. */
  const NoAccountPanic := "runtime error: index out of range [0] with length 0"

  /** The runtime error of taking the first 32 characters of a shorter certificate. */
  function CertSlicePanic(length: nat): string {
    "runtime error: slice bounds out of range [:32] with length " + Decimal(length)
  }

  /** The text `log.Fatal(errs)` reports for a list of errors: "[e1 e2 ...]". */
  function ErrorsText(errs: seq<ComposeApi.TransportError>): string {
    ListText(seq(|errs|, i requires 0 <= i < |errs| => errs[i].message))
  }

  // ---------------------------------------------------------------------
  // Formatted records

  /** The labels the formatted output uses. */
  datatype Label =
    | Id | Name | Slug | Type | CreatedAt | WebUiLink
    | Template | Status | StatusDetail | AccountId | DeploymentId | ChildRecipes
    | AccountSlug | Multitenant | Provider | Region | CreatedAd | Subdomain
    | ProvRecipeId | CaCertificate | Health | Ssh | Admin | SshAdmin | CliConnect | DirectConnect

  /** A label that fits the 15-column field and can be read back from it. */
  predicate FitsColumn(title: string) {
    0 < |title| <= LabelWidth && title[0] != ' '
  }

  /** The text of each label as printed. No label is wider than the column. */
  function LabelText(l: Label): (s: string)
    ensures FitsColumn(s)
  {
    match l
    case Id => "ID"
    case Name => "Name"
    case Slug => "Slug"
    case Type => "Type"
    case CreatedAt => "Created At"
    case WebUiLink => "Web UI Link"
    case Template => "Template"
    case Status => "Status"
    case StatusDetail => "Status Detail"
    case AccountId => "Account ID"
    case DeploymentId => "Deployment ID"
    case ChildRecipes => "Child Recipes"
    case AccountSlug => "Account Slug"
    case Multitenant => "Multitenant"
    case Provider => "Provider"
    case Region => "Region"
    case CreatedAd => "Created Ad"
    case Subdomain => "Subdomain"
    case ProvRecipeId => "Prov Recipe ID"
    case CaCertificate => "CA Certificate"
    case Health => "Health"
    case Ssh => "SSH"
    case Admin => "Admin"
    case SshAdmin => "SSHAdmin"
    case CliConnect => "CLI Connect"
    case DirectConnect => "Direct Connect"
  }

  /** One labelled value of a formatted record. */
  datatype Field = Field(title: Label, value: string)

  /** The printed lines of a record, one `%15s: %s` line per field. */
  function Lines(fs: seq<Field>): seq<Line> {
    seq(|fs|, i requires 0 <= i < |fs| => Plain(FieldLine(LabelText(fs[i].title), fs[i].value)))
  }

  function Labels(fs: seq<Field>): seq<Label> {
    seq(|fs|, i requires 0 <= i < |fs| => fs[i].title)
  }

  lemma LinesAppend(a: seq<Field>, b: seq<Field>)
    ensures Lines(a + b) == Lines(a) + Lines(b)
  {
  }

  lemma LabelsAppend(a: seq<Field>, b: seq<Field>)
    ensures Labels(a + b) == Labels(a) + Labels(b)
  {
  }

  /**
   * Every line of a record is its label right-aligned in 15 columns, ": ",
   * and the value, and reads back as that label and value.
   */
  lemma LinesRoundTrip(fs: seq<Field>)
    ensures |Lines(fs)| == |fs|
    ensures forall i :: 0 <= i < |fs| ==>
      && |Lines(fs)[i].text| == LabelWidth + 2 + |fs[i].value|
      && Lines(fs)[i].text[LabelWidth..LabelWidth + 2] == ": "
      && ParseFieldLine(Lines(fs)[i].text) == Some((LabelText(fs[i].title), fs[i].value))
  {
    forall i | 0 <= i < |fs|
      ensures && |Lines(fs)[i].text| == LabelWidth + 2 + |fs[i].value|
              && Lines(fs)[i].text[LabelWidth..LabelWidth + 2] == ": "
              && ParseFieldLine(Lines(fs)[i].text) == Some((LabelText(fs[i].title), fs[i].value))
    {
      FieldLineLayout(LabelText(fs[i].title), fs[i].value);
      FieldLineRoundTrip(LabelText(fs[i].title), fs[i].value);
    }
  }

  /** The blank line `fmt.Println()` ends a record with. */
  const Blank := Plain("")

  /** The HAL template fragment `getLink` strips. */
  const EmbedTemplate := "{?embed}"

  /**
   * `getLink`: the href with every leftmost, non-overlapping occurrence of
   * "{?embed}" removed in one pass. Its properties are the lemma
   * `GetLinkStrips`, so records that print a link carry only the body.
   */
  function GetLink(link: ComposeApi.Link): string {
    RemoveAll(link.href, EmbedTemplate)
  }

  /**
   * `getLink` keeps exactly what the character scan keeps, shortens the
   * href by eight characters per fragment (Go's `strings.Count`), and
   * returns the href itself exactly when it holds no fragment.
   */
  lemma GetLinkStrips(link: ComposeApi.Link)
    ensures GetLink(link) == ScanRemove(link.href, EmbedTemplate)
    ensures |GetLink(link)| == |link.href| - 8 * Occurrences(link.href, EmbedTemplate)
    ensures GetLink(link) == link.href <==> !Contains(link.href, EmbedTemplate)
  {
    RemoveAllIsScan(link.href, EmbedTemplate);
    RemoveAllLength(link.href, EmbedTemplate);
    RemoveAllUnchangedIff(link.href, EmbedTemplate);
  }

  /** A template at the end of a link with no other brace is stripped off. */
  lemma GetLinkStripsTrailingTemplate(base: string)
    requires forall i :: 0 <= i < |base| ==> base[i] != '{'
    ensures GetLink(ComposeApi.Link(base + EmbedTemplate, true)) == base
  {
    var s := base + EmbedTemplate + [];
    assert s == base + EmbedTemplate;
    forall j: nat | j < |base| ensures !OccursAt(s, EmbedTemplate, j) {
      Mismatch(s[j..], EmbedTemplate, 0);
    }
    ScanAround(base, EmbedTemplate, []);
    GetLinkStrips(ComposeApi.Link(s, true));
  }

  /** The fragment starts nowhere in the first four characters of "{?em{?embed}bed}". */
  lemma NoEarlyFragment(s: string)
    requires s == "{?em" + EmbedTemplate + "bed}"
    ensures forall j: nat :: j < 4 ==> !OccursAt(s, EmbedTemplate, j)
  {
    forall j: nat | j < 4 ensures !OccursAt(s, EmbedTemplate, j) {
      Mismatch(s[j..], EmbedTemplate, if j == 0 then 4 else 0);
    }
  }

  /** One pass over "{?em{?embed}bed}" drops the inner fragment and keeps the outer one it exposes. */
  lemma ScanExposesFragment(s: string)
    requires s == "{?em{?embed}bed}"
    ensures ScanRemove(s, EmbedTemplate) == EmbedTemplate
  {
    var x, y := "{?em", "bed}";
    assert s == x + EmbedTemplate + y;
    assert x + y == EmbedTemplate;
    NoEarlyFragment(s);
    ScanExposes(x, y, EmbedTemplate);
  }

  /**
   * `getLink` does not rescan what it splices: its result can hold the
   * fragment again, so applying it twice differs from applying it once.
   */
  lemma GetLinkSinglePass()
    ensures GetLink(ComposeApi.Link("{?em{?embed}bed}", true)) == EmbedTemplate
    ensures GetLink(ComposeApi.Link(EmbedTemplate, true)) == ""
  {
    GetLinkStrips(ComposeApi.Link("{?em{?embed}bed}", true));
    ScanExposesFragment("{?em{?embed}bed}");
    GetLinkStripsTrailingTemplate("");
    assert "" + EmbedTemplate == EmbedTemplate;
  }

  /** The account fields of `show account --fmt`. */
  function AccountFields(a: ComposeApi.Account): (fs: seq<Field>)
    ensures Labels(fs) == [Id, Name, Slug]
  {
    [Field(Id, a.id), Field(Name, a.name), Field(Slug, a.slug)]
  }

  /** The per-deployment fields of `show deployments --fmt`. */
  function DeploymentSummary(d: ComposeApi.Deployment): (fs: seq<Field>)
    ensures Labels(fs) == [Id, Name, Type, CreatedAt, WebUiLink]
    ensures fs[4].value == GetLink(d.webUi)
  {
    [Field(Id, d.id), Field(Name, d.name), Field(Type, d.kind),
     Field(CreatedAt, d.createdAt.rendered), Field(WebUiLink, GetLink(d.webUi))]
  }

  /** `printRecipe`: eight fields, the last the number of direct children. */
  function RecipeFields(r: ComposeApi.Recipe): (fs: seq<Field>)
    ensures Labels(fs) == [Id, Template, Status, StatusDetail, AccountId, DeploymentId, Name, ChildRecipes]
  {
    [Field(Id, r.id), Field(Template, r.template), Field(Status, r.status),
     Field(StatusDetail, r.statusDetail), Field(AccountId, r.accountId),
     Field(DeploymentId, r.deploymentId), Field(Name, r.name),
     Field(ChildRecipes, Decimal(|r.children|))]
  }

  /** All recipes of a tree: the recipe and every descendant. */
  function TreeSize(r: ComposeApi.Recipe): nat {
    1 + ForestSize(r.children)
  }

  function ForestSize(rs: seq<ComposeApi.Recipe>): nat
    decreases rs
  {
    if rs == [] then 0 else TreeSize(rs[0]) + ForestSize(rs[1..])
  }

  /**
   * The count `printRecipe` shows is the number of direct children, read
   * back from its digits.
   */
  lemma ChildCountIsDirect(r: ComposeApi.Recipe)
    ensures IsDigits(RecipeFields(r)[7].value)
    ensures DecimalValue(RecipeFields(r)[7].value) == |r.children|
  {
    DecimalRoundTrip(|r.children|);
  }

  /** A recipe with one child that itself has a child shows "1", though its tree holds three recipes. */
  lemma ChildCountExample()
    ensures var leaf := ComposeApi.ZeroRecipe;
      var mid := leaf.(children := [leaf]);
      var top := leaf.(children := [mid]);
      RecipeFields(top)[7].value == "1" && TreeSize(top) == 3
  {
    var leaf := ComposeApi.ZeroRecipe;
    var mid := leaf.(children := [leaf]);
    var top := leaf.(children := [mid]);
    assert ForestSize([leaf]) == 1 by { assert [leaf][1..] == []; }
    assert ForestSize([mid]) == 2 by { assert [mid][1..] == []; }
  }

  /**
   * `printCluster`: ten fields. The creation time is labelled "Created Ad",
   * as the source spells it.
   */
  function ClusterFields(c: ComposeApi.Cluster): (fs: seq<Field>)
    ensures Labels(fs) == [Id, AccountId, AccountSlug, Name, Type, Multitenant,
                           Provider, Region, CreatedAd, Subdomain]
    ensures fs[5].value == (if c.multitenant then "true" else "false")
  {
    [Field(Id, c.id), Field(AccountId, c.accountId), Field(AccountSlug, c.accountSlug),
     Field(Name, c.name), Field(Type, c.kind), Field(Multitenant, BoolText(c.multitenant)),
     Field(Provider, c.provider), Field(Region, c.region),
     Field(CreatedAd, c.createdAt.rendered), Field(Subdomain, c.subdomain)]
  }

  /** The user field of `show user --fmt`. */
  function UserFields(u: ComposeApi.User): (fs: seq<Field>)
    ensures Labels(fs) == [Id]
  {
    [Field(Id, u.id)]
  }

  /** `printDeployment` slices the certificate's first 32 characters unless it is empty or shown in full. */
  predicate CaPrintable(cert: string, fullca: bool) {
    cert == "" || fullca || |cert| >= 32
  }

  /** The certificate as `printDeployment` shows it: whole, or its first 32 characters and "...". */
  function CaValue(cert: string, fullca: bool): (v: string)
    requires fullca || |cert| >= 32
    ensures fullca ==> v == cert
    ensures !fullca ==> |v| == 35 && v[..32] == cert[..32] && v[32..] == "..."
  {
    if fullca then cert else cert[..32] + "..."
  }

  /** The fields `printDeployment` prints before the certificate. */
  function DeploymentHead(d: ComposeApi.Deployment): (fs: seq<Field>)
    ensures Labels(fs) == [Id, Name, Type, CreatedAt] + (if d.provisionRecipeId != "" then [ProvRecipeId] else [])
  {
    [Field(Id, d.id), Field(Name, d.name), Field(Type, d.kind), Field(CreatedAt, d.createdAt.rendered)]
    + (if d.provisionRecipeId != "" then [Field(ProvRecipeId, d.provisionRecipeId)] else [])
  }

  /** The certificate field, present only for a non-empty certificate. */
  function CaFields(cert: string, fullca: bool): (fs: seq<Field>)
    requires CaPrintable(cert, fullca)
    ensures Labels(fs) == if cert != "" then [CaCertificate] else []
  {
    if cert != "" then [Field(CaCertificate, CaValue(cert, fullca))] else []
  }

  /** The fields `printDeployment` prints after the certificate; the two lists print as "[a b]". */
  function DeploymentTail(d: ComposeApi.Deployment): (fs: seq<Field>)
    ensures Labels(fs) == [WebUiLink, Health, Ssh, Admin, SshAdmin, CliConnect, DirectConnect]
  {
    [Field(WebUiLink, GetLink(d.webUi)), Field(Health, d.connection.health),
     Field(Ssh, d.connection.ssh), Field(Admin, d.connection.admin),
     Field(SshAdmin, d.connection.sshAdmin), Field(CliConnect, ListText(d.connection.cli)),
     Field(DirectConnect, ListText(d.connection.direct))]
  }

  /** All fields `printDeployment` prints when it does not panic. */
  function DeploymentFields(d: ComposeApi.Deployment, fullca: bool): seq<Field>
    requires CaPrintable(d.caCertificateBase64, fullca)
  {
    DeploymentHead(d) + CaFields(d.caCertificateBase64, fullca) + DeploymentTail(d)
  }

  /** The labels of a deployment record, with the two optional ones marked. */
  function RecordLabels(hasProv: bool, hasCa: bool): seq<Label> {
    [Id, Name, Type, CreatedAt]
    + (if hasProv then [ProvRecipeId] else [])
    + (if hasCa then [CaCertificate] else [])
    + [WebUiLink, Health, Ssh, Admin, SshAdmin, CliConnect, DirectConnect]
  }

  /** The record has eleven fixed lines and holds each optional label exactly when it is asked for. */
  lemma RecordShape(hasProv: bool, hasCa: bool)
    ensures |RecordLabels(hasProv, hasCa)| == 11 + (if hasProv then 1 else 0) + (if hasCa then 1 else 0)
    ensures ProvRecipeId in RecordLabels(hasProv, hasCa) <==> hasProv
    ensures CaCertificate in RecordLabels(hasProv, hasCa) <==> hasCa
  {
    var fixed := [Id, Name, Type, CreatedAt];
    var prov: seq<Label> := if hasProv then [ProvRecipeId] else [];
    var ca: seq<Label> := if hasCa then [CaCertificate] else [];
    var tail := [WebUiLink, Health, Ssh, Admin, SshAdmin, CliConnect, DirectConnect];
    assert RecordLabels(hasProv, hasCa) == fixed + prov + ca + tail;
    assert ProvRecipeId !in fixed && ProvRecipeId !in ca && ProvRecipeId !in tail;
    assert CaCertificate !in fixed && CaCertificate !in prov && CaCertificate !in tail;
  }

  /** `printDeployment`'s labels, in order. */
  lemma DeploymentLabels(d: ComposeApi.Deployment, fullca: bool)
    requires CaPrintable(d.caCertificateBase64, fullca)
    ensures Labels(DeploymentFields(d, fullca))
      == RecordLabels(d.provisionRecipeId != "", d.caCertificateBase64 != "")
  {
    var head, ca, tail := DeploymentHead(d), CaFields(d.caCertificateBase64, fullca), DeploymentTail(d);
    LabelsAppend(head, ca);
    LabelsAppend(head + ca, tail);
  }

  /**
   * The deployment record: its labels in order; the provisioning-recipe and
   * certificate lines present exactly when those fields are non-empty.
   */
  lemma DeploymentRecord(d: ComposeApi.Deployment, fullca: bool)
    requires CaPrintable(d.caCertificateBase64, fullca)
    ensures var hasProv, hasCa := d.provisionRecipeId != "", d.caCertificateBase64 != "";
      var fs := DeploymentFields(d, fullca);
      && Labels(fs) == RecordLabels(hasProv, hasCa)
      && |fs| == 11 + (if hasProv then 1 else 0) + (if hasCa then 1 else 0)
      && (ProvRecipeId in Labels(fs) <==> hasProv)
      && (CaCertificate in Labels(fs) <==> hasCa)
  {
    DeploymentLabels(d, fullca);
    RecordShape(d.provisionRecipeId != "", d.caCertificateBase64 != "");
  }

  /** With the certificate truncated, its line shows exactly its first 32 characters and "...". */
  lemma TruncatedCertificateLine(d: ComposeApi.Deployment)
    requires |d.caCertificateBase64| >= 32
    ensures var fs := DeploymentFields(d, false);
      var k := |DeploymentHead(d)|;
      && k < |fs| && fs[k] == Field(CaCertificate, d.caCertificateBase64[..32] + "...")
      && Lines(fs)[k].text == FieldLine("CA Certificate", d.caCertificateBase64[..32] + "...")
  {
    var v := CaValue(d.caCertificateBase64, false);
    assert v == d.caCertificateBase64[..32] + "...";
  }

  /** With `--fullca`, the certificate line shows the whole certificate. */
  lemma FullCertificateLine(d: ComposeApi.Deployment)
    requires d.caCertificateBase64 != ""
    ensures var fs := DeploymentFields(d, true);
      var k := |DeploymentHead(d)|;
      k < |fs| && fs[k] == Field(CaCertificate, d.caCertificateBase64)
  {
  }

  // ---------------------------------------------------------------------
  // List output

  /** The lines of a list: each item's block in order. */
  function Blocks<T>(xs: seq<T>, block: T -> seq<Line>): seq<Line>
    decreases |xs|
  {
    if xs == [] then [] else Blocks(xs[..|xs| - 1], block) + block(xs[|xs| - 1])
  }

  lemma BlocksSnoc<T>(xs: seq<T>, i: nat, block: T -> seq<Line>)
    requires i < |xs|
    ensures Blocks(xs[..i + 1], block) == Blocks(xs[..i], block) + block(xs[i])
  {
    assert xs[..i + 1][..i] == xs[..i];
  }

  /**
   * When every block has `n` lines, a list of `m` items prints `n * m`
   * lines and item `i`'s block sits at lines `n * i` to `n * i + n`.
   */
  lemma {:induction false} BlocksAt<T>(xs: seq<T>, block: T -> seq<Line>, n: nat)
    requires forall x :: |block(x)| == n
    ensures |Blocks(xs, block)| == n * |xs|
    ensures forall i :: 0 <= i < |xs| ==>
      n * i + n <= |Blocks(xs, block)| && Blocks(xs, block)[n * i..n * i + n] == block(xs[i])
    decreases |xs|
  {
    if xs != [] {
      var m := |xs|;
      var init := xs[..m - 1];
      BlocksAt(init, block, n);
      var all := Blocks(xs, block);
      assert all == Blocks(init, block) + block(xs[m - 1]);
      assert n * (m - 1) + n == n * m;
      forall i | 0 <= i < m
        ensures n * i + n <= |all| && all[n * i..n * i + n] == block(xs[i])
      {
        if i < m - 1 {
          assert n * i + n <= n * (m - 1) by { MulMono(n, i + 1, m - 1); }
          assert init[i] == xs[i];
        }
      }
    }
  }

  lemma MulMono(n: nat, a: nat, b: nat)
    requires a <= b
    ensures n * a <= n * b
  {
  }

  /** A deployment's block in `show deployments --fmt`. */
  function SummaryBlock(d: ComposeApi.Deployment): seq<Line> {
    Lines(DeploymentSummary(d)) + [Blank]
  }

  /** A recipe's block in `show recipes --fmt`. */
  function RecipeBlock(r: ComposeApi.Recipe): seq<Line> {
    Lines(RecipeFields(r)) + [Blank]
  }

  /** A cluster's block in `show clusters --fmt`. */
  function ClusterBlock(c: ComposeApi.Cluster): seq<Line> {
    Lines(ClusterFields(c)) + [Blank]
  }

  /** `show deployments --fmt` prints six lines per deployment, each deployment's block at its own place. */
  lemma DeploymentListing(ds: seq<ComposeApi.Deployment>)
    ensures |Blocks(ds, SummaryBlock)| == 6 * |ds|
    ensures forall i :: 0 <= i < |ds| ==> Blocks(ds, SummaryBlock)[6 * i..6 * i + 6] == SummaryBlock(ds[i])
  {
    BlocksAt(ds, SummaryBlock, 6);
  }

  /** `show recipes --fmt` prints nine lines per recipe, each recipe's block at its own place. */
  lemma RecipeListing(rs: seq<ComposeApi.Recipe>)
    ensures |Blocks(rs, RecipeBlock)| == 9 * |rs|
    ensures forall i :: 0 <= i < |rs| ==> Blocks(rs, RecipeBlock)[9 * i..9 * i + 9] == RecipeBlock(rs[i])
  {
    BlocksAt(rs, RecipeBlock, 9);
  }

  /** `show clusters --fmt` prints eleven lines per cluster, each cluster's block at its own place. */
  lemma ClusterListing(cs: seq<ComposeApi.Cluster>)
    ensures |Blocks(cs, ClusterBlock)| == 11 * |cs|
    ensures forall i :: 0 <= i < |cs| ==> Blocks(cs, ClusterBlock)[11 * i..11 * i + 11] == ClusterBlock(cs[i])
  {
    BlocksAt(cs, ClusterBlock, 11);
  }

  // ---------------------------------------------------------------------
  // Commands

  /** Every request carries the bearer token and goes below the API's base URL. */
  predicate Authorized(requests: seq<ComposeApi.Request>, token: string) {
    forall r :: r in requests ==>
      && ComposeApi.Authorization(token) in r.headers
      && |r.url| >= |ComposeApi.ApiBase| && r.url[..|ComposeApi.ApiBase|] == ComposeApi.ApiBase
  }

  lemma GetAuthorized(token: string, e: ComposeApi.Endpoint)
    ensures Authorized([ComposeApi.GetRequest(token, e)], token)
  {
    ComposeApi.PathRoundTrip(e);
  }

  lemma CreateAuthorized(token: string, params: ComposeApi.CreateDeploymentParams)
    ensures Authorized([ComposeApi.GetRequest(token, ComposeApi.Accounts),
                        ComposeApi.CreateRequest(token, params)], token)
  {
    ComposeApi.PathRoundTrip(ComposeApi.Accounts);
    ComposeApi.PathRoundTrip(ComposeApi.Deployments);
  }

  /**
   * Raw mode: fatal with the transport's errors before printing anything,
   * otherwise the body printed as received.
   */
  predicate RawReported(o: Outcome, raw: ComposeApi.Raw) {
    if raw.errs != [] then o.output == [] && o.ending == Fatal(ErrorsText(raw.errs))
    else o.output == [Plain(raw.text)] && o.ending == Success
  }

  /**
   * Typed mode: fatal with the transport's errors before printing anything,
   * otherwise the fetched value shown as `shown`.
   */
  predicate Reported<T>(o: Outcome, f: ComposeApi.Fetch<T>, shown: seq<Line>) {
    if f.Failed? then o.output == [] && o.ending == Fatal(ErrorsText(f.errs))
    else o.output == shown && o.ending == Success
  }

  /**
   * `showAccount`. Raw: the body, or the errors. Typed: an empty account
   * list panics; errors are fatal; otherwise the ID/Name/Slug record and
   * a blank line with `--fmt`, or the account as JSON.
   */
  predicate ShowAccountSpec(o: Outcome, flags: Flags, token: string, t: ComposeApi.Transport) {
    var request := ComposeApi.GetRequest(token, ComposeApi.Accounts);
    && o.requests == [request]
    && if flags.raw then RawReported(o, ComposeApi.GetJSON(token, t, ComposeApi.Accounts))
       else if !ComposeApi.AccountIndexable(t(request)) then o.output == [] && o.ending == Panic(NoAccountPanic)
       else
         var f := ComposeApi.GetAccount(token, t);
         Reported(o, f, if f.Failed? then [] else if flags.fmt
           then Lines(AccountFields(f.value)) + [Blank] else [JsonOf(AccountDoc(f.value))])
  }

  /** `showDeployments`: with `--fmt`, one summary block per deployment, in the order received. */
  predicate ShowDeploymentsSpec(o: Outcome, flags: Flags, token: string, t: ComposeApi.Transport) {
    && o.requests == [ComposeApi.GetRequest(token, ComposeApi.Deployments)]
    && if flags.raw then RawReported(o, ComposeApi.GetJSON(token, t, ComposeApi.Deployments))
       else
         var f := ComposeApi.GetDeployments(token, t);
         Reported(o, f, if f.Failed? then [] else if flags.fmt
           then Blocks(f.value, SummaryBlock) else [JsonOf(DeploymentsDoc(f.value))])
  }

  /** `showRecipe`: with `--fmt`, the recipe record with no blank line after it. */
  predicate ShowRecipeSpec(o: Outcome, flags: Flags, token: string, t: ComposeApi.Transport, recipeId: string) {
    && o.requests == [ComposeApi.GetRequest(token, ComposeApi.RecipeOf(recipeId))]
    && if flags.raw then RawReported(o, ComposeApi.GetJSON(token, t, ComposeApi.RecipeOf(recipeId)))
       else
         var f := ComposeApi.GetRecipe(flags.raw, token, t, recipeId);
         Reported(o, f, if f.Failed? then [] else if flags.fmt
           then Lines(RecipeFields(f.value)) else [JsonOf(RecipeDoc(f.value))])
  }

  /** `showRecipes`: with `--fmt`, one recipe block and a blank line per recipe, in the order received. */
  predicate ShowRecipesSpec(o: Outcome, flags: Flags, token: string, t: ComposeApi.Transport, deploymentId: string) {
    && o.requests == [ComposeApi.GetRequest(token, ComposeApi.RecipesOf(deploymentId))]
    && if flags.raw then RawReported(o, ComposeApi.GetJSON(token, t, ComposeApi.RecipesOf(deploymentId)))
       else
         var f := ComposeApi.GetRecipesForDeployment(token, t, deploymentId);
         Reported(o, f, if f.Failed? then [] else if flags.fmt
           then Blocks(f.value, RecipeBlock) else [JsonOf(RecipesDoc(f.value))])
  }

  /** `showClusters`: with `--fmt`, one cluster block and a blank line per cluster, in the order received. */
  predicate ShowClustersSpec(o: Outcome, flags: Flags, token: string, t: ComposeApi.Transport) {
    && o.requests == [ComposeApi.GetRequest(token, ComposeApi.Clusters)]
    && if flags.raw then RawReported(o, ComposeApi.GetJSON(token, t, ComposeApi.Clusters))
       else
         var f := ComposeApi.GetClusters(token, t);
         Reported(o, f, if f.Failed? then [] else if flags.fmt
           then Blocks(f.value, ClusterBlock) else [JsonOf(ClustersDoc(f.value))])
  }

  /** `showUser`: with `--fmt`, the ID line and a blank line. */
  predicate ShowUserSpec(o: Outcome, flags: Flags, token: string, t: ComposeApi.Transport) {
    && o.requests == [ComposeApi.GetRequest(token, ComposeApi.CurrentUser)]
    && if flags.raw then RawReported(o, ComposeApi.GetJSON(token, t, ComposeApi.CurrentUser))
       else
         var f := ComposeApi.GetUser(token, t);
         Reported(o, f, if f.Failed? then [] else if flags.fmt
           then Lines(UserFields(f.value)) + [Blank] else [JsonOf(UserDoc(f.value))])
  }

  /** `showAccount`. */
  method ShowAccount(flags: Flags, token: string, t: ComposeApi.Transport) returns (o: Outcome)
    ensures ShowAccountSpec(o, flags, token, t)
    ensures o.ending.Fatal? ==> o.output == []
  {
    var request := ComposeApi.GetRequest(token, ComposeApi.Accounts);
    if flags.raw {
      var raw := ComposeApi.GetJSON(token, t, ComposeApi.Accounts);
      if raw.errs != [] {
        return Outcome([request], [], Fatal(ErrorsText(raw.errs)));
      }
      return Outcome([request], [Plain(raw.text)], Success);
    }
    if !ComposeApi.AccountIndexable(t(request)) {
      return Outcome([request], [], Panic(NoAccountPanic));
    }
    var account := ComposeApi.GetAccount(token, t);
    if account.Failed? {
      return Outcome([request], [], Fatal(ErrorsText(account.errs)));
    }
    if flags.fmt {
      o := Outcome([request], Lines(AccountFields(account.value)) + [Blank], Success);
    } else {
      o := Outcome([request], [JsonOf(AccountDoc(account.value))], Success);
    }
  }

  /** `showDeployments`: with `--fmt`, one block per deployment, in the order received. */
  method ShowDeployments(flags: Flags, token: string, t: ComposeApi.Transport) returns (o: Outcome)
    ensures ShowDeploymentsSpec(o, flags, token, t)
    ensures o.ending.Fatal? ==> o.output == []
    ensures !o.ending.Panic?
  {
    var request := ComposeApi.GetRequest(token, ComposeApi.Deployments);
    if flags.raw {
      var raw := ComposeApi.GetJSON(token, t, ComposeApi.Deployments);
      if raw.errs != [] {
        return Outcome([request], [], Fatal(ErrorsText(raw.errs)));
      }
      return Outcome([request], [Plain(raw.text)], Success);
    }
    var deployments := ComposeApi.GetDeployments(token, t);
    if deployments.Failed? {
      return Outcome([request], [], Fatal(ErrorsText(deployments.errs)));
    }
    var ds := deployments.value;
    if flags.fmt {
      var out: seq<Line> := [];
      for i := 0 to |ds|
        invariant out == Blocks(ds[..i], SummaryBlock)
      {
        BlocksSnoc(ds, i, SummaryBlock);
        out := out + Lines(DeploymentSummary(ds[i]));
        out := out + [Blank];
      }
      assert ds[..|ds|] == ds;
      o := Outcome([request], out, Success);
    } else {
      o := Outcome([request], [JsonOf(DeploymentsDoc(ds))], Success);
    }
  }

  /** `showRecipe`. */
  method ShowRecipe(flags: Flags, token: string, t: ComposeApi.Transport, recipeId: string) returns (o: Outcome)
    ensures ShowRecipeSpec(o, flags, token, t, recipeId)
    ensures o.ending.Fatal? ==> o.output == []
    ensures !o.ending.Panic?
  {
    var request := ComposeApi.GetRequest(token, ComposeApi.RecipeOf(recipeId));
    if flags.raw {
      var raw := ComposeApi.GetJSON(token, t, ComposeApi.RecipeOf(recipeId));
      if raw.errs != [] {
        return Outcome([request], [], Fatal(ErrorsText(raw.errs)));
      }
      return Outcome([request], [Plain(raw.text)], Success);
    }
    var recipe := ComposeApi.GetRecipe(flags.raw, token, t, recipeId);
    if recipe.Failed? {
      return Outcome([request], [], Fatal(ErrorsText(recipe.errs)));
    }
    if flags.fmt {
      o := Outcome([request], Lines(RecipeFields(recipe.value)), Success);
    } else {
      o := Outcome([request], [JsonOf(RecipeDoc(recipe.value))], Success);
    }
  }

  /** `showRecipes`: with `--fmt`, one block per recipe, in the order received. */
  method ShowRecipes(flags: Flags, token: string, t: ComposeApi.Transport, deploymentId: string) returns (o: Outcome)
    ensures ShowRecipesSpec(o, flags, token, t, deploymentId)
    ensures o.ending.Fatal? ==> o.output == []
    ensures !o.ending.Panic?
  {
    var request := ComposeApi.GetRequest(token, ComposeApi.RecipesOf(deploymentId));
    if flags.raw {
      var raw := ComposeApi.GetJSON(token, t, ComposeApi.RecipesOf(deploymentId));
      if raw.errs != [] {
        return Outcome([request], [], Fatal(ErrorsText(raw.errs)));
      }
      return Outcome([request], [Plain(raw.text)], Success);
    }
    var recipes := ComposeApi.GetRecipesForDeployment(token, t, deploymentId);
    if recipes.Failed? {
      return Outcome([request], [], Fatal(ErrorsText(recipes.errs)));
    }
    var rs := recipes.value;
    if flags.fmt {
      var out: seq<Line> := [];
      for i := 0 to |rs|
        invariant out == Blocks(rs[..i], RecipeBlock)
      {
        BlocksSnoc(rs, i, RecipeBlock);
        out := out + Lines(RecipeFields(rs[i]));
        out := out + [Blank];
      }
      assert rs[..|rs|] == rs;
      o := Outcome([request], out, Success);
    } else {
      o := Outcome([request], [JsonOf(RecipesDoc(rs))], Success);
    }
  }

  /** `showClusters`: with `--fmt`, one block per cluster, in the order received. */
  method ShowClusters(flags: Flags, token: string, t: ComposeApi.Transport) returns (o: Outcome)
    ensures ShowClustersSpec(o, flags, token, t)
    ensures o.ending.Fatal? ==> o.output == []
    ensures !o.ending.Panic?
  {
    var request := ComposeApi.GetRequest(token, ComposeApi.Clusters);
    if flags.raw {
      var raw := ComposeApi.GetJSON(token, t, ComposeApi.Clusters);
      if raw.errs != [] {
        return Outcome([request], [], Fatal(ErrorsText(raw.errs)));
      }
      return Outcome([request], [Plain(raw.text)], Success);
    }
    var clusters := ComposeApi.GetClusters(token, t);
    if clusters.Failed? {
      return Outcome([request], [], Fatal(ErrorsText(clusters.errs)));
    }
    var cs := clusters.value;
    if flags.fmt {
      var out: seq<Line> := [];
      for i := 0 to |cs|
        invariant out == Blocks(cs[..i], ClusterBlock)
      {
        BlocksSnoc(cs, i, ClusterBlock);
        out := out + Lines(ClusterFields(cs[i]));
        out := out + [Blank];
      }
      assert cs[..|cs|] == cs;
      o := Outcome([request], out, Success);
    } else {
      o := Outcome([request], [JsonOf(ClustersDoc(cs))], Success);
    }
  }

  /** `showUser`. */
  method ShowUser(flags: Flags, token: string, t: ComposeApi.Transport) returns (o: Outcome)
    ensures ShowUserSpec(o, flags, token, t)
    ensures o.ending.Fatal? ==> o.output == []
    ensures !o.ending.Panic?
  {
    var request := ComposeApi.GetRequest(token, ComposeApi.CurrentUser);
    if flags.raw {
      var raw := ComposeApi.GetJSON(token, t, ComposeApi.CurrentUser);
      if raw.errs != [] {
        return Outcome([request], [], Fatal(ErrorsText(raw.errs)));
      }
      return Outcome([request], [Plain(raw.text)], Success);
    }
    var user := ComposeApi.GetUser(token, t);
    if user.Failed? {
      return Outcome([request], [], Fatal(ErrorsText(user.errs)));
    }
    if flags.fmt {
      o := Outcome([request], Lines(UserFields(user.value)) + [Blank], Success);
    } else {
      o := Outcome([request], [JsonOf(UserDoc(user.value))], Success);
    }
  }

  /**
   * `printDeployment`, line by line. A certificate shorter than 32
   * characters, shown truncated, panics after the lines before it.
   */
  method PrintDeployment(d: ComposeApi.Deployment, fullca: bool) returns (out: seq<Line>, panicked: bool)
    ensures panicked <==> !CaPrintable(d.caCertificateBase64, fullca)
    ensures panicked ==> out == Lines(DeploymentHead(d))
    ensures !panicked ==> out == Lines(DeploymentFields(d, fullca))
  {
    var fixed := [Field(Id, d.id), Field(Name, d.name), Field(Type, d.kind),
                  Field(CreatedAt, d.createdAt.rendered)];
    out := Lines(fixed);
    var prov: seq<Field> := [];
    if d.provisionRecipeId != "" {
      prov := [Field(ProvRecipeId, d.provisionRecipeId)];
      out := out + Lines(prov);
    }
    LinesAppend(fixed, prov);
    assert out == Lines(DeploymentHead(d));
    var cert := d.caCertificateBase64;
    if cert != "" {
      if !fullca && |cert| < 32 {
        return out, true;
      }
      out := out + Lines(CaFields(cert, fullca));
    }
    LinesAppend(DeploymentHead(d), CaFields(cert, fullca));
    out := out + Lines(DeploymentTail(d));
    LinesAppend(DeploymentHead(d) + CaFields(cert, fullca), DeploymentTail(d));
    panicked := false;
  }

  /** The parameters `createDeployment` sends: the arguments, the account's id, and nothing else set. */
  function CreationParams(name: string, dbType: string, cluster: string, datacenter: string, accountId: string)
    : (p: ComposeApi.CreateDeploymentParams)
    ensures p.name == name && p.databaseType == dbType && p.accountId == accountId
    ensures p.clusterId == cluster && p.datacenter == datacenter
    ensures p.version == "" && p.units == 0 && !p.ssl && !p.wiredTiger
  {
    ComposeApi.CreateDeploymentParams(name, accountId, cluster, datacenter, dbType, "", 0, false, false)
  }

  /**
   * What `createDeployment` shows for the creation reply: transport errors
   * are fatal; a server-side refusal prints only "Error: <msg>"; otherwise
   * the deployment, formatted (possibly panicking on a short certificate)
   * or as JSON.
   */
  predicate CreationReported(o: Outcome, flags: Flags, f: ComposeApi.Fetch<ComposeApi.Deployment>) {
    if f.Failed? then o.output == [] && o.ending == Fatal(ErrorsText(f.errs))
    else if f.value.error != "" then o.output == [Plain("Error: " + f.value.error)] && o.ending == Success
    else if !flags.fmt then o.output == [JsonOf(DeploymentDoc(f.value))] && o.ending == Success
    else if CaPrintable(f.value.caCertificateBase64, flags.fullca)
    then o.output == Lines(DeploymentFields(f.value, flags.fullca)) && o.ending == Success
    else o.output == Lines(DeploymentHead(f.value))
         && o.ending == Panic(CertSlicePanic(|f.value.caCertificateBase64|))
  }

  /**
   * `createDeployment`, in the order it checks things: raw mode is refused
   * before any request; then the account is fetched (an empty account list
   * panics, errors are fatal); then a missing cluster and datacenter is
   * refused before the creation request; then the one POST of the
   * parameters, carrying the account's id, and its reply reported.
   */
  predicate CreateDeploymentSpec(o: Outcome, flags: Flags, token: string, t: ComposeApi.Transport,
                                 name: string, dbType: string, cluster: string, datacenter: string) {
    var accountRequest := ComposeApi.GetRequest(token, ComposeApi.Accounts);
    if flags.raw then o == Outcome([], [], Fatal(RawCreateRefused))
    else if !ComposeApi.AccountIndexable(t(accountRequest)) then
      o == Outcome([accountRequest], [], Panic(NoAccountPanic))
    else
      var account := ComposeApi.GetAccount(token, t);
      if account.Failed? then o == Outcome([accountRequest], [], Fatal(ErrorsText(account.errs)))
      else if datacenter == "" && cluster == "" then o == Outcome([accountRequest], [], Fatal(PlacementMissing))
      else
        var params := CreationParams(name, dbType, cluster, datacenter, account.value.id);
        && o.requests == [accountRequest, ComposeApi.CreateRequest(token, params)]
        && CreationReported(o, flags, ComposeApi.CreateDeployment(token, t, params))
  }

  /** `createDeployment`. */
  method CreateDeployment(flags: Flags, token: string, t: ComposeApi.Transport,
                          name: string, dbType: string, cluster: string, datacenter: string)
    returns (o: Outcome)
    ensures CreateDeploymentSpec(o, flags, token, t, name, dbType, cluster, datacenter)
    ensures Authorized(o.requests, token)
    ensures |o.requests| <= 2
    ensures o.ending.Fatal? ==> o.output == []
  {
    if flags.raw {
      return Outcome([], [], Fatal(RawCreateRefused));
    }
    var accountRequest := ComposeApi.GetRequest(token, ComposeApi.Accounts);
    GetAuthorized(token, ComposeApi.Accounts);
    if !ComposeApi.AccountIndexable(t(accountRequest)) {
      return Outcome([accountRequest], [], Panic(NoAccountPanic));
    }
    var account := ComposeApi.GetAccount(token, t);
    if account.Failed? {
      return Outcome([accountRequest], [], Fatal(ErrorsText(account.errs)));
    }
    if datacenter == "" && cluster == "" {
      return Outcome([accountRequest], [], Fatal(PlacementMissing));
    }
    var params := CreationParams(name, dbType, cluster, datacenter, account.value.id);
    CreateAuthorized(token, params);
    o := ReportCreation(flags, token, t, accountRequest, params);
  }

  /** The creation request of `createDeployment` and what is shown for its reply. */
  method ReportCreation(flags: Flags, token: string, t: ComposeApi.Transport,
                        accountRequest: ComposeApi.Request, params: ComposeApi.CreateDeploymentParams)
    returns (o: Outcome)
    ensures o.requests == [accountRequest, ComposeApi.CreateRequest(token, params)]
    ensures CreationReported(o, flags, ComposeApi.CreateDeployment(token, t, params))
    ensures o.ending.Fatal? ==> o.output == []
  {
    var requests := [accountRequest, ComposeApi.CreateRequest(token, params)];
    var deployment := ComposeApi.CreateDeployment(token, t, params);
    if deployment.Failed? {
      return Outcome(requests, [], Fatal(ErrorsText(deployment.errs)));
    }
    var d := deployment.value;
    if d.error != "" {
      return Outcome(requests, [Plain("Error: " + d.error)], Success);
    }
    if flags.fmt {
      var out, panicked := PrintDeployment(d, flags.fullca);
      if panicked {
        return Outcome(requests, out, Panic(CertSlicePanic(|d.caCertificateBase64|)));
      }
      o := Outcome(requests, out, Success);
    } else {
      o := Outcome(requests, [JsonOf(DeploymentDoc(d))], Success);
    }
  }

  /** The endpoint each `show` verb reads. */
  function ShowEndpoint(cmd: Command): ComposeApi.Endpoint
    requires !cmd.CreateDeploymentCmd?
  {
    match cmd
    case ShowAccountCmd => ComposeApi.Accounts
    case ShowDeploymentsCmd => ComposeApi.Deployments
    case ShowRecipeCmd(id) => ComposeApi.RecipeOf(id)
    case ShowRecipesCmd(id) => ComposeApi.RecipesOf(id)
    case ShowClustersCmd => ComposeApi.Clusters
    case ShowUserCmd => ComposeApi.CurrentUser
  }

  /** The `show` branch of `main`'s dispatch: the handler of the verb, given its own argument. */
  method Show(flags: Flags, token: string, t: ComposeApi.Transport, cmd: Command) returns (o: Outcome)
    requires !cmd.CreateDeploymentCmd?
    ensures cmd.ShowAccountCmd? ==> ShowAccountSpec(o, flags, token, t)
    ensures cmd.ShowDeploymentsCmd? ==> ShowDeploymentsSpec(o, flags, token, t)
    ensures cmd.ShowRecipeCmd? ==> ShowRecipeSpec(o, flags, token, t, cmd.recipeId)
    ensures cmd.ShowRecipesCmd? ==> ShowRecipesSpec(o, flags, token, t, cmd.deploymentId)
    ensures cmd.ShowClustersCmd? ==> ShowClustersSpec(o, flags, token, t)
    ensures cmd.ShowUserCmd? ==> ShowUserSpec(o, flags, token, t)
    ensures o.requests == [ComposeApi.GetRequest(token, ShowEndpoint(cmd))]
    ensures o.ending.Fatal? ==> o.output == []
    ensures o.ending.Panic? ==> cmd.ShowAccountCmd?
  {
    match cmd {
      case ShowAccountCmd =>
        o := ShowAccount(flags, token, t);
      case ShowDeploymentsCmd =>
        o := ShowDeployments(flags, token, t);
      case ShowRecipeCmd(id) =>
        o := ShowRecipe(flags, token, t, id);
      case ShowRecipesCmd(id) =>
        o := ShowRecipes(flags, token, t, id);
      case ShowClustersCmd =>
        o := ShowClusters(flags, token, t);
      case ShowUserCmd =>
        o := ShowUser(flags, token, t);
    }
  }

  /**
   * `main`: no request at all without a token; otherwise the outcome of the
   * handler of the parsed verb, given that verb's own arguments: exactly one
   * GET for a `show` verb and at most two requests for `create deployment`,
   * every one carrying the token. A fatal ending never follows output.
   */
  method Run(token: string, flags: Flags, cmd: Command, t: ComposeApi.Transport) returns (o: Outcome)
    ensures token == "" ==> o == Outcome([], [], Fatal(TokenMissing))
    ensures token != "" && cmd.ShowAccountCmd? ==> ShowAccountSpec(o, flags, token, t)
    ensures token != "" && cmd.ShowDeploymentsCmd? ==> ShowDeploymentsSpec(o, flags, token, t)
    ensures token != "" && cmd.ShowRecipeCmd? ==> ShowRecipeSpec(o, flags, token, t, cmd.recipeId)
    ensures token != "" && cmd.ShowRecipesCmd? ==> ShowRecipesSpec(o, flags, token, t, cmd.deploymentId)
    ensures token != "" && cmd.ShowClustersCmd? ==> ShowClustersSpec(o, flags, token, t)
    ensures token != "" && cmd.ShowUserCmd? ==> ShowUserSpec(o, flags, token, t)
    ensures token != "" && cmd.CreateDeploymentCmd? ==>
      CreateDeploymentSpec(o, flags, token, t, cmd.name, cmd.dbType, cmd.cluster, cmd.datacenter)
    ensures token != "" ==> Authorized(o.requests, token)
    ensures token != "" && !cmd.CreateDeploymentCmd? ==>
      o.requests == [ComposeApi.GetRequest(token, ShowEndpoint(cmd))]
    ensures cmd.CreateDeploymentCmd? ==> |o.requests| <= 2
    ensures cmd.CreateDeploymentCmd? && flags.raw ==> o.requests == []
    ensures o.ending.Fatal? ==> o.output == []
    ensures o.ending.Panic? ==> cmd.ShowAccountCmd? || cmd.CreateDeploymentCmd?
  {
    if token == "" {
      return Outcome([], [], Fatal(TokenMissing));
    }
    if cmd.CreateDeploymentCmd? {
      o := CreateDeployment(flags, token, t, cmd.name, cmd.dbType, cmd.cluster, cmd.datacenter);
    } else {
      o := Show(flags, token, t, cmd);
      GetAuthorized(token, ShowEndpoint(cmd));
    }
  }
}
