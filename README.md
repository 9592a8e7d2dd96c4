# cocli: a Dafny model of the Compose command-line client

`cocli` is a command-line client for the Compose database-hosting REST API
(`https://api.compose.io/2016-07/`). The CLI supports these verbs:
- `show account`, `show deployments`, `show recipe <id>`, `show recipes <deployment-id>`, `show clusters` and `show user`;
- `create deployment <name> <type>`, with `--cluster` or `--datacenter`.

It also takes three global flags: `--raw`, `--fmt` and `--fullca`. Each verb
sends one authenticated request per resource (two for `create deployment`) and
prints the result in one of three forms:
- the raw response body;
- the decoded record as indented JSON;
- fixed-column text, one `%15s: %s` line per field.

This project models two parts of the client:
- the API client package (`composeapi`): endpoints, requests, and typed getters;
- the front end (`main`): dispatch, command bodies, record layout, HAL-link stripping, and the error and panic paths.

The model proves what these two parts promise.

Files:
- `wrappers.dfy`: `Option`.
- `text.dfy`: the pieces of Go's `fmt` the output uses:
  - the right-aligned `%15s` field and the `%15s: %s` line, with its
    column layout and the round trip from the line back to its title and value;
  - `%d` (digits, with a round trip);
  - `%t`;
  - `%s` of a string slice (`[a b]`).
- `strings.dfy`: Go's `strings.Index` and `strings.Replace(s, p, "", -1)`,
  written as Go computes it (find the leftmost occurrence, drop it, go on
  after it). It also has an independent character-by-character reference
  scan, proved equal to it, and `strings.Count`.
- `composeapi.dfy`: the records (account, deployment with its connection
  strings and link, recipe with embedded child recipes, cluster, user,
  creation parameters), their HAL envelopes, the endpoints and their URLs,
  the two request shapes (bearer-token GET, JSON POST), and the typed
  getters.
- `cocli.dfy`: the output labels, each formatted record, `getLink`, the
  list layout, and one method per command. Each method returns an
  `Outcome`:
  - the requests sent, in order;
  - the lines printed;
  - how the run ended: normally, through `log.Fatal` (exit status 1), or through a Go runtime panic (exit status 2).

The environment is made explicit:
- The HTTP exchange is a parameter: a total function from request to reply.
  A reply is a body plus the transport's error list, where `[]` stands for Go's `nil`.
- A body carries the raw text and, for each Go target type, the decoded value.
  `None` stands for a body that does not decode, for which `json.Unmarshal`
  leaves the zero value.
- The API token (`COMPOSEAPITOKEN`) is a parameter.
- Indented JSON output is an abstract line naming the value printed.

Points of the Go code the model keeps as written:
- In raw mode every `show` verb prints the body exactly as received, with
  `fmt.Println(text)` (cocli.go:94, 114, 138, 155, 174, 194). The
  re-indenting helper `printJSON` (composeapi/composeapi.go:90-101) has no caller.
- `printCluster` labels the creation time "Created Ad" (cocli.go:265); the model prints that label as written.
- `GetAccount` indexes the first account without checking (composeapi/composeapi.go:126):
  - When the reply has no error but no accounts (an empty list or a body
    that does not decode), the Go program panics.
  - The getter's precondition names that condition (`AccountIndexable`).
  - `show account` and `create deployment` check the condition and end in
    the panic the Go runtime raises.
- `printDeployment` slices the first 32 characters of a non-empty
  certificate when `--fullca` is off (cocli.go:281):
  - If the certificate is shorter, the lines before it are printed and the program panics.
  - `PrintDeployment` and `CreationReported` state exactly that.
- `Cluster` and `ClustersResponse` are declared both in composeapi/composeapi.go:65-83
  and in composeapi/cluster.go:22-40. The model has one `Cluster`, with the fields of the
  declaration in composeapi/composeapi.go.

## Model

| member | source | states |
|---|---|---|
| Text.PadLeftLayout | cocli.go:100-102 | `%15s` right-aligns: the text is spaces followed by the title, 15 wide unless the title is wider, which is printed whole |
| Text.FieldLineLayout | cocli.go:245-252 | a field line whose title fits holds the padded title in columns 0-14, ": " in 15-16 and the value from column 17 on; its length is 17 + the value's |
| Text.FieldLineRoundTrip | cocli.go:245-252 | a field line reads back as exactly its title and value when the title is non-empty, fits and does not start with a space |
| Text.Decimal | cocli.go:252 | `%d` of a count: non-empty, all digits, no leading zero except for 0 itself |
| Text.DecimalRoundTrip | cocli.go:252 | the digits printed read back as the number |
| Text.ListText | cocli.go:289-290 | `%s` of a string slice is bracketed, "[]" when empty and "[x]" for one item |
| Text.ListTextCons | cocli.go:289-290 | for two or more items, `%s` prints "[", the first item, one space, then what it prints for the remaining items without their "[" |
| Strings.IndexOf | cocli.go:241 | the search `strings.Replace` runs: when found, an occurrence at the returned index and none before it; when not found, no occurrence anywhere |
| Strings.RemoveAllIsScan | cocli.go:241 | Go's find-drop-continue removal equals the independent character scan that drops each occurrence starting at the current position |
| Strings.RemoveAllLength | cocli.go:241 | removal shortens the text by the pattern's length once per occurrence counted by `strings.Count` |
| Strings.RemoveAllUnchangedIff | cocli.go:241 | removal returns the text unchanged exactly when the pattern does not occur in it (both directions) |
| Strings.ScanAround | cocli.go:241 | with no occurrence starting inside `a`, removal from `a + p + b` keeps `a`, drops `p` and continues with `b` |
| Strings.ScanExposes | cocli.go:241 | one pass does not rescan what it joins: `x + p + y`, with `p == x + y`, leaves exactly `p` |
| ComposeApi.PathRoundTrip | composeapi/composeapi.go:114-208 | every endpoint's URL starts with the API base and reads back as that endpoint, ids included: no two resources or ids share a URL |
| ComposeApi.GetRequest | composeapi/composeapi.go:104-111 | a GET of the API base plus the endpoint's path, carrying the bearer-token header and no payload |
| ComposeApi.CreateRequest | composeapi/composeapi.go:225-232 | a POST to the deployments URL, carrying the bearer-token header and the creation parameters as payload |
| ComposeApi.GetJSON | composeapi/composeapi.go:104-111 | the body text and error list returned are the transport's, for that one GET |
| ComposeApi.GetAccount | composeapi/composeapi.go:117-129 | fails exactly when the transport reports errors, with those errors; otherwise the first account of the decoded envelope; demands a non-empty list when there are no errors |
| ComposeApi.GetDeployments | composeapi/composeapi.go:135-147 | fails exactly on transport errors, with those errors; otherwise the embedded deployments list, or [] for a body that does not decode |
| ComposeApi.GetRecipe | composeapi/composeapi.go:153-164 | fails exactly on transport errors; otherwise the decoded recipe, or the zero recipe (empty id, no children) |
| ComposeApi.GetRecipeIgnoresRawMode | composeapi/composeapi.go:153-164 | the `rawmode` argument has no effect on the result |
| ComposeApi.GetRecipesForDeployment | composeapi/composeapi.go:172-184 | fails exactly on transport errors; otherwise the embedded recipes of the body read as one recipe, or [] |
| ComposeApi.GetClusters | composeapi/composeapi.go:192-204 | fails exactly on transport errors; otherwise the embedded clusters list, or [] |
| ComposeApi.GetUser | composeapi/composeapi.go:212-222 | fails exactly on transport errors; otherwise the decoded user, or a user with an empty id |
| ComposeApi.CreateDeployment | composeapi/composeapi.go:235-249 | fails exactly on transport errors; otherwise the decoded deployment, whose `error` field carries a server-side refusal |
| Cocli.LabelText | cocli.go:245-290 | every label the output uses is non-empty, at most 15 characters and does not start with a space |
| Cocli.LinesRoundTrip | cocli.go:245-290 | a record prints one line per field; each line is 17 + the value's length long, has ": " at columns 15-16 and reads back as its label and value |
| Cocli.GetLinkStrips | cocli.go:240-242 | `getLink` keeps what the reference scan keeps, shortens the href by 8 per "{?embed}" counted, and returns the href unchanged exactly when it contains no "{?embed}" |
| Cocli.GetLinkStripsTrailingTemplate | cocli.go:240-242 | a templated href ending in "{?embed}", with no other brace, comes back as the href without the template |
| Cocli.ScanExposesFragment | cocli.go:241 | one pass over "{?em{?embed}bed}" leaves "{?embed}" |
| Cocli.GetLinkSinglePass | cocli.go:240-242 | `getLink` maps "{?em{?embed}bed}" to "{?embed}" and that to "": applying it twice differs from applying it once |
| Cocli.AccountFields | cocli.go:100-102 | the account record is ID, Name, Slug, in that order |
| Cocli.DeploymentSummary | cocli.go:121-125 | the per-deployment record is ID, Name, Type, Created At, Web UI Link, the last carrying the stripped link |
| Cocli.RecipeFields | cocli.go:244-254 | the recipe record is its eight labels in order |
| Cocli.ChildCountIsDirect | cocli.go:252 | the "Child Recipes" value is all digits and reads back as the number of direct children |
| Cocli.ChildCountExample | cocli.go:252 | a recipe whose only child has a child shows "1", though its tree holds three recipes |
| Cocli.ClusterFields | cocli.go:256-267 | the cluster record is its ten labels in order, "Created Ad" included; Multitenant is printed as "true" or "false" |
| Cocli.UserFields | cocli.go:199 | the user record is its ID alone |
| Cocli.CaValue | cocli.go:277-283 | the certificate is shown whole with `--fullca`, otherwise as its first 32 characters and "..." (35 characters) |
| Cocli.DeploymentHead | cocli.go:270-276 | ID, Name, Type, Created At, then Prov Recipe ID exactly when the provisioning recipe id is non-empty |
| Cocli.CaFields | cocli.go:277-283 | a CA Certificate line exactly when the certificate is non-empty |
| Cocli.DeploymentTail | cocli.go:284-290 | Web UI Link, Health, SSH, Admin, SSHAdmin, CLI Connect, Direct Connect, in that order |
| Cocli.RecordShape | cocli.go:269-292 | the deployment labels have eleven fixed entries; each optional label is present exactly when asked for (both directions) |
| Cocli.DeploymentLabels | cocli.go:269-292 | `printDeployment`'s labels in print order, the two optional ones governed by their fields |
| Cocli.DeploymentRecord | cocli.go:269-292 | the deployment record has 11, 12 or 13 lines; Prov Recipe ID and CA Certificate appear exactly when their fields are non-empty |
| Cocli.TruncatedCertificateLine | cocli.go:281 | without `--fullca` the certificate line, right after the head, is "CA Certificate" with the first 32 characters and "..." |
| Cocli.FullCertificateLine | cocli.go:279 | with `--fullca` the certificate line, right after the head, shows the whole certificate |
| Cocli.BlocksAt | cocli.go:120-127 | a list whose blocks all have n lines prints n lines per item, item i's block at lines n*i to n*i+n |
| Cocli.DeploymentListing | cocli.go:119-127 | `show deployments --fmt` prints six lines per deployment, each in its own place, in the order received |
| Cocli.RecipeListing | cocli.go:159-163 | `show recipes --fmt` prints nine lines per recipe, each in its own place |
| Cocli.ClusterListing | cocli.go:179-183 | `show clusters --fmt` prints eleven lines per cluster, each in its own place |
| Cocli.GetAuthorized | composeapi/composeapi.go:104-111 | every GET carries the bearer token and goes below the API base URL |
| Cocli.CreateAuthorized | composeapi/composeapi.go:225-232 | both requests of `create deployment` carry the bearer token and go below the API base URL |
| Cocli.ShowAccount | cocli.go:90-108 | one GET of accounts; raw: errors fatal before output, else the body verbatim; typed: an empty account list panics, errors are fatal, else the ID/Name/Slug record and a blank line, or the account as JSON |
| Cocli.ShowDeployments | cocli.go:110-132 | one GET of deployments; raw as above; typed: errors fatal, else one summary block per deployment in order, or the list as JSON; never panics |
| Cocli.ShowRecipe | cocli.go:134-149 | one GET of the recipe; raw as above; typed: errors fatal, else the eight recipe lines with no blank line after them, or the recipe as JSON |
| Cocli.ShowRecipes | cocli.go:151-168 | one GET of the deployment's recipes; typed: one recipe block and a blank line per recipe, in order, or the list as JSON |
| Cocli.ShowClusters | cocli.go:170-188 | one GET of clusters; typed: one cluster block and a blank line per cluster, in order, or the list as JSON |
| Cocli.ShowUser | cocli.go:190-205 | one GET of the user; typed: the ID line and a blank line, or the user as JSON |
| Cocli.PrintDeployment | cocli.go:269-292 | prints the whole deployment record, or panics after the head lines exactly when a certificate shorter than 32 characters is to be truncated |
| Cocli.CreationParams | cocli.go:219-225 | the creation parameters are the name, the database type, the cluster and datacenter flags and the account's id; the version, units, SSL and WiredTiger fields are left at their zero values |
| Cocli.CreateDeployment | cocli.go:207-229 | raw mode is refused before any request; then one account GET (an empty account list panics, errors are fatal); then missing cluster and datacenter is fatal before the creation request; otherwise exactly one POST of the parameters with the account's id; every request is authorized |
| Cocli.ReportCreation | cocli.go:227-238 | transport errors are fatal; a server refusal prints only "Error: <message>"; otherwise the deployment record (see PrintDeployment) or the deployment as JSON |
| Cocli.Show | cocli.go:72-87 | each `show` verb gets exactly its own handler's outcome (`ShowAccountSpec` … `ShowUserSpec`), called with the command's own argument (the recipe id, the deployment id); it sends exactly one GET, of its own endpoint; only `show account` can panic |
| Cocli.Run | cocli.go:67-88 | without a token: fatal with no request; otherwise each verb gets exactly its own handler's outcome with the command's own arguments (`CreateDeploymentSpec` with the name, type, cluster and datacenter in that order; the `show` specs with `--raw` and `--fmt` as given); every request is authorized, a `show` verb sends exactly its one GET, `create deployment` at most two requests (none in raw mode); a fatal ending never follows output; only `show account` and `create deployment` can panic |

## Left out

- HTTP: the request goes through `gorequest`. Status codes, redirects and timeouts are not modelled. The reply is what the transport parameter returns, as described above.
- JSON decoding: a body is either decoded, or it does not decode and the zero value is used. Go's partial filling of a struct after a type mismatch inside an otherwise valid document is not modelled.
- JSON encoding: `printAsJSON`, that is `json.MarshalIndent` and the encoder's text, is left as an abstract line naming the value printed. The line names a list by its items, so a nil slice (which Go prints as `null`) and an empty one (printed `[]`) give the same line in `DeploymentsDoc`, `RecipesDoc` and `ClustersDoc`.
- `printJSON` (composeapi/composeapi.go:90-101) has no caller and is not modelled.
- Argument parsing with `kingpin`: `--help`, usage errors and missing positional arguments are out of scope. A verb arrives already parsed as a `Command`, with "" for an argument or flag that was not given.
- `log.Fatal`: the timestamp prefix and the diagnostic stream are not modelled. The ending records only the message.
- `os.Getenv`: both packages read `COMPOSEAPITOKEN`. The model passes one token to both.
- composeapi.go at the repository root, an older copy of the client, is not part of this model.
- The types in composeapi/database.go and composeapi/datacenter.go are not used by the core and are not part of this model. Neither is the `Recipes` envelope, which no getter decodes.
- Times are their rendered text; `time.Time` formatting itself is not modelled.
- Error lists: a transport returning a non-nil but empty error list would make Go exit with "[]". The model treats the empty list as `nil`.
- Certificate slicing: Go slices the certificate by bytes; the model counts characters. The two agree on base64 text, which is ASCII.
- Definitions with no contract of their own, whose properties are stated by other members:
  `Text.PadLeft` and `Text.FieldLine` by `Text.PadLeftLayout`, `Text.FieldLineLayout` and `Text.FieldLineRoundTrip`;
  `Text.BoolText` by `Cocli.ClusterFields`;
  `Strings.RemoveAll` and `Strings.Occurrences` by `Strings.RemoveAllIsScan`, `Strings.RemoveAllLength` and `Strings.RemoveAllUnchangedIff`;
  `ComposeApi.Path` by `ComposeApi.PathRoundTrip`;
  `ComposeApi.Authorization` by `ComposeApi.GetRequest`, `ComposeApi.CreateRequest`, `Cocli.GetAuthorized` and `Cocli.CreateAuthorized`;
  `Cocli.GetLink` by `Cocli.GetLinkStrips`;
  `Cocli.ErrorsText` by the fatal endings of the `show` handlers, `Cocli.CreateDeployment` and `Cocli.ReportCreation`;
  `Cocli.DeploymentFields` by `Cocli.DeploymentRecord`, `Cocli.TruncatedCertificateLine` and `Cocli.FullCertificateLine`;
  `Cocli.ShowEndpoint` by `Cocli.Show` and `Cocli.Run`;
  the handler outcomes `Cocli.ShowAccountSpec` … `Cocli.ShowUserSpec` and `Cocli.CreateDeploymentSpec` by the handler methods that ensure them.
