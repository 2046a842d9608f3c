# InstaDeploy project registry, as a Dafny model

InstaDeploy is a small Express server that hosts uploaded projects. A client
posts a bundle of static files, a Node application, or a git repository URL;
the server stores the source under `projects/{id}`, and for the two
process-backed kinds runs an optional build command, starts the application
with a `PORT` environment variable, and records it in an in-memory table
`projects`. Requests under `/p/{id}` are then served from the project's
directory or forwarded to `http://localhost:{port}`.

This project models the state machine at the heart of `server.js`:

- **Registry** (`registry.dfy`): the `projects` table as an immutable
  `map<string, Project>` over `Static(path) | Node(port, process)`, the
  identifiers `randomId` can produce, `nextPort` (4000 plus the number of
  registered projects, static ones included), and the invariant that
  registered ports lie in the allocated range and are pairwise distinct.
- **Deploy** (`deploy.dfy`): the three `/deploy/*` handlers as pure
  transitions `(table, inputs) -> (table, response)`. The outcome of each wait
  (writing files, cloning, the build's close code) is an input; a build that
  does not close with 0 rejects the handler, which then registers nothing
  and answers nothing. The node handler skips a whitespace-only build, the
  repo handler runs it. Start commands default to `node server.js` and
  `npm start`. Sequences of deploys (`Run`, `Issued`) state the multi-step
  properties: fresh identifiers get strictly increasing ports, a rejected
  deploy leaves no trace (the next deploy receives the same port), and a
  repeated identifier overwrites its record without advancing the port, so a
  port can be handed out twice.
- **Router** (`router.dfy`): how Express splits `/p/:id` off a request path,
  and the three-way decision on the looked-up record: 404
  "Project not found", serve files from the record's path, or proxy to
  `http://localhost:{port}` with no liveness check.
- **JsText** (`jstext.dfy`): the JavaScript string behaviour the handlers
  rely on: `trim`, truthiness of an optional field, `substring` clamping,
  and the decimal rendering of a port (with its inverse).

The server has no liveness tracking, no `ServiceUnavailable` answer for dead
backends, no port release, no teardown and no lock around port allocation;
the model follows the code: ports are derived from the table's size, nothing
is ever removed, and a proxied project is never checked for liveness.

## Model

| member | source | states |
|---|---|---|
| JsText.Trim | server.js:62 | `trim()` gives the empty string exactly when the input is all whitespace; otherwise the result neither starts nor ends with whitespace |
| JsText.TrimIsCut | server.js:62 | `trim()` gives the slice of the input left once a whitespace prefix and a whitespace suffix are cut off |
| JsText.DecimalRoundTrip | server.js:79 | the `PORT` string a child receives reads back as the numeric port |
| JsText.NatToStringInjective | server.js:145 | two ports render to the same decimal string only if they are equal |
| Registry.RandomId | server.js:17-19 | the id is the window of at most eight characters after the `0.` of the random number's base-36 rendering, hence only base-36 digits |
| Registry.NextPort | server.js:21-23 | the next port is at least 4000 and, when every registered port lies below it, is held by no registered project |
| Registry.RegisterKeepsRecords | server.js:82-86 | registering a record adds exactly its key, advances the next port exactly when the key is new, and keeps every record in its own project directory |
| Registry.RegisterFreshKeepsPortsInvariant | server.js:82-86 | registering a new id with the next port (or a static record) keeps ports in range and pairwise distinct |
| Deploy.NodeRunsBuild | server.js:62 | the node handler runs the build exactly when `build` is present and not whitespace only |
| Deploy.RepoRunsBuild | server.js:101 | the repo handler runs every build the node handler runs, and additionally exactly the non-empty whitespace-only ones |
| Deploy.StartCommand | server.js:76 | the default start command is used exactly when `start` is absent, null or empty; otherwise the given command is used verbatim |
| Deploy.Launch | server.js:76-80 | the spawned process runs the command in the project directory with a `PORT` that reads back as the port |
| Deploy.DeployStatic | server.js:27-43 | on success exactly one key is added (or overwritten) with a static record for the project directory, the answer is `/p/{id}/index.html`, other entries are untouched and a fresh id advances the next port by one; on a failed write nothing changes |
| Deploy.DeployProcess | server.js:60-88 | the handler succeeds exactly when the source is ready and the build (if run) closed with 0; on success the new node record has port `nextPort()` of the table before, the process's `PORT` equals that port and the answer is `/p/{id}`; on failure the table is unchanged; other entries are untouched |
| Deploy.DeployNode | server.js:47-89 | node deploy: trimmed-build gate, default `node server.js`, a whitespace-only build never blocks registration |
| Deploy.DeployRepo | server.js:93-128 | repo deploy: truthiness build gate, default `npm start`, a failing non-empty build (even whitespace only) blocks registration |
| Deploy.Apply | server.js:27-128 | any deploy is rejected exactly when its own waits fail, and then leaves the table unchanged; otherwise it adds exactly its id, with a node record on the next port for node and repo deploys |
| Deploy.FreshDeploysIssuePortsInRange | server.js:21-23 | with pairwise-distinct fresh ids, every port handed to a started process lies between the next port of the starting table (at least 4000) and that of the final table, and the next port never moves back |
| Deploy.FreshDeploysIssueIncreasingPorts | server.js:60 | with pairwise-distinct fresh ids, successive process deploys get strictly increasing, hence pairwise-distinct, ports |
| Deploy.FreshRunKeepsPortsInvariant | server.js:82-86 | with fresh ids, a batch of deploys keeps registered ports in range and pairwise distinct |
| Deploy.RunAppend | server.js:12 | handling two batches of deploys in turn leaves the same table as handling their concatenation |
| Deploy.IssuedAppend | server.js:21-23 | the ports handed out for a concatenation of batches are those of the first batch followed by those the second batch gets from the table the first left |
| Deploy.FailedDeployLeavesNoTrace | server.js:60-74 | a rejected deploy changes neither the final table nor any port handed to a later deploy |
| Deploy.RunKeepsRecordsConsistent | server.js:40 | after any batch of deploys, every record points at its own project directory and every process carries its own port in `PORT` |
| Deploy.RepeatedIdSharesPort | server.js:82-86 | a process deploy under an existing id does not advance the next port, so the following fresh process deploy receives the same port and two records share it |
| Router.ProxyTarget | server.js:145 | the proxy target is `http://localhost:` followed by digits that read back as the port |
| Router.ProxyTargetInjective | server.js:145 | distinct ports give distinct proxy targets |
| Router.Route | server.js:132-147 | unknown id gives 404 "Project not found" whatever the remaining path; a static record is served from its path and never proxied; a node record is proxied to its port with the remaining path |
| Router.DistinctProjectsDistinctTargets | server.js:144-146 | while ports are distinct, two different process projects are never proxied to the same target |
| Router.RandomIdLookupIsOwnOrUndefined | server.js:134 | for every id `randomId` can produce, the plain-object lookup finds an own record exactly when the id is registered and is undefined otherwise, never an inherited property |
| Router.RouteAsWritten | server.js:134-146 | the handler as written agrees with Route except on inherited names, which it proxies to `http://localhost:undefined` |
| Router.InheritedNameIsProxied | server.js:136 | with nothing deployed, `/p/constructor` is proxied instead of answered with 404 |
| Router.RandomIdsAreNotInherited | server.js:17-19 | no id `randomId` can produce is an inherited property name |
| Router.SplitMount | server.js:132 | the mount matches exactly paths `/p/x...` (either case of `p`) with a non-empty id; the id is the whole segment after `/p/`; the remaining path is what follows the id, starts with `/`, and lost one slash only when another follows it (an empty remainder becomes `/`) |
| Router.Dispatch | server.js:132-138 | the corrected handler: a path outside the mount is not handled; an unknown id under the mount always gets 404 |
| Router.DispatchAsWritten | server.js:132-146 | the handler as written: a path outside the mount is not handled; it agrees with the corrected handler on every id that is not an inherited name; an unknown inherited name is forwarded to `http://localhost:undefined` |
| Router.ConstructorPathIsProxied | server.js:132-138 | with nothing deployed, the request path `/p/constructor` is forwarded as written and answered with 404 when corrected |
| Router.DeployUrlsSplitBack | server.js:42 | the URLs the deploys answer with split back into the deployed id and `/` or `/index.html` |
| Router.StaticUrlServesItsDirectory | server.js:140-141 | the URL a static deploy answers with serves `/index.html` from that project's directory |
| Router.ProcessUrlProxiesToItsPort | server.js:144-146 | the URL a node or repo deploy answers with is proxied to the port that deploy took, the same port its process got in `PORT` |
| Router.DeployKeepsOtherRoutes | server.js:132-147 | a deploy changes the routing of its own id only |

## Findings

| source | as written | input that shows it | evidently intended | confidence | as-written member | corrected member |
|---|---|---|---|---|---|---|
| server.js:134-138 | `projects[id]` on a plain object also reads properties inherited from `Object.prototype`, and `!project` lets them through; their `type` is not `"static"`, so the request is proxied to `http://localhost:undefined` | `GET /p/constructor` (or `/p/toString`, `/p/__proto__`) with no projects deployed; see Router.InheritedNameIsProxied and Router.ConstructorPathIsProxied | any id that is not a deployed project answers 404 "Project not found" | high; not executed | Router.RouteAsWritten | Router.Route |

Deployed ids cannot collide with these names (Router.RandomIdsAreNotInherited),
so the discrepancy only affects requests for ids that were never issued. Router.DispatchAsWritten is the whole handler as written; Router.Dispatch is the corrected one.

## Left out

- Express wiring, JSON body parsing, `express.static("public")` and `app.listen` (server.js:1-15, 149-151): framework plumbing. A file under `public/p/...` that shadows a project path is not modelled.
- `Math.random()` (server.js:18): the base-36 rendering of the random number is an input of Registry.RandomId; deploys take the id as an input that satisfies `IsRandomId`.
- File writes, `simpleGit().clone` and `spawn` (server.js:31-38, 53-58, 64-72, 76-80, 97, 103-119): each wait becomes a success input or a close code; a started process is the record of its command, directory and `PORT`. What a process does after it starts is not modelled.
- The forwarding done by `http-proxy` and the file serving done by `express.static` (server.js:141, 144-146): only the chosen branch, its directory or target, and the path passed on are modelled. What the static server does for a missing file is not modelled.
- Interleaving of concurrent handlers at their `await` points, which lets two node deploys compute the same port before either registers: deploys are modelled one at a time.
- What happens to the server after a rejected handler (no answer is sent; whether the unhandled rejection ends the process depends on the Node.js version): the model only states that nothing is registered and no URL is produced.
- A process whose record is overwritten by a repeated id keeps running; the model drops its handle with the record.
- Non-string values in the `build` and `start` fields (a number `build` would make `trim` throw): the fields are modelled as optional strings.
- Percent-decoding of the `:id` parameter (server.js:133): the router works on the raw request path, so `/p/%61b` is modelled as the id `%61b` rather than `ab`, and a malformed escape such as `/p/%ZZ`, which Express answers with 400, is routed like any other id.
- The normalisation done by `path.join` (server.js:29, 49, 95): ProjectPath is `root + "/" + id`, which agrees with `path.join` for the non-empty ids `randomId` produces (no separators, no dot segments); for the empty id `path.join` gives the projects directory itself, while ProjectPath gives it with a trailing `/`.
- Router.DeployUrlsSplitBack: requires a non-empty id; `randomId` yields the empty id only for a random number of exactly 0, whose URL `/p//index.html` is not under the mount.
- Router.StaticUrlServesItsDirectory: requires a non-empty id, for the same reason.
- Router.ProcessUrlProxiesToItsPort: requires a non-empty id, for the same reason.
- Liveness tracking, `ServiceUnavailable`, process teardown, port release and `ResourceExhausted`: none of these exist in the code.
