/** The `/p/:id` handler: how Express splits a request path at the mount,
    and the three-way decision taken on the looked-up record. */
module Router {
  import opened Wrappers
  import opened JsText
  import opened Registry
  import Deploy

  const NotFoundStatus: nat := 404
  const NotFoundBody: string := "Project not found"
  const ProxyPrefix: string := "http://localhost:"

  /** What the handler does with a request: answer directly, serve files
      from a directory, or forward to a local port. The path is what is left
      of the request path once the mount has been cut off. */
  datatype Decision =
    | Respond(status: nat, body: string)
    | ServeStatic(root: string, path: string)
    | Proxy(target: string, path: string)

  /** `http://localhost:${port}`: the port can be read back from the target. */
  function ProxyTarget(port: nat): (t: string)
    ensures |t| > |ProxyPrefix| && t[..|ProxyPrefix|] == ProxyPrefix
    ensures AllDigits(t[|ProxyPrefix|..]) && DecimalValue(t[|ProxyPrefix|..]) == port
  {
    var digits := NatToString(port);
    assert (ProxyPrefix + digits)[|ProxyPrefix|..] == digits;
    DecimalRoundTrip(port);
    ProxyPrefix + digits
  }

  /** Two ports give the same target only if they are the same port. */
  lemma ProxyTargetInjective(a: nat, b: nat)
    ensures ProxyTarget(a) == ProxyTarget(b) <==> a == b
  {
  }

  /** The routing decision on an own-key lookup of the table: an unknown id
      gets 404 "Project not found" whatever the rest of the path, a static
      record is served from its directory and never proxied, and any other
      record is forwarded to its port, with no check that a process listens
      there. */
  function Route(projects: Projects, id: string, rest: string): (d: Decision)
    ensures d.Respond? <==> id !in projects
    ensures d.Respond? ==> d == Respond(NotFoundStatus, NotFoundBody)
    ensures d.ServeStatic? <==> id in projects && projects[id].Static?
    ensures d.ServeStatic? ==> d.root == projects[id].path && d.path == rest
    ensures d.Proxy? <==> id in projects && projects[id].Node?
    ensures d.Proxy? ==> d.target == ProxyTarget(projects[id].port) && d.path == rest
  {
    if id !in projects then Respond(NotFoundStatus, NotFoundBody)
    else match projects[id]
      case Static(path) => ServeStatic(path, rest)
      case Node(port, _) => Proxy(ProxyTarget(port), rest)
  }

  /** Two different registered process projects are never forwarded to the
      same target while the table keeps its ports distinct. */
  lemma DistinctProjectsDistinctTargets(projects: Projects, a: string, b: string, restA: string, restB: string)
    requires PortsDistinct(projects)
    requires a in projects && b in projects && a != b && projects[a].Node? && projects[b].Node?
    ensures Route(projects, a, restA).target != Route(projects, b, restB).target
  {
  }

  /* ---------------- the lookup as written ---------------- */

  /** The properties every plain object inherits from `Object.prototype`;
      reading one of them from the table yields a function or an object,
      which is truthy. */
  const ObjectPrototypeNames: set<string> := {
    "constructor", "__defineGetter__", "__defineSetter__", "hasOwnProperty",
    "__lookupGetter__", "__lookupSetter__", "isPrototypeOf",
    "propertyIsEnumerable", "toString", "valueOf", "__proto__", "toLocaleString"
  }

  /** The target a template literal makes of an undefined port. */
  const UndefinedTarget: string := "http://localhost:undefined"

  /** `projects[id]` on a plain object: an own record, an inherited value, or
      undefined. */
  datatype Lookup = Own(project: Project) | Inherited | Undefined

  function LookupAsWritten(projects: Projects, id: string): (l: Lookup)
    ensures l.Own? <==> id in projects
    ensures l.Own? ==> l.project == projects[id]
    ensures l.Inherited? <==> id !in projects && id in ObjectPrototypeNames
  {
    if id in projects then Own(projects[id])
    else if id in ObjectPrototypeNames then Inherited
    else Undefined
  }

  /** The handler as written: `!project` lets an inherited value through,
      its `type` is not "static", and it is forwarded to
      `http://localhost:undefined`. It agrees with Route on every other id. */
  function RouteAsWritten(projects: Projects, id: string, rest: string): (d: Decision)
    ensures id !in ObjectPrototypeNames ==> d == Route(projects, id, rest)
    ensures id in projects ==> d == Route(projects, id, rest)
    ensures id !in projects && id in ObjectPrototypeNames ==> d == Proxy(UndefinedTarget, rest)
  {
    match LookupAsWritten(projects, id)
    case Undefined => Respond(NotFoundStatus, NotFoundBody)
    case Inherited => Proxy(UndefinedTarget, rest)
    case Own(Static(path)) => ServeStatic(path, rest)
    case Own(Node(port, _)) => Proxy(ProxyTarget(port), rest)
  }

  /** With nothing deployed, `/p/constructor` is forwarded instead of being
      answered with 404. */
  lemma InheritedNameIsProxied()
    ensures RouteAsWritten(map[], "constructor", "/") == Proxy(UndefinedTarget, "/")
    ensures Route(map[], "constructor", "/") == Respond(NotFoundStatus, NotFoundBody)
  {
  }

  /** For every identifier randomId can produce, the lookup as written sees
      exactly the table's own records: never an inherited value. */
  lemma RandomIdLookupIsOwnOrUndefined(projects: Projects, id: string)
    requires IsRandomId(id)
    ensures LookupAsWritten(projects, id).Own? <==> id in projects
    ensures LookupAsWritten(projects, id).Undefined? <==> id !in projects
  {
    RandomIdsAreNotInherited(id);
  }

  /** No identifier randomId can produce is an inherited name, so for every
      project a deploy can register the two lookups agree. */
  lemma RandomIdsAreNotInherited(id: string)
    requires IsRandomId(id)
    ensures id !in ObjectPrototypeNames
  {
    assert !IsRandomId("toString") by { assert !IsBase36Digit("toString"[2]); }
    assert !IsRandomId("valueOf") by { assert !IsBase36Digit("valueOf"[5]); }
  }

  /* ---------------- the mount ---------------- */

  /** The id parameter of `/p/:id` and the request path left after the
      matched prefix. */
  datatype Mount = Mount(id: string, rest: string)

  /** The first separator at or after `from`, or the end of the path. */
  function SegmentEnd(path: string, from: nat): (e: nat)
    requires from <= |path|
    ensures from <= e <= |path|
    ensures forall k :: from <= k < e ==> path[k] != '/'
    ensures e < |path| ==> path[e] == '/'
    decreases |path| - from
  {
    if from == |path| || path[from] == '/' then from else SegmentEnd(path, from + 1)
  }

  /** Express's prefix match of the mount path "/p/:id" (case-insensitive,
      trailing slash optional): the id is the non-empty segment after "/p/";
      one slash after it is swallowed when the path ends there or another
      slash follows; what remains is the request path the handler sees, "/"
      when nothing remains. */
  function SplitMount(path: string): (m: Option<Mount>)
    ensures m.Some? <==> |path| >= 4 && path[..3] in {"/p/", "/P/"} && path[3] != '/'
    ensures m.Some? ==> && |m.value.id| >= 1
                        && (forall k :: 0 <= k < |m.value.id| ==> m.value.id[k] != '/')
                        && |m.value.rest| >= 1 && m.value.rest[0] == '/'
    // the id is the whole segment after "/p/"
    ensures m.Some? ==> var n := 3 + |m.value.id|;
                        && n <= |path| && path[3..n] == m.value.id
                        && (n == |path| || path[n] == '/')
    // the rest is what follows the id, with at most one slash swallowed,
    // and a slash is swallowed exactly when another one follows it
    ensures m.Some? ==> var n := 3 + |m.value.id|;
                        || path[n..] == m.value.rest
                        || path[n..] == "/" + m.value.rest
                        || (path[n..] == "" && m.value.rest == "/")
    ensures m.Some? ==> var n := 3 + |m.value.id|;
                        n + 2 <= |path| && path[n] == '/' && path[n + 1] == '/' ==> m.value.rest == path[n + 1..]
  {
    if !(|path| >= 4 && path[..3] in {"/p/", "/P/"} && path[3] != '/') then None
    else
      var e := SegmentEnd(path, 3);
      var after := path[e..];
      var left := if |after| >= 1 && (|after| == 1 || after[1] == '/') then after[1..] else after;
      Some(Mount(path[3..e], if left == "" then "/" else left))
  }

  /** The `/p/:id` handler on a request path, with the corrected own-key
      lookup of Route; None when the mount does not match and the request
      goes on to the handlers after it. */
  function Dispatch(projects: Projects, path: string): (d: Option<Decision>)
    ensures d.None? <==> SplitMount(path).None?
    ensures d.Some? && SplitMount(path).value.id !in projects ==> d.value == Respond(NotFoundStatus, NotFoundBody)
  {
    match SplitMount(path)
    case None => None
    case Some(Mount(id, rest)) => Some(Route(projects, id, rest))
  }

  /** The `/p/:id` handler as written, on RouteAsWritten: it agrees with
      Dispatch unless the id is an inherited name, and an unknown inherited
      name is forwarded to `http://localhost:undefined` instead of 404. */
  function DispatchAsWritten(projects: Projects, path: string): (d: Option<Decision>)
    ensures d.None? <==> SplitMount(path).None?
    ensures d.Some? ==> var m := SplitMount(path).value;
                        && (m.id !in ObjectPrototypeNames ==> d == Dispatch(projects, path))
                        && (m.id !in projects && m.id !in ObjectPrototypeNames ==> d.value == Respond(NotFoundStatus, NotFoundBody))
                        && (m.id !in projects && m.id in ObjectPrototypeNames ==> d.value == Proxy(UndefinedTarget, m.rest))
  {
    match SplitMount(path)
    case None => None
    case Some(Mount(id, rest)) => Some(RouteAsWritten(projects, id, rest))
  }

  /** With nothing deployed, the request path `/p/constructor` is forwarded
      by the handler as written and answered with 404 by the corrected one. */
  lemma ConstructorPathIsProxied()
    ensures DispatchAsWritten(map[], "/p/constructor") == Some(Proxy(UndefinedTarget, "/"))
    ensures Dispatch(map[], "/p/constructor") == Some(Respond(NotFoundStatus, NotFoundBody))
  {
    ConstructorPathSplits();
    InheritedNameIsProxied();
  }

  /** `/p/constructor` mounts with the id "constructor" and the path "/". */
  lemma ConstructorPathSplits()
    ensures SplitMount("/p/constructor") == Some(Mount("constructor", "/"))
  {
    var path := "/p/constructor";
    assert path[..3] == "/p/";
    assert SegmentEnd(path, 3) == |path| by {
      assert forall k :: 3 <= k < |path| ==> path[k] != '/';
    }
    assert path[3..|path|] == "constructor";
  }

  /** The URLs the deploy handlers answer with split back into the deployed
      id and the path the project sees. */
  lemma {:induction false} DeployUrlsSplitBack(id: string)
    requires IsRandomId(id) && id != ""
    ensures SplitMount("/p/" + id) == Some(Mount(id, "/"))
    ensures SplitMount("/p/" + id + "/index.html") == Some(Mount(id, "/index.html"))
  {
    ProcessUrlSplitsBack(id);
    StaticUrlSplitsBack(id);
  }

  lemma {:induction false} ProcessUrlSplitsBack(id: string)
    requires IsRandomId(id) && id != ""
    ensures SplitMount("/p/" + id) == Some(Mount(id, "/"))
  {
    var short := "/p/" + id;
    assert short[..3] == "/p/" && short[3] == id[0];
    assert short[3..3 + |id|] == id;
    assert SegmentEnd(short, 3) == |short| by { SegmentEndOfId(short, 3, id); }
    assert short[3..|short|] == id;
    assert short[|short|..] == "";
  }

  lemma {:induction false} StaticUrlSplitsBack(id: string)
    requires IsRandomId(id) && id != ""
    ensures SplitMount("/p/" + id + "/index.html") == Some(Mount(id, "/index.html"))
  {
    var long := "/p/" + id + "/index.html";
    assert long[..3] == "/p/" && long[3] == id[0];
    assert long[3..3 + |id|] == id;
    assert long[3 + |id|] == '/';
    assert SegmentEnd(long, 3) == 3 + |id| by { SegmentEndOfId(long, 3, id); }
    assert long[3 + |id|..] == "/index.html";
  }

  /** Scanning over an identifier made of base-36 digits stops right after it. */
  lemma SegmentEndOfId(path: string, from: nat, id: string)
    requires IsRandomId(id) && from + |id| <= |path| && path[from..from + |id|] == id
    requires from + |id| == |path| || path[from + |id|] == '/'
    ensures SegmentEnd(path, from) == from + |id|
  {
  }

  /* ---------------- deploy, then route ---------------- */

  /** The URL a static deploy answers with serves "/index.html" from the new
      project's directory. */
  lemma StaticUrlServesItsDirectory(root: string, projects: Projects, id: string)
    requires IsRandomId(id) && id != ""
    ensures var s := Deploy.DeployStatic(root, projects, id, true);
            s.response.Url? && Dispatch(s.projects, s.response.url) == Some(ServeStatic(ProjectPath(root, id), "/index.html"))
  {
    DeployUrlsSplitBack(id);
  }

  /** The URL a successful node or repo deploy answers with is forwarded to
      the port the deploy took, the port its process was given in `PORT`. */
  lemma ProcessUrlProxiesToItsPort(root: string, projects: Projects, id: string, sourceReady: bool,
                                   runsBuild: bool, close: Deploy.CloseCode, command: string)
    requires IsRandomId(id) && id != ""
    requires sourceReady && (!runsBuild || Deploy.BuildSucceeded(close))
    ensures var s := Deploy.DeployProcess(root, projects, id, sourceReady, runsBuild, close, command);
            && s.response.Url?
            && Dispatch(s.projects, s.response.url) == Some(Proxy(ProxyTarget(NextPort(projects)), "/"))
            && DecimalValue(s.projects[id].process.portEnv) == NextPort(projects)
  {
    var s := Deploy.DeployProcess(root, projects, id, sourceReady, runsBuild, close, command);
    assert s.response == Deploy.Url("/p/" + id);
    assert id in s.projects && s.projects[id].Node? && s.projects[id].port == NextPort(projects);
    DeployUrlsSplitBack(id);
  }

  /** A deploy changes the routing of its own id only. */
  lemma DeployKeepsOtherRoutes(root: string, projects: Projects, e: Deploy.Event, other: string, rest: string)
    requires IsRandomId(e.id) && other != e.id
    ensures Route(Deploy.Apply(root, projects, e).projects, other, rest) == Route(projects, other, rest)
  {
  }
}
