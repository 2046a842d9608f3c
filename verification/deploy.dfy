/** The three deploy handlers (`/deploy/static`, `/deploy/node`,
    `/deploy/repo`) as transitions of the project table. What the handlers
    wait on — writing the uploaded files, cloning the repository, the exit of
    the build — is an input; a failed wait rejects the handler before it
    registers anything, so no response URL is produced. */
module Deploy {
  import opened Wrappers
  import opened JsText
  import opened Registry

  /** How a child process closed: with an exit code, or killed by a signal
      (the close code is then null). */
  datatype CloseCode = Exit(code: int) | Signal

  /** The optional `build` and `start` fields of a node or repo deploy body. */
  datatype Commands = Commands(build: Option<string>, start: Option<string>)

  /** The JSON `{ url }` sent back, or nothing when the handler was rejected. */
  datatype Response = Url(url: string) | NoResponse

  /** The project table after a handler, and what it answered. */
  datatype Step = Step(projects: Projects, response: Response)

  const DefaultNodeStart: string := "node server.js"
  const DefaultRepoStart: string := "npm start"

  /** The build promise resolves only on close code 0. */
  predicate BuildSucceeded(close: CloseCode)
  {
    close == Exit(0)
  }

  /** The node handler's gate, `build && build.trim() !== ""`: the build runs
      exactly when the field is present and not whitespace only. */
  function NodeRunsBuild(build: Option<string>): (runs: bool)
    ensures runs <==> build.Some? && !AllWhitespace(build.value)
  {
    Truthy(build) && Trim(build.value) != ""
  }

  /** The repo handler's gate, plain truthiness of `build`: it runs every
      build the node handler runs, and in addition a non-empty whitespace-only
      one. */
  function RepoRunsBuild(build: Option<string>): (runs: bool)
    ensures NodeRunsBuild(build) ==> runs
    ensures runs && !NodeRunsBuild(build) <==> build.Some? && build.value != "" && AllWhitespace(build.value)
  {
    Truthy(build)
  }

  /** `start || default`: the default is used exactly when the field is
      absent, null or empty (or is the default itself); otherwise the given
      command is used verbatim. */
  function StartCommand(start: Option<string>, default: string): (command: string)
    requires default != ""
    ensures command != ""
    ensures command == default <==> !Truthy(start) || start.value == default
    ensures command != default ==> start == Some(command)
  {
    OrElse(start, default)
  }

  /** `spawn(command, { cwd, shell: true, env: { ...process.env, PORT: port } })`:
      the handle records the command, the project directory, and a `PORT`
      that reads back as the port. */
  function Launch(command: string, root: string, id: string, port: nat): (p: Process)
    ensures p.command == command && p.cwd == ProjectPath(root, id)
    ensures AllDigits(p.portEnv) && |p.portEnv| >= 1 && DecimalValue(p.portEnv) == port
  {
    DecimalRoundTrip(port);
    Process(command, ProjectPath(root, id), NatToString(port))
  }

  /* ---------------- the handlers ---------------- */

  /** `/deploy/static`: write the files, register a static record for the
      project directory, answer `/p/{id}/index.html`. */
  function DeployStatic(root: string, projects: Projects, id: string, written: bool): (s: Step)
    requires IsRandomId(id)
    ensures s.response.Url? <==> written
    ensures !written ==> s.projects == projects
    ensures written ==> && s.projects.Keys == projects.Keys + {id}
                        && s.projects[id].Static?
                        && s.projects[id].path == ProjectPath(root, id)
                        && s.response.url == "/p/" + id + "/index.html"
    ensures forall k :: k in projects && k != id ==> k in s.projects && s.projects[k] == projects[k]
    ensures written && id !in projects ==> NextPort(s.projects) == NextPort(projects) + 1
    ensures id in projects ==> NextPort(s.projects) == NextPort(projects)
    ensures RecordsConsistent(root, projects) ==> RecordsConsistent(root, s.projects)
    ensures PortsInvariant(projects) && id !in projects ==> PortsInvariant(s.projects)
  {
    if !written then Step(projects, NoResponse)
    else
      RegisterFreshKeepsPortsInvariant(projects, id, Static(ProjectPath(root, id)));
      RegisterKeepsRecords(root, projects, id, Static(ProjectPath(root, id)));
      Step(projects[id := Static(ProjectPath(root, id))], Url("/p/" + id + "/index.html"))
  }

  /** The shape the node and repo handlers share: take the next port, run
      the build when the gate says so and stop unless it closes with 0, start
      the command with that port, register a node record, answer `/p/{id}`. */
  function DeployProcess(root: string, projects: Projects, id: string, sourceReady: bool,
                         runsBuild: bool, close: CloseCode, command: string): (s: Step)
    requires IsRandomId(id)
    ensures s.response.Url? <==> sourceReady && (!runsBuild || BuildSucceeded(close))
    ensures s.response.NoResponse? ==> s.projects == projects
    ensures s.response.Url? ==> && s.projects.Keys == projects.Keys + {id}
                                && s.projects[id].Node?
                                && s.projects[id].port == NextPort(projects)
                                && s.projects[id].process.command == command
                                && s.projects[id].process.cwd == ProjectPath(root, id)
                                && |s.projects[id].process.portEnv| >= 1 && AllDigits(s.projects[id].process.portEnv)
                                && DecimalValue(s.projects[id].process.portEnv) == s.projects[id].port
                                && s.response.url == "/p/" + id
    ensures forall k :: k in projects && k != id ==> k in s.projects && s.projects[k] == projects[k]
    ensures s.response.Url? && id !in projects ==> NextPort(s.projects) == NextPort(projects) + 1
    ensures id in projects ==> NextPort(s.projects) == NextPort(projects)
    ensures RecordsConsistent(root, projects) ==> RecordsConsistent(root, s.projects)
    ensures PortsInvariant(projects) && id !in projects ==> PortsInvariant(s.projects)
  {
    if !sourceReady then Step(projects, NoResponse)
    else
      var port := NextPort(projects);
      if runsBuild && !BuildSucceeded(close) then Step(projects, NoResponse)
      else
        var record := Node(port, Launch(command, root, id, port));
        RegisterFreshKeepsPortsInvariant(projects, id, record);
        RegisterKeepsRecords(root, projects, id, record);
        Step(projects[id := record], Url("/p/" + id))
  }

  /** `/deploy/node`: uploaded files, the trimmed-build gate, default start
      command "node server.js". A whitespace-only build is skipped. */
  function DeployNode(root: string, projects: Projects, id: string, commands: Commands,
                      written: bool, close: CloseCode): (s: Step)
    requires IsRandomId(id)
    ensures s.response.Url? <==> written && (!NodeRunsBuild(commands.build) || BuildSucceeded(close))
    ensures s.response.Url? ==> id in s.projects && s.projects[id].Node? && s.projects[id].process.command == OrElse(commands.start, DefaultNodeStart)
    ensures written && commands.build.Some? && AllWhitespace(commands.build.value) ==> s.response.Url?
    ensures s.response.NoResponse? ==> s.projects == projects
  {
    DeployProcess(root, projects, id, written, NodeRunsBuild(commands.build), close,
                  StartCommand(commands.start, DefaultNodeStart))
  }

  /** `/deploy/repo`: a cloned repository, the truthiness build gate, default
      start command "npm start". A whitespace-only build is run, and its
      failure rejects the deploy. */
  function DeployRepo(root: string, projects: Projects, id: string, commands: Commands,
                      cloned: bool, close: CloseCode): (s: Step)
    requires IsRandomId(id)
    ensures s.response.Url? <==> cloned && (!RepoRunsBuild(commands.build) || BuildSucceeded(close))
    ensures s.response.Url? ==> id in s.projects && s.projects[id].Node? && s.projects[id].process.command == OrElse(commands.start, DefaultRepoStart)
    ensures commands.build.Some? && commands.build.value != "" && !BuildSucceeded(close) ==> s.response.NoResponse?
    ensures s.response.NoResponse? ==> s.projects == projects
  {
    DeployProcess(root, projects, id, cloned, RepoRunsBuild(commands.build), close,
                  StartCommand(commands.start, DefaultRepoStart))
  }

  /* ---------------- sequences of deploys ---------------- */

  /** One deploy request together with the outcome of what it waited on. */
  datatype Event =
    | StaticDeploy(id: string, written: bool)
    | NodeDeploy(id: string, commands: Commands, written: bool, close: CloseCode)
    | RepoDeploy(id: string, commands: Commands, cloned: bool, close: CloseCode)

  /** Whether a deploy is rejected; it depends on the request alone, never on
      the table. */
  predicate Fails(e: Event)
  {
    match e
    case StaticDeploy(_, written) => !written
    case NodeDeploy(_, commands, written, close) =>
      !written || (NodeRunsBuild(commands.build) && !BuildSucceeded(close))
    case RepoDeploy(_, commands, cloned, close) =>
      !cloned || (RepoRunsBuild(commands.build) && !BuildSucceeded(close))
  }

  predicate StartsProcess(e: Event)
  {
    !e.StaticDeploy?
  }

  /** The handler an event goes to. */
  function Apply(root: string, projects: Projects, e: Event): (s: Step)
    requires IsRandomId(e.id)
    ensures s.response.NoResponse? <==> Fails(e)
    ensures Fails(e) ==> s.projects == projects
    ensures !Fails(e) ==> s.projects.Keys == projects.Keys + {e.id}
    ensures !Fails(e) && StartsProcess(e) ==> s.projects[e.id].Node? && s.projects[e.id].port == NextPort(projects)
    ensures !Fails(e) && !StartsProcess(e) ==> s.projects[e.id].Static?
    ensures forall k :: k in projects && k != e.id ==> k in s.projects && s.projects[k] == projects[k]
    ensures RecordsConsistent(root, projects) ==> RecordsConsistent(root, s.projects)
    ensures PortsInvariant(projects) && e.id !in projects ==> PortsInvariant(s.projects)
  {
    match e
    case StaticDeploy(id, written) => DeployStatic(root, projects, id, written)
    case NodeDeploy(id, commands, written, close) => DeployNode(root, projects, id, commands, written, close)
    case RepoDeploy(id, commands, cloned, close) => DeployRepo(root, projects, id, commands, cloned, close)
  }

  predicate ValidIds(es: seq<Event>)
  {
    forall i :: 0 <= i < |es| ==> IsRandomId(es[i].id)
  }

  /** Every event carries an identifier not yet registered and not shared
      with any other event. */
  predicate FreshIds(projects: Projects, es: seq<Event>)
  {
    && (forall i :: 0 <= i < |es| ==> es[i].id !in projects)
    && (forall i, j :: 0 <= i < j < |es| ==> es[i].id != es[j].id)
  }

  /** The table after handling the events one at a time. */
  function Run(root: string, projects: Projects, es: seq<Event>): Projects
    requires ValidIds(es)
    decreases |es|
  {
    if es == [] then projects else Run(root, Apply(root, projects, es[0]).projects, es[1..])
  }

  /** The port a deploy hands to the process it starts, if it starts one. */
  function PortTaken(projects: Projects, e: Event): seq<nat>
  {
    if !Fails(e) && StartsProcess(e) then [NextPort(projects)] else []
  }

  /** The ports handed to the processes the events started, in order. */
  function Issued(root: string, projects: Projects, es: seq<Event>): seq<nat>
    requires ValidIds(es)
    decreases |es|
  {
    if es == [] then [] else PortTaken(projects, es[0]) + Issued(root, Apply(root, projects, es[0]).projects, es[1..])
  }

  /** Dropping the first event keeps the identifiers of the rest fresh for
      the table the first one produced. */
  lemma FreshIdsTail(root: string, projects: Projects, es: seq<Event>)
    requires |es| > 0 && ValidIds(es) && FreshIds(projects, es)
    ensures ValidIds(es[1..]) && FreshIds(Apply(root, projects, es[0]).projects, es[1..])
  {
    var next := Apply(root, projects, es[0]).projects;
    assert next.Keys <= projects.Keys + {es[0].id};
    forall i | 0 <= i < |es| - 1 ensures es[1..][i].id !in next {
      assert es[1..][i] == es[i + 1];
      assert es[0].id != es[i + 1].id;
    }
  }

  predicate AllWithin(ports: seq<nat>, low: nat, high: nat)
  {
    forall i :: 0 <= i < |ports| ==> low <= ports[i] < high
  }

  predicate StrictlyIncreasing(ports: seq<nat>)
  {
    forall i, j :: 0 <= i < j < |ports| ==> ports[i] < ports[j]
  }

  /** A deploy of a fresh identifier that starts a process takes the next
      port, and the next port moves past it. */
  lemma PortTakenIsNext(root: string, projects: Projects, e: Event)
    requires IsRandomId(e.id) && e.id !in projects
    ensures PortTaken(projects, e) == [] || PortTaken(projects, e) == [NextPort(projects)]
    ensures NextPort(projects) + |PortTaken(projects, e)| <= NextPort(Apply(root, projects, e).projects)
  {
  }

  /** With fresh identifiers, every port handed to a started process lies
      between the next port of the starting table and the next port of the
      final one; the next port never moves back. */
  lemma {:induction false} FreshDeploysIssuePortsInRange(root: string, projects: Projects, es: seq<Event>)
    requires ValidIds(es) && FreshIds(projects, es)
    ensures AllWithin(Issued(root, projects, es), NextPort(projects), NextPort(Run(root, projects, es)))
    ensures NextPort(projects) <= NextPort(Run(root, projects, es))
    decreases |es|
  {
    if es != [] {
      var next := Apply(root, projects, es[0]).projects;
      FreshIdsTail(root, projects, es);
      FreshDeploysIssuePortsInRange(root, next, es[1..]);
      PortTakenIsNext(root, projects, es[0]);
      PrependInRange(PortTaken(projects, es[0]), Issued(root, next, es[1..]),
                     NextPort(projects), NextPort(next), NextPort(Run(root, next, es[1..])));
    }
  }

  /** With fresh identifiers, successive deploys that start a process get
      strictly increasing, hence pairwise distinct, ports. */
  lemma {:induction false} FreshDeploysIssueIncreasingPorts(root: string, projects: Projects, es: seq<Event>)
    requires ValidIds(es) && FreshIds(projects, es)
    ensures StrictlyIncreasing(Issued(root, projects, es))
    decreases |es|
  {
    if es != [] {
      var next := Apply(root, projects, es[0]).projects;
      FreshIdsTail(root, projects, es);
      FreshDeploysIssueIncreasingPorts(root, next, es[1..]);
      FreshDeploysIssuePortsInRange(root, next, es[1..]);
      PortTakenIsNext(root, projects, es[0]);
      PrependIncreasing(PortTaken(projects, es[0]), Issued(root, next, es[1..]),
                        NextPort(projects), NextPort(next), NextPort(Run(root, next, es[1..])));
    }
  }

  /** Putting a port at or below the range of a sequence in front of it
      keeps every port in the widened range. */
  lemma PrependInRange(head: seq<nat>, tail: seq<nat>, low: nat, mid: nat, high: nat)
    requires head == [] || head == [low]
    requires low + |head| <= mid <= high
    requires AllWithin(tail, mid, high)
    ensures AllWithin(head + tail, low, high)
  {
  }

  /** Putting a port below the range of a rising sequence in front of it
      keeps it rising. */
  lemma PrependIncreasing(head: seq<nat>, tail: seq<nat>, low: nat, mid: nat, high: nat)
    requires head == [] || head == [low]
    requires low + |head| <= mid <= high
    requires AllWithin(tail, mid, high) && StrictlyIncreasing(tail)
    ensures StrictlyIncreasing(head + tail)
  {
  }

  /** Handling a batch of fresh identifiers keeps the port invariant: every
      registered process port lies in the allocated range and none is shared. */
  lemma {:induction false} FreshRunKeepsPortsInvariant(root: string, projects: Projects, es: seq<Event>)
    requires ValidIds(es) && FreshIds(projects, es) && PortsInvariant(projects)
    ensures PortsInvariant(Run(root, projects, es))
    decreases |es|
  {
    if es != [] {
      FreshIdsTail(root, projects, es);
      FreshRunKeepsPortsInvariant(root, Apply(root, projects, es[0]).projects, es[1..]);
    }
  }

  lemma ConcatTail<T>(x: seq<T>, y: seq<T>)
    requires x != []
    ensures (x + y)[0] == x[0] && (x + y)[1..] == x[1..] + y
  {
  }

  lemma ConcatAssoc<T>(x: seq<T>, y: seq<T>, z: seq<T>)
    ensures x + (y + z) == (x + y) + z
  {
  }

  lemma ValidIdsAppend(a: seq<Event>, b: seq<Event>)
    requires ValidIds(a) && ValidIds(b)
    ensures ValidIds(a + b)
  {
  }

  /** Handling two batches one after the other is handling their
      concatenation. */
  lemma {:induction false} RunAppend(root: string, projects: Projects, a: seq<Event>, b: seq<Event>)
    requires ValidIds(a) && ValidIds(b)
    ensures ValidIds(a + b)
    ensures Run(root, projects, a + b) == Run(root, Run(root, projects, a), b)
    decreases |a|
  {
    ValidIdsAppend(a, b);
    if a == [] {
      assert a + b == b;
    } else {
      var next := Apply(root, projects, a[0]).projects;
      ConcatTail(a, b);
      RunAppend(root, next, a[1..], b);
    }
  }

  /** The ports handed out for two batches in turn are those of the first
      followed by those of the second. */
  lemma {:induction false} IssuedAppend(root: string, projects: Projects, a: seq<Event>, b: seq<Event>)
    requires ValidIds(a) && ValidIds(b)
    ensures ValidIds(a + b)
    ensures Issued(root, projects, a + b) == Issued(root, projects, a) + Issued(root, Run(root, projects, a), b)
    decreases |a|
  {
    ValidIdsAppend(a, b);
    var ab := a + b;
    if a == [] {
      assert ab == b;
    } else {
      ConcatTail(a, b);
      var next := Apply(root, projects, a[0]).projects;
      var head := PortTaken(projects, a[0]);
      assert ValidIds(a[1..]);
      IssuedAppend(root, next, a[1..], b);
      var first := Issued(root, next, a[1..]);
      var second := Issued(root, Run(root, next, a[1..]), b);
      assert Issued(root, projects, ab) == head + Issued(root, next, a[1..] + b);
      assert Run(root, projects, a) == Run(root, next, a[1..]);
      ConcatAssoc(head, first, second);
    }
  }

  /** A rejected deploy leaves no trace: every later deploy sees the table
      and gets the port it would have had if the request had never been
      made, so a failed build does not use up a port. */
  lemma FailedDeployLeavesNoTrace(root: string, projects: Projects, before: seq<Event>, e: Event, after: seq<Event>)
    requires ValidIds(before) && IsRandomId(e.id) && ValidIds(after) && Fails(e)
    ensures ValidIds(before + [e] + after) && ValidIds(before + after)
    ensures Run(root, projects, before + [e] + after) == Run(root, projects, before + after)
    ensures Issued(root, projects, before + [e] + after) == Issued(root, projects, before + after)
  {
    FailedDeployKeepsTable(root, projects, before, e, after);
    FailedDeployKeepsPorts(root, projects, before, e, after);
  }

  /** A rejected deploy on its own changes nothing and takes no port. */
  lemma FailedStepIsIdentity(root: string, projects: Projects, e: Event)
    requires IsRandomId(e.id) && Fails(e)
    ensures ValidIds([e])
    ensures Run(root, projects, [e]) == projects
    ensures Issued(root, projects, [e]) == []
  {
    assert [e][1..] == [];
  }

  lemma FailedDeployKeepsTable(root: string, projects: Projects, before: seq<Event>, e: Event, after: seq<Event>)
    requires ValidIds(before) && IsRandomId(e.id) && ValidIds(after) && Fails(e)
    ensures ValidIds(before + [e] + after) && ValidIds(before + after)
    ensures Run(root, projects, before + [e] + after) == Run(root, projects, before + after)
  {
    FailedStepIsIdentity(root, Run(root, projects, before), e);
    RunAppend(root, projects, before, [e]);
    RunAppend(root, projects, before + [e], after);
    RunAppend(root, projects, before, after);
  }

  lemma FailedDeployKeepsPorts(root: string, projects: Projects, before: seq<Event>, e: Event, after: seq<Event>)
    requires ValidIds(before) && IsRandomId(e.id) && ValidIds(after) && Fails(e)
    ensures ValidIds(before + [e] + after) && ValidIds(before + after)
    ensures Issued(root, projects, before + [e] + after) == Issued(root, projects, before + after)
  {
    FailedStepIsIdentity(root, Run(root, projects, before), e);
    RunAppend(root, projects, before, [e]);
    IssuedAppend(root, projects, before, [e]);
    IssuedAppend(root, projects, before + [e], after);
    IssuedAppend(root, projects, before, after);
    assert Issued(root, projects, before) + [] == Issued(root, projects, before);
  }

  /** Handling a batch keeps every record in its own project's directory. */
  lemma {:induction false} RunKeepsRecordsConsistent(root: string, projects: Projects, es: seq<Event>)
    requires ValidIds(es) && RecordsConsistent(root, projects)
    ensures RecordsConsistent(root, Run(root, projects, es))
    decreases |es|
  {
    if es != [] {
      assert ValidIds(es[1..]);
      RunKeepsRecordsConsistent(root, Apply(root, projects, es[0]).projects, es[1..]);
    }
  }

  /** An identifier that repeats a registered key overwrites its record
      without advancing the next port, so the next fresh process deploy is
      handed the same port again and two records share it. */
  lemma RepeatedIdSharesPort(root: string, projects: Projects, id: string, c1: Commands,
                             other: string, c2: Commands)
    requires IsRandomId(id) && IsRandomId(other)
    requires id in projects && other !in projects
    requires !NodeRunsBuild(c1.build) && !NodeRunsBuild(c2.build)
    ensures var s1 := DeployNode(root, projects, id, c1, true, Signal);
            var s2 := DeployNode(root, s1.projects, other, c2, true, Signal);
            && s2.projects[id].Node? && s2.projects[other].Node?
            && s2.projects[id].port == s2.projects[other].port
            && !PortsDistinct(s2.projects)
  {
  }
}
