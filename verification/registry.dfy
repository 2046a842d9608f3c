/** The global `projects` table of the host: project identifiers, the record
    kept for each deployed project, and the port the next process-backed
    project is given. */
module Registry {
  import opened JsText

  /** The first port handed to a process-backed project. */
  const BasePort: nat := 4000

  /* ---------------- identifiers ---------------- */

  predicate IsBase36Digit(c: char)
  {
    '0' <= c <= '9' || 'a' <= c <= 'z'
  }

  /** What `Math.random().toString(36)` renders: "0" for zero, otherwise "0."
      followed by base-36 digits. */
  predicate IsRandomRendering(s: string)
  {
    s == "0" || (|s| >= 2 && s[0] == '0' && s[1] == '.' && forall i :: 2 <= i < |s| ==> IsBase36Digit(s[i]))
  }

  /** The identifiers randomId can produce: at most eight base-36 digits. */
  predicate IsRandomId(id: string)
  {
    |id| <= 8 && forall i :: 0 <= i < |id| ==> IsBase36Digit(id[i])
  }

  /** randomId: the (up to) eight characters after the "0." of the base-36
      rendering of a random number, which is supplied by the caller. */
  function RandomId(rendering: string): (id: string)
    ensures |id| <= 8
    ensures |id| == if |rendering| >= 2 then Min(8, |rendering| - 2) else 0
    ensures forall i :: 0 <= i < |id| ==> id[i] == rendering[i + 2]
    ensures IsRandomRendering(rendering) ==> IsRandomId(id)
  {
    Substring(rendering, 2, 10)
  }

  /* ---------------- records ---------------- */

  /** A spawned start command, kept as the record's process handle: the shell
      command, its working directory and the `PORT` value in its environment. */
  datatype Process = Process(command: string, cwd: string, portEnv: string)

  /** `{ type: "static", path }` or `{ type: "node", port, process }`. */
  datatype Project =
    | Static(path: string)
    | Node(port: nat, process: Process)

  type Projects = map<string, Project>

  /** The directory a project's source lives in: `path.join(root, id)` for an
      identifier that has no separator or dot segments. */
  function ProjectPath(root: string, id: string): (p: string)
    ensures |p| == |root| + 1 + |id| && p[..|root|] == root && p[|root|] == '/' && p[|root| + 1..] == id
  {
    root + "/" + id
  }

  /** Each record sits in its own project's directory, and a process was
      started with the record's port in its environment. */
  predicate RecordsConsistent(root: string, projects: Projects)
  {
    forall id :: id in projects ==> RecordOwnedBy(root, id, projects[id])
  }

  predicate RecordOwnedBy(root: string, id: string, p: Project)
  {
    match p
    case Static(path) => path == ProjectPath(root, id)
    case Node(port, process) => process.cwd == ProjectPath(root, id) && process.portEnv == NatToString(port)
  }

  /* ---------------- ports ---------------- */

  /** nextPort: the base port plus the number of registered projects, static
      ones included. When every registered port lies below it, it is held by
      no registered project. */
  function NextPort(projects: Projects): (p: nat)
    ensures p >= BasePort
    ensures PortsBelowNext(projects) ==> forall id :: id in projects && projects[id].Node? ==> projects[id].port != p
  {
    BasePort + |projects|
  }

  predicate PortsBelowNext(projects: Projects)
  {
    forall id :: id in projects && projects[id].Node? ==> BasePort <= projects[id].port < BasePort + |projects|
  }

  /** No two registered process projects share a port. */
  predicate PortsDistinct(projects: Projects)
  {
    forall a, b :: a in projects && b in projects && a != b && projects[a].Node? && projects[b].Node? ==>
      projects[a].port != projects[b].port
  }

  predicate PortsInvariant(projects: Projects)
  {
    PortsBelowNext(projects) && PortsDistinct(projects)
  }

  /** Registering a fresh identifier with a node record on the next port, or
      with a static record, keeps the port invariant. */
  lemma {:induction false} RegisterFreshKeepsPortsInvariant(projects: Projects, id: string, p: Project)
    requires p.Node? ==> p.port == NextPort(projects)
    ensures PortsInvariant(projects) && id !in projects ==> PortsInvariant(projects[id := p])
  {
  }

  /** Registering a record under an identifier adds that key, advances the
      next port exactly when the key is new, and keeps every record in its
      own directory when the new one is. */
  lemma RegisterKeepsRecords(root: string, projects: Projects, id: string, p: Project)
    requires RecordOwnedBy(root, id, p)
    ensures projects[id := p].Keys == projects.Keys + {id}
    ensures id !in projects ==> NextPort(projects[id := p]) == NextPort(projects) + 1
    ensures id in projects ==> NextPort(projects[id := p]) == NextPort(projects)
    ensures RecordsConsistent(root, projects) ==> RecordsConsistent(root, projects[id := p])
  {
  }
}
