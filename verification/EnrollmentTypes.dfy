/** The values the enrollment controller works on: local policy, ledger, remote answers. */
module EnrollmentTypes {
  import opened Replies

  type Id = string

  /** The value of `Entry.pending` that stands for "a human enrollment was issued". */
  const HUMAN: Id := "human_enrollment"

  datatype Error =
    | Expired | Enrollment | Unsupported | Denied | Unavailable | Local
    | StatusCode(code: int, retryAfter: int)
    | Upstream(code: int, retryAfter: int)

  datatype Status =
    | Ready | DryRun | Planned | PartialFailure | InvalidPolicy | RestartRequired | RevokedPreserved
    | SessionExpired | EnrollmentRequired | UnsupportedVersion | AccessDenied
    | MachineAuthRequired | RateLimited | TemporarilyUnavailable

  function Classify(e: Error): Status {
    match e
    case Expired => SessionExpired
    case Enrollment => EnrollmentRequired
    case Unsupported => UnsupportedVersion
    case Denied => AccessDenied
    case StatusCode(code, _) =>
      if code == 401 then SessionExpired
      else if code == 403 then AccessDenied
      else if code == 429 then RateLimited
      else TemporarilyUnavailable
    case Upstream(code, _) =>
      if code == 403 then AccessDenied
      else if code == 401 then MachineAuthRequired
      else if code == 429 then RateLimited
      else TemporarilyUnavailable
    case Unavailable => TemporarilyUnavailable
    case Local => TemporarilyUnavailable
  }

  predicate Forbidden(e: Error) {
    e.Denied? || (e.StatusCode? && e.code == 403) || (e.Upstream? && e.code == 403)
  }

  /** The pause a remote error asks for; the other errors ask for none. */
  function RetryAfter(e: Error): int {
    if e.StatusCode? || e.Upstream? then e.retryAfter else 0
  }

  predicate AlphaNumeric(c: char) {
    'A' <= c <= 'Z' || 'a' <= c <= 'z' || '0' <= c <= '9'
  }

  predicate IsIdentifier(s: string) {
    && 1 <= |s| <= 128
    && AlphaNumeric(s[0])
    && forall i | 1 <= i < |s| :: AlphaNumeric(s[i]) || s[i] in "._-"
  }

  datatype Policy = Policy(
    version: string,
    organization: Id,
    host: Id,
    k8: Id,
    k8Name: Id,
    createK8: bool,
    includes: seq<Id>,
    excludes: seq<Id>,
    allProjects: bool,
    apply: bool,
    repair: bool,
    interval: int,
    maxProjects: int
  ) {
    predicate Valid() {
      && (version == "v0.151.0" || version == "v0.166.3")
      && IsIdentifier(organization) && IsIdentifier(host)
      && (k8 != "" ==> IsIdentifier(k8)) && k8 != host
      && (k8 == "" ==> IsIdentifier(k8Name))
      && 30 <= interval <= 3600 && 1 <= maxProjects <= 1000
      && (forall id | id in includes :: IsIdentifier(id))
      && (forall id | id in excludes :: IsIdentifier(id))
    }

    predicate Allows(id: Id) {
      id !in excludes && (allProjects || id in includes)
    }
  }

  predicate SameBinding(a: Policy, b: Policy) {
    && a.version == b.version && a.organization == b.organization
    && a.host == b.host && a.k8 == b.k8 && a.k8Name == b.k8Name
  }

  datatype Role = Role(name: string, temporary: bool, custom: Option<string>)

  datatype Membership = Membership(identity: Id, roles: seq<Role>) {
    predicate Exact(role: string) {
      |roles| == 1 && roles[0].name == role && !roles[0].temporary && roles[0].custom.None?
    }
  }

  datatype Project = Project(id: Id, slug: string)

  datatype Identity = Identity(id: Id, name: Id)

  datatype Entry = Entry(hostSeen: bool, k8Seen: bool, pending: Id, revoked: bool)

  const UNKNOWN := Entry(false, false, "", false)

  datatype Ledger = Ledger(organization: Id, host: Id, k8: Id, identityPending: bool, projects: map<Id, Entry>) {
    function EntryOf(project: Id): Entry {
      if project in projects then projects[project] else UNKNOWN
    }

    function With(project: Id, entry: Entry): Ledger {
      this.(projects := projects[project := entry])
    }
  }

  /** The two memberships of a project: the host administers it, the K8 identity reads it. */
  datatype Target = Host | Reader {
    function Role(): string {
      if Host? then "admin" else "viewer"
    }

    function Seen(e: Entry): bool {
      if Host? then e.hostSeen else e.k8Seen
    }

    function MarkSeen(e: Entry): Entry {
      if Host? then e.(hostSeen := true) else e.(k8Seen := true)
    }

    function IdOf(host: Id, k8: Id): Id {
      if Host? then host else k8
    }
  }

  /** The first membership of an identity in a list. */
  function Find(items: seq<Membership>, id: Id): Option<Membership> {
    if items == [] then None
    else if items[0].identity == id then Some(items[0])
    else Find(items[1..], id)
  }

  predicate HasExact(items: seq<Membership>, id: Id, role: string) {
    var m := Find(items, id);
    m.Some? && m.value.Exact(role)
  }

  datatype Outcome = Outcome(project: Id, status: Status, action: string)

  datatype Report = Report(status: Status, results: seq<Outcome>, retryAfter: int)

  /** What `project` returns: a status with no error, an error, or nothing because the process died. */
  datatype Verdict = Done(status: Status, action: string) | Failed(error: Error) | Died {
    function OutcomeFor(project: Id): Outcome
      requires !Died?
    {
      if Done? then Outcome(project, status, action) else Outcome(project, Classify(error), "")
    }
  }

  /** Everything the controller does that the outside can see, in order. */
  datatype Event =
    | Booted(policy: Policy)
    | PolicyRead(policyReply: Reply<Policy, Error>)
    | LedgerSaved(ledger: Ledger, reached: bool, ok: bool)
    | ProjectsRead
    | IdentitiesRead
    | MembersRead(project: Id, human: bool, members: Reply<seq<Membership>, Error>)
    | Created(name: Id)
    | Enrolled(project: Id)
    | Granted(project: Id, identity: Id, role: string, existing: bool, human: bool)
    | Vetted(project: Id, identity: Id, accepted: bool)
    | Withdrawn(project: Id)
    | Published(ids: set<Id>)
  {
    /** A call that changes something at the remote. */
    predicate Mutation() {
      Created? || Enrolled? || Granted?
    }
  }

  /** An adversary: the answer it gives to the n-th call, whichever call that is.
      It is free to apply or drop any change, and to crash the process at any call. */
  datatype Oracle = Oracle(
    policy: nat -> Reply<Policy, Error>,
    load: nat -> bool,
    save: nat -> SaveReply,
    projects: nat -> Reply<seq<Project>, Error>,
    identities: nat -> Reply<seq<Identity>, Error>,
    create: nat -> Reply<Identity, Error>,
    members: nat -> Reply<seq<Membership>, Error>,
    enroll: nat -> Reply<(), Error>,
    grant: nat -> Reply<(), Error>,
    vet: nat -> Reply<(), Error>,
    contextDone: nat -> bool
  )
}
