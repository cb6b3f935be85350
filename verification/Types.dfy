/** The records of the orchestrator: runs, jobs, channels and plans.
    Wall-clock fields, workspace paths and metadata are opaque to every decision
    the orchestrator takes and are not part of the records here. */
module Types {

  datatype Option<+T> = None | Some(value: T)

  // Identifiers are compared and never inspected; module Ids shows that the
  // strings the program uses for them are as good as these tokens.
  datatype RunId = RunId(n: nat)
  datatype JobId = JobId(n: nat)
  datatype ArtifactId = ArtifactId(n: nat)
  datatype ChannelId = ChannelId(run: RunId, name: string)

  datatype RunStatus = Pending | Running | Completed | Failed | Cancelled
  datatype JobStatus = Pending | Ready | Running | Completed | Failed | Cancelled

  // The two roles the daemon treats specially, and every other one.
  datatype Role = Planner | Reviewer | Worker(name: string)

  // Why a job was last marked failed.
  datatype Note =
    | WorkerError(text: string)
    | PeerFailed(peer: JobId)
    | PlanRejected
    | ProcessLost
    | CancelledByUser

  // Artifacts in no particular order: the program lists them in the order a
  // hash table happens to be iterated.
  datatype Artifacts = Artifacts(bag: multiset<ArtifactId>)

  datatype Run = Run(
    task: string,
    status: RunStatus,
    root: JobId,
    finals: Artifacts
  )

  datatype Job = Job(
    run: RunId,
    parent: Option<JobId>,
    role: Role,
    status: JobStatus,
    instruction: string,
    profile: string,
    inputs: seq<ArtifactId>,
    deps: seq<JobId>,
    attempt: nat,
    maxAttempts: nat,
    outputs: seq<ArtifactId>,
    error: Option<Note>,
    round: nat
  )

  const MAX_ATTEMPTS: nat := 3

  datatype ChannelMode = TurnBased | Stream
  datatype PeerFailure = KillAll | Continue

  datatype ChannelMessage = ChannelMessage(sender: JobId, content: string, round: nat)

  datatype Channel = Channel(
    run: RunId,
    participants: seq<JobId>,
    mode: ChannelMode,
    maxRounds: Option<nat>,
    onPeerFailure: PeerFailure,
    round: nat,
    speaker: nat,
    active: bool,
    closed: bool,
    history: seq<ChannelMessage>,
    initial: Option<string>
  )

  // What a planner produces.
  datatype PlannedJob = PlannedJob(
    local: string,
    role: string,
    profile: string,
    instruction: string,
    deps: seq<string>
  )

  datatype PlannedChannel = PlannedChannel(
    name: string,
    participants: seq<string>,
    mode: ChannelMode,
    maxRounds: Option<nat>,
    onPeerFailure: PeerFailure,
    initial: Option<string>
  )

  datatype Plan = Plan(jobs: seq<PlannedJob>, channels: seq<PlannedChannel>)

  datatype Decision = Approved | Revise(feedback: string) | Rejected(reason: string)

  function RoleOf(name: string): Role {
    if name == "planner" then Planner
    else if name == "reviewer" then Reviewer
    else Worker(name)
  }

  predicate Terminal(status: JobStatus) {
    !status.Pending? && !status.Ready? && !status.Running?
  }

  // A job as it is created: never attempted, no output, no error.
  function NewJob(r: RunId, parent: Option<JobId>, role: Role, status: JobStatus,
                  instruction: string, profile: string, inputs: seq<ArtifactId>,
                  deps: seq<JobId>, round: nat): Job
  {
    Job(r, parent, role, status, instruction, profile, inputs, deps, 0, MAX_ATTEMPTS, [], None, round)
  }
}
