/** Plans: what `validate_plan` reports, and what `materialize_plan` makes of a
    plan that passes. */
module Planner {
  import opened Types
  import opened Collections

  // The Unicode White_Space characters, which `trim` removes.
  predicate IsSpace(c: char) {
    ('\U{9}' <= c <= '\U{D}') || c == ' ' || c == '\U{85}' || c == '\U{A0}' || c == '\U{1680}'
    || ('\U{2000}' <= c <= '\U{200A}') || c == '\U{2028}' || c == '\U{2029}' || c == '\U{202F}'
    || c == '\U{205F}' || c == '\U{3000}'
  }

  predicate Blank(s: string) {
    forall i :: 0 <= i < |s| ==> IsSpace(s[i])
  }

  // ---- Validation ----

  datatype PlanError =
    | NoJobs
    | EmptyLocal(job: nat)
    | EmptyRole(job: nat)
    | EmptyProfile(job: nat)
    | EmptyInstruction(job: nat)
    | UnknownDep(job: nat, dep: string)
    | SelfDep(job: nat)
    | DuplicateLocal(local: string)
    | DuplicateChannel(name: string)
    | NoParticipants(channel: nat)
    | TooFewParticipants(channel: nat)
    | UnknownParticipant(channel: nat, participant: string)

  function Locals(jobs: seq<PlannedJob>): set<string> {
    set i | 0 <= i < |jobs| :: jobs[i].local
  }

  // A defect of one job, whatever the rest of the plan is but its local ids.
  ghost predicate JobDefect(locals: set<string>, i: nat, job: PlannedJob, e: PlanError) {
    || (e == EmptyLocal(i) && Blank(job.local))
    || (e == EmptyRole(i) && Blank(job.role))
    || (e == EmptyProfile(i) && Blank(job.profile))
    || (e == EmptyInstruction(i) && Blank(job.instruction))
    || (e.UnknownDep? && e.job == i && e.dep in job.deps && e.dep !in locals)
    || (e == SelfDep(i) && job.local in job.deps)
  }

  ghost predicate ChannelDefect(locals: set<string>, i: nat, ch: PlannedChannel, e: PlanError) {
    || (e == NoParticipants(i) && ch.participants == [])
    || (e == TooFewParticipants(i) && ch.mode.TurnBased? && |ch.participants| < 2)
    || (e.UnknownParticipant? && e.channel == i && e.participant in ch.participants && e.participant !in locals)
  }

  function LocalNames(jobs: seq<PlannedJob>): seq<string> {
    seq(|jobs|, i requires 0 <= i < |jobs| => jobs[i].local)
  }

  function ChannelNames(channels: seq<PlannedChannel>): seq<string> {
    seq(|channels|, i requires 0 <= i < |channels| => channels[i].name)
  }

  ghost predicate Repeated(names: seq<string>, x: string) {
    exists i, k :: 0 <= i < k < |names| && names[i] == x && names[k] == x
  }

  ghost predicate IsDefect(plan: Plan, e: PlanError) {
    if plan.jobs == [] then e == NoJobs
    else
      || (exists i :: 0 <= i < |plan.jobs| && JobDefect(Locals(plan.jobs), i, plan.jobs[i], e))
      || (e.DuplicateLocal? && Repeated(LocalNames(plan.jobs), e.local))
      || (e.DuplicateChannel? && Repeated(ChannelNames(plan.channels), e.name))
      || (exists i :: 0 <= i < |plan.channels| && ChannelDefect(Locals(plan.jobs), i, plan.channels[i], e))
  }

  ghost predicate JobOk(locals: set<string>, job: PlannedJob) {
    && !Blank(job.local) && !Blank(job.role) && !Blank(job.profile) && !Blank(job.instruction)
    && (forall d {:trigger d in job.deps} :: d in job.deps ==> d in locals && d != job.local)
  }

  ghost predicate ChannelOk(locals: set<string>, ch: PlannedChannel) {
    && ch.participants != []
    && (ch.mode.TurnBased? ==> |ch.participants| >= 2)
    && (forall p {:trigger p in ch.participants} :: p in ch.participants ==> p in locals)
  }

  ghost predicate WellFormed(plan: Plan) {
    && plan.jobs != []
    && (forall i :: 0 <= i < |plan.jobs| ==> JobOk(Locals(plan.jobs), plan.jobs[i]))
    && (forall i, k :: 0 <= i < k < |plan.jobs| ==> plan.jobs[i].local != plan.jobs[k].local)
    && (forall i, k :: 0 <= i < k < |plan.channels| ==> plan.channels[i].name != plan.channels[k].name)
    && (forall i :: 0 <= i < |plan.channels| ==> ChannelOk(Locals(plan.jobs), plan.channels[i]))
  }

  // A plan has no defect exactly when it is well formed.
  lemma NoDefectIffWellFormed(plan: Plan)
    ensures (forall e :: !IsDefect(plan, e)) <==> WellFormed(plan)
  {
    if forall e :: !IsDefect(plan, e) {
      assert !IsDefect(plan, NoJobs);
      forall i | 0 <= i < |plan.jobs|
        ensures forall e :: !JobDefect(Locals(plan.jobs), i, plan.jobs[i], e)
      {
        forall e ensures !JobDefect(Locals(plan.jobs), i, plan.jobs[i], e) {
          assert !IsDefect(plan, e);
        }
      }
      WellFormedJobs(plan);
      forall i, k | 0 <= i < k < |plan.jobs|
        ensures plan.jobs[i].local != plan.jobs[k].local
      {
        assert !IsDefect(plan, DuplicateLocal(plan.jobs[i].local));
        assert LocalNames(plan.jobs)[i] == plan.jobs[i].local && LocalNames(plan.jobs)[k] == plan.jobs[k].local;
      }
      forall i, k | 0 <= i < k < |plan.channels|
        ensures plan.channels[i].name != plan.channels[k].name
      {
        assert !IsDefect(plan, DuplicateChannel(plan.channels[i].name));
        assert ChannelNames(plan.channels)[i] == plan.channels[i].name;
        assert ChannelNames(plan.channels)[k] == plan.channels[k].name;
      }
      forall i | 0 <= i < |plan.channels|
        ensures ChannelOk(Locals(plan.jobs), plan.channels[i])
      {
        forall e ensures !ChannelDefect(Locals(plan.jobs), i, plan.channels[i], e) {
          assert !IsDefect(plan, e);
        }
        WellFormedChannel(Locals(plan.jobs), i, plan.channels[i]);
      }
    }
  }

  // ---- Which plans are accepted, in so many words ----

  // A job has a local id, a role, a profile and an instruction that are not blank
  // and depends on other jobs of the plan only.
  ghost predicate JobStands(plan: Plan, i: nat)
    requires i < |plan.jobs|
  {
    var b := plan.jobs[i];
    && (forall text :: text in [b.local, b.role, b.profile, b.instruction] ==>
          exists k :: 0 <= k < |text| && !IsSpace(text[k]))
    && (forall d :: d in b.deps ==> d != b.local && exists k :: 0 <= k < |plan.jobs| && plan.jobs[k].local == d)
  }

  // A channel has participants, at least two if it goes by turns, and all of them
  // are jobs of the plan.
  ghost predicate ChannelStands(plan: Plan, i: nat)
    requires i < |plan.channels|
  {
    var ch := plan.channels[i];
    && |ch.participants| >= (if ch.mode.TurnBased? then 2 else 1)
    && (forall p :: p in ch.participants ==> exists k :: 0 <= k < |plan.jobs| && plan.jobs[k].local == p)
  }

  lemma JobStandsIff(plan: Plan, i: nat)
    requires i < |plan.jobs|
    ensures JobOk(Locals(plan.jobs), plan.jobs[i]) <==> JobStands(plan, i)
  {
    var b := plan.jobs[i];
    var texts := [b.local, b.role, b.profile, b.instruction];
    assert texts[0] in texts && texts[1] in texts && texts[2] in texts && texts[3] in texts;
  }

  lemma ChannelStandsIff(plan: Plan, i: nat)
    requires i < |plan.channels|
    ensures ChannelOk(Locals(plan.jobs), plan.channels[i]) <==> ChannelStands(plan, i)
  {
  }

  // There are jobs and all stand, no two share a local id; all channels stand,
  // and no two share a name.
  lemma WellFormedMeans(plan: Plan)
    ensures WellFormed(plan) <==>
      && |plan.jobs| > 0
      && (forall i :: 0 <= i < |plan.jobs| ==> JobStands(plan, i))
      && (forall i, k :: 0 <= i < |plan.jobs| && 0 <= k < |plan.jobs| ==>
            (plan.jobs[i].local == plan.jobs[k].local ==> i == k))
      && (forall i, k :: 0 <= i < |plan.channels| && 0 <= k < |plan.channels| ==>
            (plan.channels[i].name == plan.channels[k].name ==> i == k))
      && (forall i :: 0 <= i < |plan.channels| ==> ChannelStands(plan, i))
  {
    hide JobOk, ChannelOk, JobStands, ChannelStands, Locals;
    forall i | 0 <= i < |plan.jobs| ensures JobOk(Locals(plan.jobs), plan.jobs[i]) <==> JobStands(plan, i) {
      JobStandsIff(plan, i);
    }
    forall i | 0 <= i < |plan.channels| ensures ChannelOk(Locals(plan.jobs), plan.channels[i]) <==> ChannelStands(plan, i) {
      ChannelStandsIff(plan, i);
    }
  }

  lemma WellFormedChannel(locals: set<string>, i: nat, ch: PlannedChannel)
    requires forall e :: !ChannelDefect(locals, i, ch, e)
    ensures ChannelOk(locals, ch)
  {
    assert !ChannelDefect(locals, i, ch, NoParticipants(i)) && !ChannelDefect(locals, i, ch, TooFewParticipants(i));
    forall p | p in ch.participants ensures p in locals {
      assert !ChannelDefect(locals, i, ch, UnknownParticipant(i, p));
    }
  }

  lemma WellFormedJobs(plan: Plan)
    requires forall i :: 0 <= i < |plan.jobs| ==>
      forall e :: !JobDefect(Locals(plan.jobs), i, plan.jobs[i], e)
    ensures forall i :: 0 <= i < |plan.jobs| ==> JobOk(Locals(plan.jobs), plan.jobs[i])
  {
    var locals := Locals(plan.jobs);
    forall i | 0 <= i < |plan.jobs| ensures JobOk(locals, plan.jobs[i])
    {
      var job := plan.jobs[i];
      assert !JobDefect(locals, i, job, EmptyLocal(i)) && !JobDefect(locals, i, job, EmptyRole(i));
      assert !JobDefect(locals, i, job, EmptyProfile(i)) && !JobDefect(locals, i, job, EmptyInstruction(i));
      assert !JobDefect(locals, i, job, SelfDep(i));
      forall d | d in job.deps ensures d in locals {
        assert !JobDefect(locals, i, job, UnknownDep(i, d));
      }
    }
  }

  // ---- The report, in order ----

  // One entry for every offending reference, in the order of the references;
  // an unknown one comes before what else is wrong with it.
  function DepReport(locals: set<string>, i: nat, local: string, deps: seq<string>): seq<PlanError> {
    if deps == [] then []
    else
      var n := |deps| - 1;
      DepReport(locals, i, local, deps[..n])
      + (if deps[n] !in locals then [UnknownDep(i, deps[n])] else [])
      + (if deps[n] == local then [SelfDep(i)] else [])
  }

  function JobReport(locals: set<string>, i: nat, job: PlannedJob): seq<PlanError> {
    (if Blank(job.local) then [EmptyLocal(i)] else [])
    + (if Blank(job.role) then [EmptyRole(i)] else [])
    + (if Blank(job.profile) then [EmptyProfile(i)] else [])
    + (if Blank(job.instruction) then [EmptyInstruction(i)] else [])
    + DepReport(locals, i, job.local, job.deps)
  }

  function JobsReport(locals: set<string>, jobs: seq<PlannedJob>): seq<PlanError> {
    if jobs == [] then []
    else JobsReport(locals, jobs[..|jobs| - 1]) + JobReport(locals, |jobs| - 1, jobs[|jobs| - 1])
  }

  // Each further use of a name is an entry.
  function RepeatReport(names: seq<string>): seq<PlanError> {
    if names == [] then []
    else
      var n := |names| - 1;
      RepeatReport(names[..n]) + if names[n] in names[..n] then [DuplicateLocal(names[n])] else []
  }

  function SeatReport(locals: set<string>, i: nat, participants: seq<string>): seq<PlanError> {
    if participants == [] then []
    else
      var n := |participants| - 1;
      SeatReport(locals, i, participants[..n])
      + if participants[n] !in locals then [UnknownParticipant(i, participants[n])] else []
  }

  function ChannelReport(locals: set<string>, i: nat, ch: PlannedChannel): seq<PlanError> {
    (if ch.participants == [] then [NoParticipants(i)] else [])
    + (if ch.mode.TurnBased? && |ch.participants| < 2 then [TooFewParticipants(i)] else [])
    + SeatReport(locals, i, ch.participants)
  }

  function ChannelsReport(locals: set<string>, channels: seq<PlannedChannel>): seq<PlanError> {
    if channels == [] then []
    else
      var n := |channels| - 1;
      ChannelsReport(locals, channels[..n])
      + (if channels[n].name in ChannelNames(channels[..n]) then [DuplicateChannel(channels[n].name)] else [])
      + ChannelReport(locals, n, channels[n])
  }

  // Jobs first, then repeated local ids, then channels.
  function Report(plan: Plan): seq<PlanError> {
    if plan.jobs == [] then [NoJobs]
    else
      JobsReport(Locals(plan.jobs), plan.jobs) + RepeatReport(LocalNames(plan.jobs))
      + ChannelsReport(Locals(plan.jobs), plan.channels)
  }

  // ---- What is in the report ----

  lemma {:induction false} DepReported(locals: set<string>, i: nat, local: string, deps: seq<string>)
    ensures forall e :: e in DepReport(locals, i, local, deps) <==>
      || (e.UnknownDep? && e.job == i && e.dep in deps && e.dep !in locals)
      || (e == SelfDep(i) && local in deps)
  {
    if deps != [] {
      var n := |deps| - 1;
      DepReported(locals, i, local, deps[..n]);
      assert deps == deps[..n] + [deps[n]];
    }
  }

  lemma JobReported(locals: set<string>, i: nat, job: PlannedJob)
    ensures forall e :: e in JobReport(locals, i, job) <==> JobDefect(locals, i, job, e)
  {
    DepReported(locals, i, job.local, job.deps);
  }

  lemma {:induction false} JobsReported(locals: set<string>, jobs: seq<PlannedJob>)
    ensures forall e :: e in JobsReport(locals, jobs) <==>
      exists k :: 0 <= k < |jobs| && JobDefect(locals, k, jobs[k], e)
  {
    hide JobReport, JobDefect;
    if jobs != [] {
      JobsReported(locals, jobs[..|jobs| - 1]);
      JobReported(locals, |jobs| - 1, jobs[|jobs| - 1]);
    }
  }

  lemma RepeatedSnoc(names: seq<string>, x: string)
    requires names != []
    ensures var n := |names| - 1;
      Repeated(names, x) <==> Repeated(names[..n], x) || (x == names[n] && x in names[..n])
  {
    var n := |names| - 1;
    if Repeated(names, x) {
      var p, q :| 0 <= p < q < |names| && names[p] == x && names[q] == x;
      assert names[..n][p] == x && (q < n ==> names[..n][q] == x);
    }
    if Repeated(names[..n], x) {
      var p, q :| 0 <= p < q < n && names[..n][p] == x && names[..n][q] == x;
      assert names[p] == x && names[q] == x;
    }
    if k :| 0 <= k < n && names[..n][k] == names[n] {
      assert names[k] == names[n];
    }
  }

  lemma {:induction false} RepeatsReported(names: seq<string>)
    ensures forall e :: e in RepeatReport(names) <==> e.DuplicateLocal? && Repeated(names, e.local)
  {
    if names != [] {
      RepeatsReported(names[..|names| - 1]);
      forall e: PlanError | e.DuplicateLocal? ensures e in RepeatReport(names) <==> Repeated(names, e.local) {
        RepeatedSnoc(names, e.local);
      }
    }
  }

  lemma {:induction false} SeatsReported(locals: set<string>, i: nat, participants: seq<string>)
    ensures forall e :: e in SeatReport(locals, i, participants) <==>
      e.UnknownParticipant? && e.channel == i && e.participant in participants && e.participant !in locals
  {
    if participants != [] {
      var n := |participants| - 1;
      SeatsReported(locals, i, participants[..n]);
      assert participants == participants[..n] + [participants[n]];
    }
  }

  lemma ChannelReported(locals: set<string>, i: nat, ch: PlannedChannel)
    ensures forall e :: e in ChannelReport(locals, i, ch) <==> ChannelDefect(locals, i, ch, e)
  {
    SeatsReported(locals, i, ch.participants);
  }

  lemma {:induction false} ChannelsReported(locals: set<string>, channels: seq<PlannedChannel>)
    ensures forall e :: e in ChannelsReport(locals, channels) <==>
      || (e.DuplicateChannel? && Repeated(ChannelNames(channels), e.name))
      || (exists k :: 0 <= k < |channels| && ChannelDefect(locals, k, channels[k], e))
  {
    hide ChannelReport, ChannelDefect, Repeated;
    if channels == [] {
      assert forall x :: !Repeated(ChannelNames([]), x) by { NoneRepeated(); }
    } else {
      var n := |channels| - 1;
      ChannelsReported(locals, channels[..n]);
      ChannelReported(locals, n, channels[n]);
      assert ChannelNames(channels)[..n] == ChannelNames(channels[..n]);
      forall x ensures Repeated(ChannelNames(channels), x) <==>
        Repeated(ChannelNames(channels[..n]), x) || (x == channels[n].name && x in ChannelNames(channels[..n]))
      {
        RepeatedSnoc(ChannelNames(channels), x);
      }
    }
  }

  lemma NoneRepeated()
    ensures forall x :: !Repeated(ChannelNames([]), x)
  {
  }

  // The report consists of exactly the defects of the plan, and is empty exactly
  // if the plan is well formed.
  lemma ReportIsDefects(plan: Plan)
    ensures forall e :: e in Report(plan) <==> IsDefect(plan, e)
    ensures Report(plan) == [] <==> WellFormed(plan)
  {
    hide JobsReport, RepeatReport, ChannelsReport, JobDefect, ChannelDefect, Repeated, WellFormed;
    if plan.jobs != [] {
      JobsReported(Locals(plan.jobs), plan.jobs);
      RepeatsReported(LocalNames(plan.jobs));
      ChannelsReported(Locals(plan.jobs), plan.channels);
    }
    NoDefectIffWellFormed(plan);
    if Report(plan) != [] { assert Report(plan)[0] in Report(plan); }
  }

  // ---- The loops ----

  method DepErrors(locals: set<string>, i: nat, local: string, deps: seq<string>) returns (errors: seq<PlanError>)
    ensures errors == DepReport(locals, i, local, deps)
  {
    errors := [];
    for k := 0 to |deps|
      invariant errors == DepReport(locals, i, local, deps[..k])
    {
      assert deps[..k + 1][..k] == deps[..k];
      if deps[k] !in locals { errors := errors + [UnknownDep(i, deps[k])]; }
      if deps[k] == local { errors := errors + [SelfDep(i)]; }
    }
    assert deps[..|deps|] == deps;
  }

  // The errors of one job, in the order the loop finds them.
  method JobErrors(locals: set<string>, i: nat, job: PlannedJob) returns (errors: seq<PlanError>)
    ensures errors == JobReport(locals, i, job)
    ensures forall e :: e in errors <==> JobDefect(locals, i, job, e)
  {
    hide JobDefect, DepReport, Blank;
    errors := [];
    if Blank(job.local) { errors := errors + [EmptyLocal(i)]; }
    if Blank(job.role) { errors := errors + [EmptyRole(i)]; }
    if Blank(job.profile) { errors := errors + [EmptyProfile(i)]; }
    if Blank(job.instruction) { errors := errors + [EmptyInstruction(i)]; }
    var more := DepErrors(locals, i, job.local, job.deps);
    errors := errors + more;
    JobReported(locals, i, job);
  }

  method SeatErrors(locals: set<string>, i: nat, participants: seq<string>) returns (errors: seq<PlanError>)
    ensures errors == SeatReport(locals, i, participants)
  {
    errors := [];
    for k := 0 to |participants|
      invariant errors == SeatReport(locals, i, participants[..k])
    {
      assert participants[..k + 1][..k] == participants[..k];
      if participants[k] !in locals { errors := errors + [UnknownParticipant(i, participants[k])]; }
    }
    assert participants[..|participants|] == participants;
  }

  method ChannelErrors(locals: set<string>, i: nat, ch: PlannedChannel) returns (errors: seq<PlanError>)
    ensures errors == ChannelReport(locals, i, ch)
  {
    errors := [];
    if ch.participants == [] { errors := errors + [NoParticipants(i)]; }
    if ch.mode.TurnBased? && |ch.participants| < 2 { errors := errors + [TooFewParticipants(i)]; }
    var more := SeatErrors(locals, i, ch.participants);
    errors := errors + more;
  }

  method JobsErrors(locals: set<string>, jobs: seq<PlannedJob>) returns (errors: seq<PlanError>)
    ensures errors == JobsReport(locals, jobs)
  {
    errors := [];
    for i := 0 to |jobs|
      invariant errors == JobsReport(locals, jobs[..i])
    {
      var more := JobErrors(locals, i, jobs[i]);
      errors := errors + more;
      assert jobs[..i + 1][..i] == jobs[..i];
    }
    assert jobs[..|jobs|] == jobs;
  }

  method DuplicateLocals(jobs: seq<PlannedJob>) returns (errors: seq<PlanError>)
    ensures errors == RepeatReport(LocalNames(jobs))
  {
    errors := [];
    ghost var names := LocalNames(jobs);
    var seen: set<string> := {};
    for i := 0 to |jobs|
      invariant forall l :: l in seen <==> l in names[..i]
      invariant errors == RepeatReport(names[..i])
    {
      assert names[..i + 1][..i] == names[..i] && names[..i + 1] == names[..i] + [names[i]];
      if jobs[i].local in seen { errors := errors + [DuplicateLocal(jobs[i].local)]; }
      seen := seen + {jobs[i].local};
    }
    assert names[..|jobs|] == names;
  }

  method ChannelsErrors(locals: set<string>, channels: seq<PlannedChannel>) returns (errors: seq<PlanError>)
    ensures errors == ChannelsReport(locals, channels)
  {
    hide ChannelReport;
    errors := [];
    ghost var names := ChannelNames(channels);
    var seen: set<string> := {};
    for i := 0 to |channels|
      invariant forall l :: l in seen <==> l in names[..i]
      invariant errors == ChannelsReport(locals, channels[..i])
    {
      assert names[..i + 1] == names[..i] + [names[i]];
      assert channels[..i + 1][..i] == channels[..i] && ChannelNames(channels[..i]) == names[..i];
      if channels[i].name in seen { errors := errors + [DuplicateChannel(channels[i].name)]; }
      seen := seen + {channels[i].name};
      var more := ChannelErrors(locals, i, channels[i]);
      errors := errors + more;
    }
    assert channels[..|channels|] == channels;
  }

  // Every reported error is a defect of the plan and every defect is reported,
  // in the order and as often as Report says; the plan is accepted exactly when
  // it is well formed.
  method ValidatePlan(plan: Plan) returns (errors: seq<PlanError>)
    ensures errors == Report(plan)
    ensures forall e :: e in errors <==> IsDefect(plan, e)
    ensures errors == [] <==> WellFormed(plan)
  {
    hide JobsReport, RepeatReport, ChannelsReport, IsDefect, WellFormed;
    ReportIsDefects(plan);
    if plan.jobs == [] {
      errors := [NoJobs];
      return;
    }
    var locals := Locals(plan.jobs);
    var jobErrors := JobsErrors(locals, plan.jobs);
    var duplicates := DuplicateLocals(plan.jobs);
    var channelErrors := ChannelsErrors(locals, plan.channels);
    errors := jobErrors + duplicates + channelErrors;
  }
}
