/** Chains of revisions: a review that asks for changes brings a new job and a
    new review, which may ask for changes again. */
module Revisions {
  import opened Types
  import opened Collections
  import opened EngineSpec
  import opened EngineInv
  import opened EngineLife
  import opened Failures
  import opened Daemon
  import opened DaemonFrame

  // ---- One revision ----

  // Event i is the completion of a review that leads to a revision.
  ghost predicate RevisesAt(maxRevisions: nat, s: Engine, history: seq<Event>, i: nat)
    requires i < |history|
  {
    var u, e := Execute(maxRevisions, s, history[..i]), history[i];
    && e.JobCompleted? && e.outcome.Review?
    && e.done.job in u.jobs && u.jobs[e.done.job].role.Reviewer?
    && Revision(Complete(u, e.done), e.done.job, e.outcome.decision, maxRevisions, e.outcome.coder).Some?
  }

  // What a revision makes of review a: review b of the work of job coder, which
  // goes over the work reviewed by a, from what that produced.
  ghost predicate Revised(maxRevisions: nat, jobs: Jobs, a: JobId, b: JobId, coder: JobId, feedback: string) {
    && a in jobs && jobs[a].role.Reviewer? && jobs[a].deps != [] && jobs[a].deps[0] in jobs
    && b in jobs && jobs[b].role.Reviewer? && jobs[b].deps == [coder] && coder in jobs
    && jobs[b].run == jobs[a].run && jobs[coder].run == jobs[a].run
    && jobs[jobs[a].deps[0]].status.Completed?
    && jobs[coder].role == jobs[jobs[a].deps[0]].role
    && jobs[coder].profile == jobs[jobs[a].deps[0]].profile
    && jobs[coder].inputs == jobs[jobs[a].deps[0]].outputs
    && jobs[b].profile == jobs[a].profile && jobs[b].inputs == []
    && jobs[b].parent == jobs[a].parent && jobs[coder].parent == jobs[a].parent
    && jobs[b].instruction == jobs[a].instruction
    && jobs[b].round == jobs[coder].round == jobs[a].round + 1 <= maxRevisions
    && jobs[coder].instruction ==
         RevisedInstruction(jobs[jobs[a].deps[0]].instruction, feedback, jobs[a].round + 1, maxRevisions)
  }

  ghost predicate IsRevision(history: seq<Event>, i: nat) {
    i < |history| && history[i].JobCompleted? && history[i].outcome.Review? && history[i].outcome.decision.Revise?
  }

  // Completing changes neither what a job is about nor who depends on it.
  lemma CompletedKeeps(u: Engine, c: Completion, k: JobId)
    requires Inv(u) && CompletionOk(u, c) && k in u.jobs
    ensures var t := Complete(u, c);
      && k in t.jobs && JobEvolves(u.jobs[k], t.jobs[k])
      && t.jobs.Keys == u.jobs.Keys
  {
    hide Inv;
    CompleteEvolves(u, c);
    CompleteShape(u, c);
  }

  lemma RevisionRevises(maxRevisions: nat, u: Engine, e: Event)
    requires Inv(u) && Enabled(u, e)
    requires e.JobCompleted? && e.outcome.Review? && e.done.job in u.jobs && u.jobs[e.done.job].role.Reviewer?
    requires Revision(Complete(u, e.done), e.done.job, e.outcome.decision, maxRevisions, e.outcome.coder).Some?
    ensures Revised(maxRevisions, Step(maxRevisions, u, e).jobs, e.done.job, e.outcome.reviewer, e.outcome.coder,
                    e.outcome.decision.feedback)
  {
    hide Inv, Complete, CompletionOk, RevisedInstruction, JobEvolves;
    var a, o := e.done.job, e.outcome;
    var t := Complete(u, e.done);
    CompletedKeeps(u, e.done, a);
    RoleKept(u.jobs[a], t.jobs[a]);
    ReviewedIsDone(u, e.done);
  }

  // The work a review is of was Completed before the review was started.
  lemma ReviewedIsDone(u: Engine, c: Completion)
    requires Inv(u) && CompletionOk(u, c)
    ensures var t := Complete(u, c);
      c.job in u.jobs && forall d :: d in u.jobs[c.job].deps ==> d in u.jobs && d in t.jobs && t.jobs[d].status.Completed?
  {
    hide QueueOk, CapOk, RootsOk, AttemptsOk, Complete;
    CompleteSpec(u, c);
    assert DepsDone(u.jobs, u.jobs[c.job].deps);
  }

  lemma RoleKept(b: Job, c: Job)
    requires JobEvolves(b, c)
    ensures c.role == b.role && c.round == b.round && c.deps == b.deps && c.instruction == b.instruction && c.run == b.run
    ensures c.profile == b.profile && c.inputs == b.inputs && c.parent == b.parent
    ensures b.status.Completed? ==> c == b
  {
  }

  // It stays made.
  lemma RevisedStays(maxRevisions: nat, s: Engine, t: Engine, a: JobId, b: JobId, coder: JobId, feedback: string)
    requires Evolves(s, t) && Revised(maxRevisions, s.jobs, a, b, coder, feedback)
    ensures Revised(maxRevisions, t.jobs, a, b, coder, feedback)
  {
    hide RunsEvolve, RevisedInstruction, JobEvolves;
    forall k | k in s.jobs
      ensures k in t.jobs && t.jobs[k].role == s.jobs[k].role && t.jobs[k].round == s.jobs[k].round
      ensures t.jobs[k].deps == s.jobs[k].deps && t.jobs[k].instruction == s.jobs[k].instruction
      ensures t.jobs[k].run == s.jobs[k].run && t.jobs[k].profile == s.jobs[k].profile
      ensures t.jobs[k].inputs == s.jobs[k].inputs && t.jobs[k].parent == s.jobs[k].parent
      ensures s.jobs[k].status.Completed? ==> t.jobs[k] == s.jobs[k]
    {
      assert JobEvolves(s.jobs[k], t.jobs[k]);
      RoleKept(s.jobs[k], t.jobs[k]);
    }
  }

  lemma {:induction false} RevisedLater(maxRevisions: nat, s: Engine, history: seq<Event>, i: nat)
    requires Inv(s) && Legal(maxRevisions, s, history) && i < |history| && RevisesAt(maxRevisions, s, history, i)
    ensures IsRevision(history, i)
    ensures Revised(maxRevisions, Execute(maxRevisions, s, history).jobs, history[i].done.job,
                    history[i].outcome.reviewer, history[i].outcome.coder, history[i].outcome.decision.feedback)
  {
    hide Inv, Enabled, Step, Evolves, Revised, Complete;
    var n := |history| - 1;
    var u := Execute(maxRevisions, s, history[..n]);
    ExecuteKeepsInv(maxRevisions, s, history[..n]);
    if i == n {
      RevisionRevises(maxRevisions, u, history[n]);
    } else {
      assert history[..n][..i] == history[..i];
      assert RevisesAt(maxRevisions, s, history[..n], i);
      RevisedLater(maxRevisions, s, history[..n], i);
      StepEvolves(maxRevisions, u, history[n]);
      var e := history[i];
      RevisedStays(maxRevisions, u, Step(maxRevisions, u, history[n]), e.done.job, e.outcome.reviewer,
                   e.outcome.coder, e.outcome.decision.feedback);
    }
  }

  // ---- Chains ----

  // Each event revises the review that the one before it made.
  ghost predicate IsChain(maxRevisions: nat, s: Engine, history: seq<Event>, chain: seq<nat>) {
    && (forall k :: 0 <= k < |chain| ==> chain[k] < |history| && RevisesAt(maxRevisions, s, history, chain[k]))
    && (forall k :: 0 < k < |chain| ==>
          history[chain[k]].done.job == history[chain[k - 1]].outcome.reviewer)
  }

  // The feedback of every review of the chain, in order.
  ghost function Feedback(history: seq<Event>, chain: seq<nat>): seq<string>
    requires forall k :: 0 <= k < |chain| ==> IsRevision(history, chain[k])
  {
    seq(|chain|, k requires 0 <= k < |chain| && IsRevision(history, chain[k]) =>
      history[chain[k]].outcome.decision.feedback)
  }

  // An instruction with feedback added to it round after round.
  function Instructed(instruction: string, feedback: seq<string>, round: nat, max: nat): string {
    if feedback == [] then instruction
    else
      var n := |feedback| - 1;
      RevisedInstruction(Instructed(instruction, feedback[..n], round, max), feedback[n], round + |feedback|, max)
  }

  predicate Contains(s: string, part: string) {
    exists i :: 0 <= i <= |s| && part <= s[i..]
  }

  lemma ContainsMore(s: string, t: string, part: string)
    requires Contains(s, part) && s <= t
    ensures Contains(t, part)
  {
    var i :| 0 <= i <= |s| && part <= s[i..];
    assert s[i..] <= t[i..];
  }

  // Nothing that was said gets lost.
  lemma {:induction false} InstructedTellsAll(instruction: string, feedback: seq<string>, round: nat, max: nat)
    ensures instruction <= Instructed(instruction, feedback, round, max)
    ensures forall k :: 0 <= k < |feedback| ==> Contains(Instructed(instruction, feedback, round, max), feedback[k])
  {
    hide RevisedInstruction;
    if feedback != [] {
      var n := |feedback| - 1;
      var before, after := Instructed(instruction, feedback[..n], round, max), Instructed(instruction, feedback, round, max);
      InstructedTellsAll(instruction, feedback[..n], round, max);
      RevisedInstructionSpec(before, feedback[n], round + |feedback|, max);
      forall k | 0 <= k < |feedback| ensures Contains(after, feedback[k]) {
        if k < n {
          assert feedback[..n][k] == feedback[k];
          ContainsMore(before, after, feedback[k]);
        } else {
          assert feedback[n] <= after[|after| - |feedback[n]|..];
        }
      }
    }
  }

  lemma ChainFeedback(maxRevisions: nat, s: Engine, history: seq<Event>, chain: seq<nat>)
    requires IsChain(maxRevisions, s, history, chain)
    ensures forall k :: 0 <= k < |chain| ==> IsRevision(history, chain[k])
  {
    forall k | 0 <= k < |chain| ensures IsRevision(history, chain[k]) {
      assert RevisesAt(maxRevisions, s, history, chain[k]);
    }
  }

  // Over any history, a review is repeated at most as often as the maximum of
  // revisions says, rounds counted from its own; the job last asked to do the
  // work over has role, profile and instruction of the job first reviewed, with
  // the feedback of every review since, in order; and it starts from what the
  // job reviewed just before it produced.
  lemma {:induction false} RevisionChain(maxRevisions: nat, s: Engine, history: seq<Event>, chain: seq<nat>)
    requires Inv(s) && Legal(maxRevisions, s, history)
    requires chain != [] && IsChain(maxRevisions, s, history, chain)
    ensures forall k :: 0 <= k < |chain| ==> IsRevision(history, chain[k])
    ensures var jobs := Execute(maxRevisions, s, history).jobs;
      var first, last := history[chain[0]].done.job, history[chain[|chain| - 1]].outcome;
      && first in jobs && jobs[first].deps != [] && jobs[first].deps[0] in jobs
      && last.reviewer in jobs && last.coder in jobs && jobs[last.reviewer].deps == [last.coder]
      && jobs[last.reviewer].role.Reviewer? && jobs[last.reviewer].instruction == jobs[first].instruction
      && jobs[last.coder].role == jobs[jobs[first].deps[0]].role
      && jobs[last.coder].profile == jobs[jobs[first].deps[0]].profile
      && jobs[last.reviewer].profile == jobs[first].profile && jobs[last.reviewer].inputs == []
      && jobs[last.coder].parent == jobs[first].parent && jobs[last.reviewer].parent == jobs[first].parent
      && jobs[last.reviewer].round == jobs[first].round + |chain| <= maxRevisions
      && jobs[last.coder].instruction ==
           Instructed(jobs[jobs[first].deps[0]].instruction, Feedback(history, chain), jobs[first].round, maxRevisions)
    ensures var jobs := Execute(maxRevisions, s, history).jobs;
      var before, last := history[chain[|chain| - 1]].done.job, history[chain[|chain| - 1]].outcome.coder;
      && before in jobs && jobs[before].deps != [] && jobs[before].deps[0] in jobs && last in jobs
      && jobs[jobs[before].deps[0]].status.Completed?
      && jobs[last].inputs == jobs[jobs[before].deps[0]].outputs
    decreases |chain|
  {
    hide Inv, Legal, Execute, RevisedInstruction, RevisesAt;
    var n := |chain| - 1;
    RevisedLater(maxRevisions, s, history, chain[n]);
    ChainFeedback(maxRevisions, s, history, chain);
    var said := Feedback(history, chain);
    assert said[n] == history[chain[n]].outcome.decision.feedback;
    if n == 0 {
      assert said[..n] == [];
    } else {
      RevisionChain(maxRevisions, s, history, chain[..n]);
      assert said[..n] == Feedback(history, chain[..n]);
      assert chain[..n][n - 1] == chain[n - 1];
    }
  }

  // So no chain is longer than the maximum.
  lemma ChainsAreShort(maxRevisions: nat, cap: nat, history: seq<Event>, chain: seq<nat>)
    requires Legal(maxRevisions, Init(cap), history) && IsChain(maxRevisions, Init(cap), history, chain)
    ensures |chain| <= maxRevisions
  {
    hide Legal, Execute, IsChain;
    if chain != [] {
      InitInv(cap);
      RevisionChain(maxRevisions, Init(cap), history, chain);
    }
  }
}
