/**
 The record that two tasks share under one lock. The command task copies it field by field, changes
 its copy and puts it back field by field; it also takes copies to report the state. The updater
 task takes copies to report the state. Every copied field is a step of its own, and between any
 two steps the other task may go on; only the lock orders them.
 */
module SharedRecord {
  import opened Basics

  /** `apply` is what an action makes of a record; nothing when it fails. */
  datatype System<!V, !A> = System(initial: seq<V>, apply: (seq<V>, A) -> Option<seq<V>>)

  datatype Owner = Nobody | Commander | Reporter

  /** An order to the command task: an action to handle, or the state to report. */
  datatype Order<A> = Act(action: A) | Report

  /** `Reading(i)` and `Writing(i)`: the lock is held and the first `i` fields are copied. */
  datatype Phase = Idle | Asked | Reading(i: nat) | Deciding | Ready | Writing(i: nat)

  /** A report, and how many actions had been committed when its copy was complete. */
  datatype Snapshot<V> = Snapshot(record: seq<V>, at: nat)

  datatype State<V, A> = State(
    shared: seq<V>, owner: Owner,
    commander: Phase, order: Order<A>, copy: seq<V>,
    reporter: Phase, report: seq<V>,
    commits: seq<A>, snapshots: seq<Snapshot<V>>)

  /** The record after some actions, each applied to the whole record at once; failed ones change nothing. */
  ghost function Fold<V, A>(sys: System<V, A>, actions: seq<A>): seq<V>
    decreases |actions|
  {
    if actions == [] then sys.initial
    else
      var before := Fold(sys, actions[..|actions| - 1]);
      var after := sys.apply(before, actions[|actions| - 1]);
      if after.Some? then after.value else before
  }

  ghost predicate Regular<V(!new), A(!new)>(sys: System<V, A>) {
    forall r, a :: sys.apply(r, a).Some? && |r| == |sys.initial| ==> |sys.apply(r, a).value| == |sys.initial|
  }

  ghost predicate Init<V, A>(sys: System<V, A>, s: State<V, A>) {
    && s.shared == sys.initial && s.owner.Nobody? && s.commander.Idle? && s.reporter.Idle?
    && s.commits == [] && s.snapshots == []
    && |s.copy| == |sys.initial| && |s.report| == |sys.initial|
  }

  // ---- The steps of the command task. ----

  ghost predicate Accept<V, A>(s: State<V, A>, t: State<V, A>) {
    s.commander.Idle? && t == s.(commander := Asked, order := t.order)
  }

  ghost predicate LockToRead<V, A>(s: State<V, A>, t: State<V, A>) {
    s.commander.Asked? && s.owner.Nobody? && t == s.(commander := Reading(0), owner := Commander)
  }

  ghost predicate ReadField<V, A>(s: State<V, A>, t: State<V, A>) {
    && s.commander.Reading? && s.commander.i < |s.shared| == |s.copy|
    && t == s.(copy := s.copy[s.commander.i := s.shared[s.commander.i]], commander := Reading(s.commander.i + 1))
  }

  /** The copy is complete: it is either the report, or what the action starts from. */
  ghost predicate UnlockAfterRead<V, A>(s: State<V, A>, t: State<V, A>) {
    && s.commander.Reading? && s.commander.i == |s.shared|
    && t == if s.order.Report?
            then s.(owner := Nobody, commander := Idle, snapshots := s.snapshots + [Snapshot(s.copy, |s.commits|)])
            else s.(owner := Nobody, commander := Deciding)
  }

  /** The handler works on its copy; a failed action ends here. */
  ghost predicate Decide<V, A>(sys: System<V, A>, s: State<V, A>, t: State<V, A>) {
    && s.commander.Deciding? && s.order.Act?
    && var after := sys.apply(s.copy, s.order.action);
       t == if after.Some? then s.(copy := after.value, commander := Ready) else s.(commander := Idle)
  }

  ghost predicate LockToWrite<V, A>(s: State<V, A>, t: State<V, A>) {
    s.commander.Ready? && s.owner.Nobody? && t == s.(commander := Writing(0), owner := Commander)
  }

  ghost predicate WriteField<V, A>(s: State<V, A>, t: State<V, A>) {
    && s.commander.Writing? && s.commander.i < |s.shared| == |s.copy|
    && t == s.(shared := s.shared[s.commander.i := s.copy[s.commander.i]], commander := Writing(s.commander.i + 1))
  }

  ghost predicate UnlockAfterWrite<V, A>(s: State<V, A>, t: State<V, A>) {
    && s.commander.Writing? && s.commander.i == |s.shared| && s.order.Act?
    && t == s.(owner := Nobody, commander := Idle, commits := s.commits + [s.order.action])
  }

  // ---- The steps of the updater task. ----

  ghost predicate LockToReport<V, A>(s: State<V, A>, t: State<V, A>) {
    s.reporter.Idle? && s.owner.Nobody? && t == s.(reporter := Reading(0), owner := Reporter)
  }

  ghost predicate ReportField<V, A>(s: State<V, A>, t: State<V, A>) {
    && s.reporter.Reading? && s.reporter.i < |s.shared| == |s.report|
    && t == s.(report := s.report[s.reporter.i := s.shared[s.reporter.i]], reporter := Reading(s.reporter.i + 1))
  }

  ghost predicate UnlockAfterReport<V, A>(s: State<V, A>, t: State<V, A>) {
    && s.reporter.Reading? && s.reporter.i == |s.shared|
    && t == s.(owner := Nobody, reporter := Idle, snapshots := s.snapshots + [Snapshot(s.report, |s.commits|)])
  }

  ghost predicate Next<V, A>(sys: System<V, A>, s: State<V, A>, t: State<V, A>) {
    || Accept(s, t) || LockToRead(s, t) || ReadField(s, t) || UnlockAfterRead(s, t)
    || Decide(sys, s, t) || LockToWrite(s, t) || WriteField(s, t) || UnlockAfterWrite(s, t)
    || LockToReport(s, t) || ReportField(s, t) || UnlockAfterReport(s, t)
  }

  ghost predicate IsRun<V, A>(sys: System<V, A>, run: seq<State<V, A>>) {
    && run != [] && Init(sys, run[0])
    && forall k :: 0 <= k < |run| - 1 ==> Next(sys, run[k], run[k + 1])
  }

  // ---- What every step keeps. ----

  ghost predicate LockHeld<V, A>(s: State<V, A>) {
    && (s.owner.Commander? <==> s.commander.Reading? || s.commander.Writing?)
    && (s.owner.Reporter? <==> s.reporter.Reading?)
    && (s.reporter.Idle? || s.reporter.Reading?)
  }

  /** The shared record is the fold of the committed actions, except while it is being written. */
  ghost predicate RecordRight<V, A>(sys: System<V, A>, s: State<V, A>) {
    var now := Fold(sys, s.commits);
    && |s.shared| == |s.copy| == |s.report| == |now| == |sys.initial|
    && match s.commander
       case Writing(i) =>
         && i <= |now| && s.order.Act? && sys.apply(now, s.order.action) == Some(s.copy)
         && s.shared == s.copy[..i] + now[i..]
       case _ => s.shared == now
  }

  /** What the command task knows about its copy. */
  ghost predicate CopyRight<V, A>(sys: System<V, A>, s: State<V, A>)
    requires RecordRight(sys, s)
  {
    var now := Fold(sys, s.commits);
    match s.commander
    case Reading(i) => i <= |now| && s.copy[..i] == now[..i]
    case Deciding => s.order.Act? && s.copy == now
    case Ready => s.order.Act? && sys.apply(now, s.order.action) == Some(s.copy)
    case _ => true
  }

  ghost predicate ReportRight<V, A>(sys: System<V, A>, s: State<V, A>)
    requires RecordRight(sys, s)
  {
    s.reporter.Reading? ==> s.reporter.i <= |s.report| && s.report[..s.reporter.i] == s.shared[..s.reporter.i]
  }

  /** Every report is the record after some first part of the committed actions, and later reports see no less. */
  ghost predicate SnapshotsRight<V, A>(sys: System<V, A>, s: State<V, A>) {
    && (forall k :: 0 <= k < |s.snapshots| ==>
          s.snapshots[k].at <= |s.commits| && s.snapshots[k].record == Fold(sys, s.commits[..s.snapshots[k].at]))
    && (forall j, k :: 0 <= j < k < |s.snapshots| ==> s.snapshots[j].at <= s.snapshots[k].at)
  }

  ghost predicate Inv<V, A>(sys: System<V, A>, s: State<V, A>) {
    LockHeld(s) && RecordRight(sys, s) && CopyRight(sys, s) && ReportRight(sys, s) && SnapshotsRight(sys, s)
  }

  lemma InitKeeps<V(!new), A(!new)>(sys: System<V, A>, s: State<V, A>)
    requires Init(sys, s)
    ensures Inv(sys, s)
  {
  }

  lemma FoldLast<V, A>(sys: System<V, A>, actions: seq<A>, a: A)
    ensures var before, after := Fold(sys, actions), Fold(sys, actions + [a]);
            after == if sys.apply(before, a).Some? then sys.apply(before, a).value else before
  {
    assert (actions + [a])[..|actions|] == actions;
  }

  lemma SnapshotAdded<V, A>(sys: System<V, A>, s: State<V, A>, t: State<V, A>, record: seq<V>)
    requires SnapshotsRight(sys, s) && record == Fold(sys, s.commits)
    requires t.commits == s.commits && t.snapshots == s.snapshots + [Snapshot(record, |s.commits|)]
    ensures SnapshotsRight(sys, t)
  {
    assert s.commits[..|s.commits|] == s.commits;
  }

  lemma CommitAdded<V, A>(sys: System<V, A>, s: State<V, A>, t: State<V, A>, a: A)
    requires SnapshotsRight(sys, s) && t.snapshots == s.snapshots && t.commits == s.commits + [a]
    ensures SnapshotsRight(sys, t)
  {
    forall k | 0 <= k < |t.snapshots| ensures t.snapshots[k].record == Fold(sys, t.commits[..t.snapshots[k].at]) {
      assert t.commits[..t.snapshots[k].at] == s.commits[..t.snapshots[k].at];
    }
  }

  lemma CommanderReads<V(!new), A(!new)>(sys: System<V, A>, s: State<V, A>, t: State<V, A>)
    requires Inv(sys, s)
    requires ReadField(s, t) || UnlockAfterRead(s, t)
    ensures Inv(sys, t)
  {
    hide Fold, SnapshotsRight;
    if ReadField(s, t) {
      assert t.copy[..s.commander.i + 1] == s.copy[..s.commander.i] + [s.shared[s.commander.i]];
      SameSnapshots(sys, s, t);
    } else if s.order.Report? {
      assert s.copy[..|s.shared|] == s.copy;
      SnapshotAdded(sys, s, t, s.copy);
    } else {
      assert s.copy[..|s.shared|] == s.copy;
      SameSnapshots(sys, s, t);
    }
  }

  lemma CommanderWrites<V(!new), A(!new)>(sys: System<V, A>, s: State<V, A>, t: State<V, A>)
    requires Regular(sys) && Inv(sys, s)
    requires WriteField(s, t) || UnlockAfterWrite(s, t)
    ensures Inv(sys, t)
  {
    hide Fold, SnapshotsRight, Regular;
    var now := Fold(sys, s.commits);
    if WriteField(s, t) {
      SameSnapshots(sys, s, t);
    } else {
      FoldLast(sys, s.commits, s.order.action);
      CommitAdded(sys, s, t, s.order.action);
      assert s.copy[..|now|] + now[|now|..] == s.copy;
    }
  }

  lemma SameSnapshots<V, A>(sys: System<V, A>, s: State<V, A>, t: State<V, A>)
    requires t.snapshots == s.snapshots && t.commits == s.commits
    ensures SnapshotsRight(sys, s) ==> SnapshotsRight(sys, t)
  {
  }

  lemma ReporterSteps<V(!new), A(!new)>(sys: System<V, A>, s: State<V, A>, t: State<V, A>)
    requires Inv(sys, s)
    requires LockToReport(s, t) || ReportField(s, t) || UnlockAfterReport(s, t)
    ensures Inv(sys, t)
  {
    hide Fold, SnapshotsRight;
    if UnlockAfterReport(s, t) {
      assert s.report[..|s.shared|] == s.report && s.shared[..|s.shared|] == s.shared;
      SnapshotAdded(sys, s, t, s.report);
    } else {
      SameSnapshots(sys, s, t);
      if ReportField(s, t) {
        assert t.report[..s.reporter.i + 1] == s.report[..s.reporter.i] + [s.shared[s.reporter.i]];
        assert s.shared[..s.reporter.i + 1] == s.shared[..s.reporter.i] + [s.shared[s.reporter.i]];
      }
    }
  }

  lemma OtherSteps<V(!new), A(!new)>(sys: System<V, A>, s: State<V, A>, t: State<V, A>)
    requires Regular(sys) && Inv(sys, s)
    requires Accept(s, t) || LockToRead(s, t) || Decide(sys, s, t) || LockToWrite(s, t)
    ensures Inv(sys, t)
  {
    hide Fold, SnapshotsRight;
    SameSnapshots(sys, s, t);
    var now := Fold(sys, s.commits);
    assert now[..0] == [] && now[0..] == now;
  }

  lemma StepKeeps<V(!new), A(!new)>(sys: System<V, A>, s: State<V, A>, t: State<V, A>)
    requires Regular(sys) && Inv(sys, s) && Next(sys, s, t)
    ensures Inv(sys, t)
  {
    hide Inv, Regular, Accept, LockToRead, Decide, LockToWrite, ReadField, UnlockAfterRead, WriteField,
         UnlockAfterWrite, LockToReport, ReportField, UnlockAfterReport;
    if ReadField(s, t) || UnlockAfterRead(s, t) {
      CommanderReads(sys, s, t);
    } else if WriteField(s, t) || UnlockAfterWrite(s, t) {
      CommanderWrites(sys, s, t);
    } else if LockToReport(s, t) || ReportField(s, t) || UnlockAfterReport(s, t) {
      ReporterSteps(sys, s, t);
    } else {
      OtherSteps(sys, s, t);
    }
  }

  /** The invariant holds in every state of every run, however the steps of the two tasks interleave. */
  lemma {:induction false} RunKeeps<V(!new), A(!new)>(sys: System<V, A>, run: seq<State<V, A>>, k: nat)
    requires Regular(sys) && IsRun(sys, run) && k < |run|
    ensures Inv(sys, run[k])
    decreases k
  {
    hide Inv, Next;
    if k == 0 {
      InitKeeps(sys, run[0]);
    } else {
      RunKeeps(sys, run, k - 1);
      assert Next(sys, run[k - 1], run[k - 1 + 1]);
      StepKeeps(sys, run[k - 1], run[k]);
    }
  }

  /**
   In every interleaving no report is torn: each is the record after some first part of the committed
   actions, and a later report never shows an earlier record. And whenever nobody holds the lock the
   record is the fold of all committed actions, so that no update is lost.
   */
  lemma ReportsAreAtomic<V(!new), A(!new)>(sys: System<V, A>, run: seq<State<V, A>>, k: nat)
    requires Regular(sys) && IsRun(sys, run) && k < |run|
    ensures SnapshotsRight(sys, run[k])
    ensures run[k].owner.Nobody? ==> run[k].shared == Fold(sys, run[k].commits)
  {
    hide Fold, SnapshotsRight, IsRun, Regular;
    RunKeeps(sys, run, k);
  }

  /** Each commit applies its action to the record that all earlier commits made. */
  lemma NoUpdateLost<V(!new), A(!new)>(sys: System<V, A>, run: seq<State<V, A>>, k: nat)
    requires Regular(sys) && IsRun(sys, run) && k + 1 < |run| && UnlockAfterWrite(run[k], run[k + 1])
    ensures sys.apply(Fold(sys, run[k].commits), run[k].order.action) == Some(run[k + 1].shared)
  {
    hide Fold, SnapshotsRight, IsRun, Regular;
    RunKeeps(sys, run, k);
    var now, s := Fold(sys, run[k].commits), run[k];
    assert s.copy[..|now|] + now[|now|..] == s.copy;
  }
}
