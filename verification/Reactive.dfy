/**
 Two tasks that decide what to do next by what came of what they did: each on its own instance, on one memory. A
 schedule says only whose turn it is.
 */
module Reactive {
  import opened Basics
  import opened TwoInstances

  /** The next operation, given all that the task's instance was so far, the latest last; none when the task is done. */
  type Task = seq<Instance> -> Option<Op>

  datatype Whose = CommandTask | UpdaterTask

  function Latest(h: seq<Instance>): Instance
    requires h != []
  {
    h[|h| - 1]
  }

  predicate Lives(mem: string, h: seq<Instance>) {
    h != [] && Latest(h).In(mem)
  }

  /** One turn of a task. */
  function React(mem: string, h: seq<Instance>, p: Task): (r: (string, seq<Instance>))
    requires Lives(mem, h)
    ensures |r.0| == |mem| && Lives(r.0, r.1)
    ensures Latest(r.1).base == Latest(h).base && Latest(r.1).size == Latest(h).size
  {
    match p(h)
    case None => (mem, h)
    case Some(op) =>
      var (m, i) := Do(mem, Latest(h), op);
      (m, h + [i])
  }

  function Solo(mem: string, h: seq<Instance>, p: Task, n: nat): (r: (string, seq<Instance>))
    requires Lives(mem, h)
    ensures |r.0| == |mem| && Lives(r.0, r.1)
    ensures Latest(r.1).base == Latest(h).base && Latest(r.1).size == Latest(h).size
    decreases n
  {
    if n == 0 then (mem, h)
    else
      var (m, h1) := React(mem, h, p);
      Solo(m, h1, p, n - 1)
  }

  /** The memory, and what the two instances were so far. */
  datatype Both = Both(mem: string, command: seq<Instance>, updater: seq<Instance>) {
    predicate Valid() {
      Lives(mem, command) && Lives(mem, updater)
    }
  }

  function Scheduled(s: Both, p: Task, q: Task, schedule: seq<Whose>): (r: Both)
    requires s.Valid()
    ensures r.Valid() && |r.mem| == |s.mem|
    ensures Latest(r.command).base == Latest(s.command).base && Latest(r.command).size == Latest(s.command).size
    ensures Latest(r.updater).base == Latest(s.updater).base && Latest(r.updater).size == Latest(s.updater).size
    decreases |schedule|
  {
    if schedule == [] then s
    else if schedule[0].CommandTask? then
      var (m, h) := React(s.mem, s.command, p);
      Scheduled(Both(m, h, s.updater), p, q, schedule[1..])
    else
      var (m, g) := React(s.mem, s.updater, q);
      Scheduled(Both(m, s.command, g), p, q, schedule[1..])
  }

  function Turns(schedule: seq<Whose>, who: Whose): nat {
    if schedule == [] then 0 else (if schedule[0] == who then 1 else 0) + Turns(schedule[1..], who)
  }

  /** A turn depends on the task's own history and region, and changes nothing elsewhere. */
  lemma ReactsAlike(mem: string, mem': string, h: seq<Instance>, p: Task)
    requires Lives(mem, h) && Lives(mem', h) && Region(mem, Latest(h)) == Region(mem', Latest(h))
    ensures var (m, a) := React(mem, h, p);
            var (m', a') := React(mem', h, p);
            a == a' && Region(m, Latest(a)) == Region(m', Latest(a))
  {
    hide Do, Region;
    if p(h).Some? {
      OpIsLocal(mem, mem', Latest(h), p(h).value);
    }
  }

  lemma ReactLeavesOther(mem: string, h: seq<Instance>, p: Task, other: Instance)
    requires Lives(mem, h) && other.In(mem) && Disjoint(Latest(h), other)
    ensures Region(React(mem, h, p).0, other) == Region(mem, other)
  {
    hide Do, Region;
    if p(h).Some? {
      OpLeavesOther(mem, Latest(h), p(h).value, other);
    }
  }

  lemma {:induction false} CommandReacts(s: Both, p: Task, q: Task, schedule: seq<Whose>, mem: string)
    requires s.Valid() && Disjoint(Latest(s.command), Latest(s.updater))
    requires Lives(mem, s.command) && Region(mem, Latest(s.command)) == Region(s.mem, Latest(s.command))
    ensures var end := Scheduled(s, p, q, schedule);
            var (m, h) := Solo(mem, s.command, p, Turns(schedule, CommandTask));
            end.command == h && Region(end.mem, Latest(h)) == Region(m, Latest(h))
    decreases |schedule|
  {
    hide React, Region;
    if schedule != [] {
      if schedule[0].CommandTask? {
        ReactsAlike(s.mem, mem, s.command, p);
        var (m, h) := React(s.mem, s.command, p);
        CommandReacts(Both(m, h, s.updater), p, q, schedule[1..], React(mem, s.command, p).0);
      } else {
        ReactLeavesOther(s.mem, s.updater, q, Latest(s.command));
        var (m, g) := React(s.mem, s.updater, q);
        CommandReacts(Both(m, s.command, g), p, q, schedule[1..], mem);
      }
    }
  }

  function Mirrored(schedule: seq<Whose>): seq<Whose> {
    if schedule == [] then []
    else [if schedule[0].CommandTask? then UpdaterTask else CommandTask] + Mirrored(schedule[1..])
  }

  lemma {:induction false} MirroredRun(s: Both, p: Task, q: Task, schedule: seq<Whose>)
    requires s.Valid()
    ensures var end, other := Scheduled(s, p, q, schedule),
              Scheduled(Both(s.mem, s.updater, s.command), q, p, Mirrored(schedule));
            end.mem == other.mem && end.command == other.updater && end.updater == other.command
    ensures Turns(Mirrored(schedule), CommandTask) == Turns(schedule, UpdaterTask)
    decreases |schedule|
  {
    hide React;
    if schedule != [] {
      assert Mirrored(schedule)[1..] == Mirrored(schedule[1..]);
      if schedule[0].CommandTask? {
        var (m, h) := React(s.mem, s.command, p);
        MirroredRun(Both(m, h, s.updater), p, q, schedule[1..]);
      } else {
        var (m, g) := React(s.mem, s.updater, q);
        MirroredRun(Both(m, s.command, g), p, q, schedule[1..]);
      }
    }
  }

  /**
   With disjoint buffers, under every schedule, each task takes the decisions, and its instance goes through the states,
   of as many turns alone.
   */
  lemma TasksReactAlone(s: Both, p: Task, q: Task, schedule: seq<Whose>)
    requires s.Valid() && Disjoint(Latest(s.command), Latest(s.updater))
    ensures var end := Scheduled(s, p, q, schedule);
            && end.command == Solo(s.mem, s.command, p, Turns(schedule, CommandTask)).1
            && end.updater == Solo(s.mem, s.updater, q, Turns(schedule, UpdaterTask)).1
  {
    hide Scheduled, Solo, Region;
    CommandReacts(s, p, q, schedule, s.mem);
    MirroredRun(s, p, q, schedule);
    CommandReacts(Both(s.mem, s.updater, s.command), q, p, Mirrored(schedule), s.mem);
  }

  // ---- Tasks that perform given operations when nothing disturbs them. ----

  /** Alone, and from here, the task performs exactly these operations. */
  predicate Performs(p: Task, mem: string, h: seq<Instance>, ops: seq<Op>)
    requires Lives(mem, h)
    decreases |ops|
  {
    if ops == [] then p(h).None?
    else
      p(h) == Some(ops[0]) &&
      var (m, i) := Do(mem, Latest(h), ops[0]);
      Performs(p, m, h + [i], ops[1..])
  }

  /** After some turns alone it has performed as many of them, or all. */
  lemma {:induction false} SoloPerforms(p: Task, mem: string, h: seq<Instance>, ops: seq<Op>, n: nat)
    requires Lives(mem, h) && Performs(p, mem, h, ops)
    ensures var (m, end) := Solo(mem, h, p, n);
            (m, Latest(end)) == Alone(mem, Latest(h), if n < |ops| then ops[..n] else ops)
    decreases n
  {
    hide Do;
    if n > 0 {
      if ops == [] {
        SoloPerforms(p, mem, h, ops, n - 1);
      } else {
        var (m, i) := Do(mem, Latest(h), ops[0]);
        SoloPerforms(p, m, h + [i], ops[1..], n - 1);
        if n < |ops| {
          assert ops[..n][0] == ops[0] && ops[..n][1..] == ops[1..][..n - 1];
        }
      }
    } else {
      assert |ops| > 0 ==> ops[..0] == [];
    }
  }

  /** The task that performs some operations from a point of its history on, whatever comes of them. */
  function Script(start: nat, ops: seq<Op>): Task {
    (h: seq<Instance>) => if start <= |h| < start + |ops| then Some(ops[|h| - start]) else None
  }

  /** So there is a task for every list of operations. */
  lemma {:induction false} ScriptPerforms(mem: string, h: seq<Instance>, start: nat, ops: seq<Op>)
    requires Lives(mem, h) && start <= |h| <= start + |ops|
    ensures Performs(Script(start, ops), mem, h, ops[|h| - start..])
    decreases start + |ops| - |h|
  {
    hide Do;
    var rest := ops[|h| - start..];
    if rest != [] {
      var (m, i) := Do(mem, Latest(h), rest[0]);
      ScriptPerforms(m, h + [i], start, ops);
      assert rest[1..] == ops[|h + [i]| - start..];
    }
  }
}
