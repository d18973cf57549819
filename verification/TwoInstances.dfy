/**
 The two instances of the SDK, one for each task, on one memory. Each builds its requests, and receives its
 answers, in a buffer of its own; the steps of the two tasks interleave in any order. What a task does next is
 left open: any sequence of request operations, interleaved in any way with any sequence of the other task.
 */
module TwoInstances {
  import opened Basics
  import opened Api

  /** The request operations, each a step. */
  datatype Op =
    | Begin(verb: string, path: string, contentType: string)
    | Add(text: string)
    | Send
    | Delay(milliseconds: int)

  /** What the outside decides for one instance: the head of each request, and the answers. */
  datatype Net = Net(header: seq<Event> -> string, answer: seq<Event> -> Answer)

  /**
   An instance: where its buffer lies, how far it is filled, and its log. `open` says that a request was started and
   not run yet; `head` is where its body starts.
   */
  datatype Instance = Instance(
    base: nat, size: nat, net: Net, path: string, head: nat, used: nat, open: bool, intact: bool, log: seq<Event>)
  {
    predicate In(mem: string) {
      head <= used <= size && base + size <= |mem|
    }
  }

  function Region(mem: string, i: Instance): string
    requires i.In(mem)
  {
    mem[i.base..i.base + i.size]
  }

  /** An answer that does not fit the buffer is as good as none. */
  function Heard(i: Instance): Answer {
    var answer := i.net.answer(i.log);
    if answer.Response? && |answer.body| > i.size then Unreachable else answer
  }

  /** One operation of one instance; what is sent is what the memory holds. */
  function Do(mem: string, i: Instance, op: Op): (r: (string, Instance))
    requires i.In(mem)
    ensures |r.0| == |mem| && r.1.In(r.0) && r.1.base == i.base && r.1.size == i.size && r.1.net == i.net
  {
    match op
    case Begin(verb, path, contentType) =>
      var h := i.net.header(i.log);
      if |h| <= i.size then
        (Overlaid(mem, i.base, h),
         i.(path := path, head := |h|, used := |h|, open := true, intact := true,
            log := i.log + [Started(verb, path, contentType)]))
      else (mem, i.(open := false, intact := false, log := i.log + [StartFailed(path)]))
    case Add(text) =>
      if i.used + |text| <= i.size
      then (Overlaid(mem, i.base + i.used, text), i.(used := i.used + |text|))
      else (mem, i.(intact := false))
    case Send =>
      var answer := Heard(i);
      var body := mem[i.base + i.head..i.base + i.used];
      (if answer.Response? then Overlaid(mem, i.base, answer.body) else mem,
       i.(open := false, intact := false, log := i.log + [Ran(i.path, body, i.intact, answer)]))
    case Delay(ms) => (mem, i.(log := i.log + [Waited(ms)]))
  }

  function Alone(mem: string, i: Instance, ops: seq<Op>): (r: (string, Instance))
    requires i.In(mem)
    ensures |r.0| == |mem| && r.1.In(r.0) && r.1.base == i.base && r.1.size == i.size
    decreases |ops|
  {
    if ops == [] then (mem, i)
    else
      var (mem1, i1) := Do(mem, i, ops[0]);
      Alone(mem1, i1, ops[1..])
  }

  // ---- Two tasks. ----

  /** A step of the command task or of the updater task. */
  datatype Turn = Command(op: Op) | Update(op: Op)

  datatype World = World(mem: string, command: Instance, updater: Instance) {
    predicate Valid() {
      command.In(mem) && updater.In(mem)
    }
  }

  predicate Disjoint(a: Instance, b: Instance) {
    a.base + a.size <= b.base || b.base + b.size <= a.base
  }

  function Together(w: World, turns: seq<Turn>): (r: World)
    requires w.Valid()
    ensures r.Valid() && |r.mem| == |w.mem|
    ensures r.command.base == w.command.base && r.command.size == w.command.size
    ensures r.updater.base == w.updater.base && r.updater.size == w.updater.size
    decreases |turns|
  {
    if turns == [] then w
    else
      match turns[0]
      case Command(op) =>
        var (mem, i) := Do(w.mem, w.command, op);
        Together(World(mem, i, w.updater), turns[1..])
      case Update(op) =>
        var (mem, i) := Do(w.mem, w.updater, op);
        Together(World(mem, w.command, i), turns[1..])
  }

  function CommandOps(turns: seq<Turn>): seq<Op> {
    if turns == [] then []
    else (if turns[0].Command? then [turns[0].op] else []) + CommandOps(turns[1..])
  }

  function UpdateOps(turns: seq<Turn>): seq<Op> {
    if turns == [] then []
    else (if turns[0].Update? then [turns[0].op] else []) + UpdateOps(turns[1..])
  }

  lemma InsideRegion(mem: string, i: Instance, lo: nat, hi: nat)
    requires i.In(mem) && lo <= hi <= i.size
    ensures mem[i.base + lo..i.base + hi] == Region(mem, i)[lo..hi]
  {
    var a, r := mem[i.base + lo..i.base + hi], Region(mem, i)[lo..hi];
    assert |a| == |r|;
    forall k | 0 <= k < |a| ensures a[k] == r[k] {
      assert a[k] == mem[i.base + (lo + k)] == Region(mem, i)[lo + k] == r[k];
    }
  }

  lemma OverlaidInside(mem: string, i: Instance, at: nat, text: string)
    requires i.In(mem) && at + |text| <= i.size
    ensures Region(Overlaid(mem, i.base + at, text), i) == Overlaid(Region(mem, i), at, text)
  {
  }

  /** What an operation writes, and where in the instance's own region. */
  function Writes(i: Instance, op: Op): (r: (nat, string))
    requires i.head <= i.used <= i.size
    ensures r.0 + |r.1| <= i.size
  {
    match op
    case Begin(_, _, _) => if |i.net.header(i.log)| <= i.size then (0, i.net.header(i.log)) else (0, "")
    case Add(text) => if i.used + |text| <= i.size then (i.used, text) else (0, "")
    case Send => if Heard(i).Response? then (0, Heard(i).body) else (0, "")
    case Delay(_) => (0, "")
  }

  lemma DoWrites(mem: string, i: Instance, op: Op)
    requires i.In(mem)
    ensures Do(mem, i, op).0 == Overlaid(mem, i.base + Writes(i, op).0, Writes(i, op).1)
  {
    assert Overlaid(mem, i.base, "") == mem;
  }

  /** An operation depends on the instance and its own region only ... */
  lemma OpIsLocal(mem: string, mem': string, i: Instance, op: Op)
    requires i.In(mem) && i.In(mem') && Region(mem, i) == Region(mem', i)
    ensures var (m, j), (m', j') := Do(mem, i, op), Do(mem', i, op);
            j == j' && Region(m, j) == Region(m', j')
  {
    hide Region, Overlaid, Writes;
    var (m, j) := Do(mem, i, op);
    var (m', j') := Do(mem', i, op);
    var w := Writes(i, op);
    DoWrites(mem, i, op);
    DoWrites(mem', i, op);
    OverlaidInside(mem, i, w.0, w.1);
    OverlaidInside(mem', i, w.0, w.1);
    InsideRegion(mem, i, i.head, i.used);
    InsideRegion(mem', i, i.head, i.used);
    SameRegion(m, i, j);
    SameRegion(m', i, j);
    assert j == j';
    assert Region(m, i) == Region(m', i);
    assert Region(m, j) == Region(m', j);
  }

  lemma SameRegion(mem: string, i: Instance, j: Instance)
    requires i.In(mem) && j.In(mem) && i.base == j.base && i.size == j.size
    ensures Region(mem, i) == Region(mem, j)
  {
  }

  /** ... and changes nothing elsewhere. */
  lemma OpStaysInside(mem: string, i: Instance, op: Op, x: nat)
    requires i.In(mem) && x < |mem| && !(i.base <= x < i.base + i.size)
    ensures Do(mem, i, op).0[x] == mem[x]
  {
  }

  lemma OpLeavesOther(mem: string, i: Instance, op: Op, other: Instance)
    requires i.In(mem) && other.In(mem) && Disjoint(i, other)
    ensures Region(Do(mem, i, op).0, other) == Region(mem, other)
  {
    hide Do;
    var m := Do(mem, i, op).0;
    forall x: nat | other.base <= x < other.base + other.size ensures m[x] == mem[x] {
      OpStaysInside(mem, i, op, x);
    }
  }

  /** The command task, next to any updater, is where it would be alone, whatever lies outside its own buffer. */
  lemma {:induction false} CommandUndisturbed(w: World, turns: seq<Turn>, mem: string)
    requires w.Valid() && Disjoint(w.command, w.updater)
    requires w.command.In(mem) && Region(mem, w.command) == Region(w.mem, w.command)
    ensures var end, (m, i) := Together(w, turns), Alone(mem, w.command, CommandOps(turns));
            end.command == i && Region(end.mem, end.command) == Region(m, i)
    decreases |turns|
  {
    hide Do, Region;
    if turns != [] {
      match turns[0] {
        case Command(op) =>
          OpIsLocal(w.mem, mem, w.command, op);
          var (mem1, i) := Do(w.mem, w.command, op);
          CommandUndisturbed(World(mem1, i, w.updater), turns[1..], Do(mem, w.command, op).0);
          assert CommandOps(turns) == [op] + CommandOps(turns[1..]);
          assert CommandOps(turns)[1..] == CommandOps(turns[1..]);
        case Update(op) =>
          OpLeavesOther(w.mem, w.updater, op, w.command);
          var (mem1, i) := Do(w.mem, w.updater, op);
          CommandUndisturbed(World(mem1, w.command, i), turns[1..], mem);
          assert CommandOps(turns) == CommandOps(turns[1..]);
      }
    }
  }

  function Swapped(turns: seq<Turn>): seq<Turn> {
    if turns == [] then []
    else [if turns[0].Command? then Update(turns[0].op) else Command(turns[0].op)] + Swapped(turns[1..])
  }

  lemma {:induction false} SwappedRun(w: World, turns: seq<Turn>)
    requires w.Valid()
    ensures var end, other := Together(w, turns), Together(World(w.mem, w.updater, w.command), Swapped(turns));
            end.mem == other.mem && end.command == other.updater && end.updater == other.command
    ensures CommandOps(Swapped(turns)) == UpdateOps(turns)
    decreases |turns|
  {
    hide Do;
    if turns != [] {
      assert Swapped(turns)[1..] == Swapped(turns[1..]);
      var (mem, i) := Do(w.mem, if turns[0].Command? then w.command else w.updater, turns[0].op);
      SwappedRun(if turns[0].Command? then World(mem, i, w.updater) else World(mem, w.command, i), turns[1..]);
    }
  }

  /**
   With disjoint buffers, every interleaving leaves each instance, its log of requests and its buffer exactly
   as its own operations alone would.
   */
  lemma {:induction false} NonInterference(w: World, turns: seq<Turn>)
    requires w.Valid() && Disjoint(w.command, w.updater)
    ensures var end := Together(w, turns);
            var (m, i), (n, j) := Alone(w.mem, w.command, CommandOps(turns)), Alone(w.mem, w.updater, UpdateOps(turns));
            && end.command == i && Region(end.mem, end.command) == Region(m, i)
            && end.updater == j && Region(end.mem, end.updater) == Region(n, j)
  {
    hide Together, Alone, Do, Region;
    CommandUndisturbed(w, turns, w.mem);
    SwappedRun(w, turns);
    CommandUndisturbed(World(w.mem, w.updater, w.command), Swapped(turns), w.mem);
  }

  // ---- Overlapping buffers. ----

  function Fill(n: nat, c: char): string {
    seq(n, _ => c)
  }

  /** The head of the next request. */
  function HeadOf(i: Instance): string {
    i.net.header(i.log)
  }

  /** A text that fills the rest of a buffer. */
  function Filling(i: Instance, c: char): string {
    Fill(if |HeadOf(i)| <= i.size then i.size - |HeadOf(i)| else 0, c)
  }

  /** Both tasks fill their buffers; then the command task sends. */
  function Collision(a: Instance, b: Instance, c: char): seq<Turn> {
    [Command(Begin("PUT", "a", "")), Command(Add(Filling(a, c))),
     Update(Begin("PUT", "b", "")), Update(Add(Filling(b, 'b'))), Command(Send)]
  }

  lemma TogetherStep(w: World, turn: Turn, rest: seq<Turn>)
    requires w.Valid()
    ensures var (mem, i) := Do(w.mem, if turn.Command? then w.command else w.updater, turn.op);
            Together(w, [turn] + rest) ==
            Together(if turn.Command? then World(mem, i, w.updater) else World(mem, w.command, i), rest)
    ensures CommandOps([turn] + rest) == (if turn.Command? then [turn.op] else []) + CommandOps(rest)
  {
    hide Do;
    assert ([turn] + rest)[1..] == rest;
  }

  lemma AloneStep(mem: string, i: Instance, op: Op, rest: seq<Op>)
    requires i.In(mem)
    ensures var (m, j) := Do(mem, i, op); Alone(mem, i, [op] + rest) == Alone(m, j, rest)
  {
    hide Do;
    assert ([op] + rest)[1..] == rest;
  }

  /** The memory and the instances while the two tasks collide. */
  lemma CollisionSteps(w: World, c: char)
    requires w.Valid()
    ensures var (m1, a1) := Do(w.mem, w.command, Begin("PUT", "a", ""));
            var (m2, a2) := Do(m1, a1, Add(Filling(w.command, c)));
            var (m3, b3) := Do(m2, w.updater, Begin("PUT", "b", ""));
            var (m4, b4) := Do(m3, b3, Add(Filling(w.updater, 'b')));
            && Together(w, Collision(w.command, w.updater, c)).command == Do(m4, a2, Send).1
            && Alone(w.mem, w.command, CommandOps(Collision(w.command, w.updater, c))).1 == Do(m2, a2, Send).1
  {
    hide Do, Together, Alone, CommandOps, Filling;
    var turns := Collision(w.command, w.updater, c);
    var (m1, a1) := Do(w.mem, w.command, turns[0].op);
    var (m2, a2) := Do(m1, a1, turns[1].op);
    var (m3, b3) := Do(m2, w.updater, turns[2].op);
    var (m4, b4) := Do(m3, b3, turns[3].op);
    var t4 := [turns[4]] + [];
    var t3 := [turns[3]] + t4;
    var t2 := [turns[2]] + t3;
    var t1 := [turns[1]] + t2;
    assert turns == [turns[0]] + t1;
    TogetherStep(w, turns[0], t1);
    TogetherStep(World(m1, a1, w.updater), turns[1], t2);
    TogetherStep(World(m2, a2, w.updater), turns[2], t3);
    TogetherStep(World(m3, a2, b3), turns[3], t4);
    TogetherStep(World(m4, a2, b4), turns[4], []);
    NothingToDo(m2, a2, World(Do(m4, a2, Send).0, Do(m4, a2, Send).1, b4), Do(m2, a2, Send));
    assert CommandOps(turns) == [turns[0].op] + ([turns[1].op] + ([Send] + []));
    AloneStep(w.mem, w.command, turns[0].op, [turns[1].op] + ([Send] + []));
    AloneStep(m1, a1, turns[1].op, [Send] + []);
    AloneStep(m2, a2, Send, []);
  }

  lemma NothingToDo(mem: string, i: Instance, w: World, r: (string, Instance))
    requires i.In(mem) && w.Valid() && r.1.In(r.0)
    ensures Together(w, []) == w && Alone(r.0, r.1, []) == r && CommandOps([]) == []
  {
  }

  /** What a task that fills its buffer leaves at a place of it: its head, or what fills the rest. */
  function LeftAt(i: Instance, c: char, x: nat): char
    requires i.base <= x
  {
    if x - i.base < |HeadOf(i)| then HeadOf(i)[x - i.base] else c
  }

  lemma BufferFilled(mem: string, i: Instance, path: string, c: char, x: nat)
    requires i.In(mem) && |HeadOf(i)| <= i.size && i.base <= x < i.base + i.size
    ensures var (m1, i1) := Do(mem, i, Begin("PUT", path, ""));
            var (m2, i2) := Do(m1, i1, Add(Filling(i, c)));
            m2[x] == LeftAt(i, c, x) && i2.head == |HeadOf(i)| && i2.used == i.size
  {
    var (m1, i1) := Do(mem, i, Begin("PUT", path, ""));
    var (m2, i2) := Do(m1, i1, Add(Filling(i, c)));
    if x - i.base < |HeadOf(i)| {
      assert m2[x] == m1[x] == HeadOf(i)[x - i.base];
    } else {
      assert m2[x] == Filling(i, c)[x - i.base - |HeadOf(i)|] == c;
    }
  }

  /**
   Disjointness is needed: if a place of the command task's next body lies in the updater's buffer, and the updater's
   next request has room for its head, there is an interleaving in which the command task sends what it never wrote.
   */
  lemma OverlapInterferes(w: World, x: nat)
    requires w.Valid() && |HeadOf(w.updater)| <= w.updater.size
    requires w.command.base + |HeadOf(w.command)| <= x < w.command.base + w.command.size
    requires w.updater.base <= x < w.updater.base + w.updater.size
    ensures exists turns ::
              Together(w, turns).command.log != Alone(w.mem, w.command, CommandOps(turns)).1.log
  {
    hide Together, Alone, CommandOps, Collision, Do, Filling;
    var c := if LeftAt(w.updater, 'b', x) == 'a' then 'z' else 'a';
    CollisionSteps(w, c);
    var (m1, a1) := Do(w.mem, w.command, Begin("PUT", "a", ""));
    var (m2, a2) := Do(m1, a1, Add(Filling(w.command, c)));
    var (m3, b3) := Do(m2, w.updater, Begin("PUT", "b", ""));
    var (m4, b4) := Do(m3, b3, Add(Filling(w.updater, 'b')));
    BufferFilled(w.mem, w.command, "a", c, x);
    BufferFilled(m2, w.updater, "b", 'b', x);
    SentDiffers(m2, m4, a2, x);
    var turns := Collision(w.command, w.updater, c);
    assert Together(w, turns).command.log != Alone(w.mem, w.command, CommandOps(turns)).1.log;
  }

  /** Memories that differ in a place of the body make different requests. */
  lemma SentDiffers(m: string, m': string, i: Instance, x: nat)
    requires i.In(m) && i.In(m') && i.base + i.head <= x < i.base + i.used && m[x] != m'[x]
    ensures Do(m, i, Send).1.log != Do(m', i, Send).1.log
  {
    var k := |i.log|;
    var b, b' := m[i.base + i.head..i.base + i.used], m'[i.base + i.head..i.base + i.used];
    assert b[x - i.base - i.head] != b'[x - i.base - i.head];
    assert Do(m, i, Send).1.log[k].body == b && Do(m', i, Send).1.log[k].body == b';
  }

  // ---- The requests that the other modules speak of, in a shared memory. ----

  /** The contents of a `Kii` that its request operations change. */
  datatype View = View(path: string, body: string, room: nat, intact: bool, log: seq<Event>)

  function Applied(server: Server, v: View, op: Op): View {
    match op
    case Begin(verb, path, contentType) =>
      (match server.room(v.log)
       case None => v.(intact := false, log := v.log + [StartFailed(path)])
       case Some(room) => View(path, "", room, true, v.log + [Started(verb, path, contentType)]))
    case Add(text) =>
      var o := Put(v.room, Out(v.body, true), text);
      v.(body := o.body, intact := v.intact && o.ok)
    case Send => v.(intact := false, log := v.log + [Ran(v.path, v.body, v.intact, server.answer(v.log))])
    case Delay(ms) => v.(log := v.log + [Waited(ms)])
  }

  function AppliedAll(server: Server, v: View, ops: seq<Op>): View
    decreases |ops|
  {
    if ops == [] then v else AppliedAll(server, Applied(server, v, ops[0]), ops[1..])
  }

  ghost function ViewOf(kii: Kii): View
    reads kii
  {
    View(kii.path, kii.body, kii.room, kii.intact, kii.log)
  }

  /** The operations are the methods of `Kii`; what a run leaves in the place of its body is of no account here. */
  method Apply(kii: Kii, op: Op)
    modifies kii`path, kii`body, kii`room, kii`intact, kii`log, kii`responseStatus, kii`responseBody
    ensures ViewOf(kii) == Applied(kii.server, old(ViewOf(kii)), op).(body := kii.body)
    ensures |kii.body| == |Applied(kii.server, old(ViewOf(kii)), op).body|
    ensures !op.Send? ==> kii.body == Applied(kii.server, old(ViewOf(kii)), op).body
  {
    match op {
      case Begin(verb, path, contentType) => var _ := kii.Start(verb, path, contentType);
      case Add(text) => var _ := kii.Append(text);
      case Send => var _ := kii.Run();
      case Delay(ms) => kii.log := kii.log + [Waited(ms)];
    }
  }

  /** The outside as one instance meets it: its buffer's size decides what a request has room for. */
  function ServerOf(net: Net, size: nat): Server {
    Server(log => if |net.header(log)| <= size then Some(size - |net.header(log)|) else None,
           log => var answer := net.answer(log);
                  if answer.Response? && |answer.body| > size then Unreachable else answer)
  }

  /** The memory holds what the value says; of the body only while a request is open. */
  ghost predicate Shows(mem: string, i: Instance, v: View)
    requires i.In(mem)
  {
    && v.path == i.path && v.intact == i.intact && v.log == i.log
    && (i.open ==> v.room == i.size - i.head && v.body == mem[i.base + i.head..i.base + i.used])
  }

  /** Texts are added, and requests sent, only after a start that succeeded. */
  predicate Disciplined(server: Server, open: bool, v: View, ops: seq<Op>)
    decreases |ops|
  {
    ops == [] ||
    (&& (ops[0].Add? || ops[0].Send? ==> open)
     && Disciplined(server,
                    if ops[0].Begin? then server.room(v.log).Some? else open && !ops[0].Send?,
                    Applied(server, v, ops[0]), ops[1..]))
  }

  lemma OpShows(mem: string, i: Instance, v: View, op: Op)
    requires i.In(mem) && Shows(mem, i, v) && (op.Add? || op.Send? ==> i.open)
    ensures var server, (m, j) := ServerOf(i.net, i.size), Do(mem, i, op);
            && Shows(m, j, Applied(server, v, op))
            && j.open == if op.Begin? then server.room(v.log).Some? else i.open && !op.Send?
  {
    var (m, j) := Do(mem, i, op);
    match op
    case Begin(_, _, _) => assert j.open ==> m[j.base + j.head..j.base + j.used] == "";
    case Add(text) =>
      if i.used + |text| <= i.size {
        assert m[i.base + i.head..i.base + j.used] == mem[i.base + i.head..i.base + i.used] + text;
      }
    case Send =>
    case Delay(_) =>
  }

  lemma {:induction false} AloneShows(mem: string, i: Instance, v: View, ops: seq<Op>)
    requires i.In(mem) && Shows(mem, i, v) && Disciplined(ServerOf(i.net, i.size), i.open, v, ops)
    ensures var (m, j) := Alone(mem, i, ops); Shows(m, j, AppliedAll(ServerOf(i.net, i.size), v, ops))
    decreases |ops|
  {
    hide Do, Shows, Applied;
    if ops != [] {
      OpShows(mem, i, v, ops[0]);
      var (m, j) := Do(mem, i, ops[0]);
      AloneShows(m, j, Applied(ServerOf(i.net, i.size), v, ops[0]), ops[1..]);
    }
  }

  /**
   Two disciplined tasks, however they interleave: each asks the network for exactly what a `Kii` of its own would, were
   its operations performed one after the other.
   */
  lemma TasksAreSequential(w: World, turns: seq<Turn>, v: View, u: View)
    requires w.Valid() && Disjoint(w.command, w.updater)
    requires Shows(w.mem, w.command, v) && Shows(w.mem, w.updater, u)
    requires Disciplined(ServerOf(w.command.net, w.command.size), w.command.open, v, CommandOps(turns))
    requires Disciplined(ServerOf(w.updater.net, w.updater.size), w.updater.open, u, UpdateOps(turns))
    ensures var end := Together(w, turns);
            && end.command.log == AppliedAll(ServerOf(w.command.net, w.command.size), v, CommandOps(turns)).log
            && end.updater.log == AppliedAll(ServerOf(w.updater.net, w.updater.size), u, UpdateOps(turns)).log
  {
    hide Together, Alone, Do, Region, Disciplined, AppliedAll, ServerOf;
    NonInterference(w, turns);
    AloneShows(w.mem, w.command, v, CommandOps(turns));
    AloneShows(w.mem, w.updater, u, UpdateOps(turns));
  }
}
