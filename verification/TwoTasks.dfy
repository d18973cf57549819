/**
 The two tasks of the SDK, each as the sequence of request operations that it performs, next to each other on one
 memory: the command task handling a message, and the updater task going round.
 */
module TwoTasks {
  import opened Basics
  import opened Scanner
  import opened Tokens
  import opened Api
  import opened Fields
  import opened Walk
  import opened Updater
  import opened TwoInstances
  import opened Reactive

  // ---- Operations, one after the other. ----

  lemma {:induction false} AppliedConcat(server: Server, open: bool, v: View, a: seq<Op>, b: seq<Op>)
    ensures AppliedAll(server, v, a + b) == AppliedAll(server, AppliedAll(server, v, a), b)
    ensures Disciplined(server, open, v, a) && Disciplined(server, false, AppliedAll(server, v, a), b) ==>
              Disciplined(server, open, v, a + b)
    decreases |a|
  {
    hide Applied;
    if a == [] {
      assert a + b == b;
      MoreOpen(server, v, b);
    } else {
      assert (a + b)[0] == a[0] && (a + b)[1..] == a[1..] + b;
      var open1 := if a[0].Begin? then server.room(v.log).Some? else open && !a[0].Send?;
      AppliedConcat(server, open1, Applied(server, v, a[0]), a[1..], b);
    }
  }

  /** An open request forbids nothing. */
  lemma {:induction false} MoreOpen(server: Server, v: View, ops: seq<Op>)
    ensures Disciplined(server, false, v, ops) ==> Disciplined(server, true, v, ops)
    decreases |ops|
  {
    hide Applied;
    if ops != [] {
      MoreOpen(server, Applied(server, v, ops[0]), ops[1..]);
    }
  }

  predicate AllAdds(ops: seq<Op>) {
    forall k :: 0 <= k < |ops| ==> ops[k].Add?
  }

  /** Texts may be added to an open request, and leave it open. */
  lemma {:induction false} AddsKeepOpen(server: Server, v: View, a: seq<Op>, b: seq<Op>)
    requires AllAdds(a) && Disciplined(server, true, AppliedAll(server, v, a), b)
    ensures Disciplined(server, true, v, a + b)
    decreases |a|
  {
    hide Applied;
    if a == [] {
      assert a + b == b;
    } else {
      assert (a + b)[0] == a[0] && (a + b)[1..] == a[1..] + b;
      AddsKeepOpen(server, Applied(server, v, a[0]), a[1..], b);
    }
  }

  /** Adding texts until one does not fit. */
  function Adds(room: nat, o: Out, texts: seq<string>): (r: seq<Op>)
    ensures AllAdds(r)
    decreases |texts|
  {
    if !o.ok || texts == [] then [] else [Add(texts[0])] + Adds(room, Put(room, o, texts[0]), texts[1..])
  }

  lemma {:induction false} AddsApplied(server: Server, v: View, texts: seq<string>)
    ensures var out := ChunksOut(v.room, Out(v.body, true), texts);
            AppliedAll(server, v, Adds(v.room, Out(v.body, true), texts))
                == v.(body := out.body, intact := v.intact && out.ok)
    decreases |texts|
  {
    if texts != [] {
      var o := Put(v.room, Out(v.body, true), texts[0]);
      var rest := Adds(v.room, o, texts[1..]);
      var ops := [Add(texts[0])] + rest;
      assert ops[0] == Add(texts[0]) && ops[1..] == rest;
      if o.ok {
        AddsApplied(server, Applied(server, v, Add(texts[0])), texts[1..]);
      } else {
        FailedChunks(v.room, o, texts[1..]);
      }
    }
  }

  // ---- Sending the state. ----

  function StateOps(c: Scene, log: seq<Event>): seq<Op> {
    var path := StatePath(c.appId, c.author.id);
    if PATH_SIZE <= |path| then []
    else
      [Begin("PUT", path, CONTENT_UPDATE_STATE)] +
      match c.server.room(log)
      case None => []
      case Some(room) =>
        var chunks := c.reporter(log + [Started("PUT", path, CONTENT_UPDATE_STATE)]);
        Adds(room, Out("", true), chunks) + (if ChunksOut(room, Out("", true), chunks).ok then [Send] else [])
  }

  lemma StateSent(c: Scene, v: View)
    ensures Disciplined(c.server, false, v, StateOps(c, v.log))
    ensures AppliedAll(c.server, v, StateOps(c, v.log)).log == StateLog(c, v.log)
  {
    hide StatePath, ChunksOut, Adds;
    var path := StatePath(c.appId, c.author.id);
    if |path| < PATH_SIZE {
      var begin := Begin("PUT", path, CONTENT_UPDATE_STATE);
      var ops := StateOps(c, v.log);
      var v1 := Applied(c.server, v, begin);
      assert ops[0] == begin;
      if c.server.room(v.log).Some? {
        var chunks := c.reporter(v1.log);
        var adds := Adds(v1.room, Out("", true), chunks);
        var last := if ChunksOut(v1.room, Out("", true), chunks).ok then [Send] else [];
        AddsApplied(c.server, v1, chunks);
        AppliedConcat(c.server, true, v1, adds, last);
        AddsKeepOpen(c.server, v1, adds, last);
        assert ops[1..] == adds + last;
        assert [Send][1..] == [];
      } else {
        assert ops[1..] == [];
      }
    }
  }

  // ---- The updater. ----

  function RoundOps(c: Scene, period: int, log: seq<Event>, n: nat): seq<Op>
    decreases n
  {
    if n == 0 then []
    else
      var waited := log + [Waited(period * 1000)];
      [Delay(period * 1000)] + (StateOps(c, waited) + RoundOps(c, period, StateLog(c, waited), n - 1))
  }

  /** The updater's rounds are what its loop logs. */
  lemma {:induction false} RoundsSent(c: Scene, period: int, v: View, n: nat)
    ensures Disciplined(c.server, false, v, RoundOps(c, period, v.log, n))
    ensures AppliedAll(c.server, v, RoundOps(c, period, v.log, n)).log == RoundsLog(c, period, v.log, n)
    decreases n
  {
    hide StateLog, StateOps;
    if n > 0 {
      var delay := Delay(period * 1000);
      var v1 := Applied(c.server, v, delay);
      var ops, sent := RoundOps(c, period, v.log, n), StateOps(c, v1.log);
      StateSent(c, v1);
      var v2 := AppliedAll(c.server, v1, sent);
      RoundsSent(c, period, v2, n - 1);
      AppliedConcat(c.server, false, v1, sent, RoundOps(c, period, v2.log, n - 1));
      assert ops[0] == delay && ops[1..] == sent + RoundOps(c, period, v2.log, n - 1);
    }
  }

  // ---- One result. ----

  function KeyValueTexts(key: string, value: string, successor: bool, isString: bool): seq<string> {
    (if successor then [","] else []) + (["\"", key, "\":"] + (if isString then ["\"", value, "\""] else [value]))
  }

  function EntryTexts(name: string, reply: Reply): seq<string> {
    ["{\"", name, "\":{"] + (KeyValueTexts("succeeded", if reply.succeeded then "true" else "false", false, false)
    + ((if reply.succeeded then [] else KeyValueTexts("errorMessage", reply.error, true, true)) + ["}}"]))
  }

  lemma {:induction false} ChunksConcat(room: nat, o: Out, a: seq<string>, b: seq<string>)
    ensures ChunksOut(room, o, a + b) == ChunksOut(room, ChunksOut(room, o, a), b)
    decreases |a|
  {
    if a == [] {
      assert a + b == b;
    } else {
      assert (a + b)[0] == a[0] && (a + b)[1..] == a[1..] + b;
      ChunksConcat(room, Put(room, o, a[0]), a[1..], b);
    }
  }

  lemma FewChunks(room: nat, o: Out, a: string, b: string, d: string)
    ensures ChunksOut(room, o, [a]) == Put(room, o, a)
    ensures ChunksOut(room, o, [a, b, d]) == Put(room, Put(room, Put(room, o, a), b), d)
  {
    assert [a][1..] == [] && [a, b, d][1..] == [b, d] && [b, d][1..] == [d] && [d][1..] == [];
    var o1 := Put(room, o, a);
    var o2 := Put(room, o1, b);
    assert ChunksOut(room, o2, [d]) == ChunksOut(room, Put(room, o2, d), []);
    assert ChunksOut(room, o1, [b, d]) == ChunksOut(room, o2, [d]);
  }

  lemma KeyValueChunks(room: nat, o: Out, key: string, value: string, successor: bool, isString: bool)
    ensures ChunksOut(room, o, KeyValueTexts(key, value, successor, isString)) ==
            KeyValueOut(room, o, Some(key), Some(value), successor, isString)
  {
    hide ChunksOut, Put;
    var comma, head := if successor then [","] else [], ["\"", key, "\":"];
    var last := if isString then ["\"", value, "\""] else [value];
    ChunksConcat(room, o, comma, head + last);
    NoChunks(room, o);
    FewChunks(room, o, ",", "", "");
    var o1 := ChunksOut(room, o, comma);
    ChunksConcat(room, o1, head, last);
    FewChunks(room, o1, "\"", key, "\":");
    var o2 := ChunksOut(room, o1, head);
    FewChunks(room, o2, "\"", value, "\"");
    FewChunks(room, o2, value, "", "");
  }

  lemma NoChunks(room: nat, o: Out)
    ensures ChunksOut(room, o, []) == o
  {
  }

  /** A result is written text by text. */
  lemma EntryChunks(room: nat, o: Out, name: string, reply: Reply)
    ensures ChunksOut(room, o, EntryTexts(name, reply)) == EntryOut(room, o, name, reply)
  {
    hide ChunksOut, Put, KeyValueTexts, KeyValueOut;
    var flag := if reply.succeeded then "true" else "false";
    var head, first := ["{\"", name, "\":{"], KeyValueTexts("succeeded", flag, false, false);
    var second := if reply.succeeded then [] else KeyValueTexts("errorMessage", reply.error, true, true);
    ChunksConcat(room, o, head, first + (second + ["}}"]));
    FewChunks(room, o, "{\"", name, "\":{");
    var o1 := ChunksOut(room, o, head);
    ChunksConcat(room, o1, first, second + ["}}"]);
    KeyValueChunks(room, o1, "succeeded", flag, false, false);
    var o2 := ChunksOut(room, o1, first);
    ChunksConcat(room, o2, second, ["}}"]);
    NoChunks(room, o2);
    KeyValueChunks(room, o2, "errorMessage", reply.error, true, true);
    FewChunks(room, ChunksOut(room, o2, second), "}}", "", "");
  }

  function PerformOps(c: Setup, p: Progress, site: Site): (r: seq<Op>)
    ensures AllAdds(r)
  {
    var reply := c.handler(ActionsOf(c.s, p.sites), ActionOf(c.s, site));
    (if site.Comma() then [Add(",")] else [])
    + Adds(c.room, CommaOut(c.room, p.body, site.Comma()), EntryTexts(Text(c.s, site.name), reply))
  }

  /** Adding the texts of results to a request moves its body, and its body only. */
  ghost predicate Grown(v: View, w: View, body: string) {
    w.path == v.path && w.room == v.room && w.log == v.log && w.body == body && |body| <= v.room
  }

  lemma PerformApplied(server: Server, c: Setup, p: Progress, site: Site, v: View)
    requires v.body == p.body && v.room == c.room && |v.body| <= v.room
    ensures var (q, ok), w := Perform(c, p, site), AppliedAll(server, v, PerformOps(c, p, site));
            Grown(v, w, q.body) && (ok ==> w.intact == v.intact)
  {
    hide ChunksOut, EntryOut, EntryText, EntryTexts, Adds;
    var name, reply := Text(c.s, site.name), c.handler(ActionsOf(c.s, p.sites), ActionOf(c.s, site));
    var o := CommaOut(c.room, p.body, site.Comma());
    var comma: seq<Op> := if site.Comma() then [Add(",")] else [];
    AppliedConcat(server, true, v, comma, Adds(c.room, o, EntryTexts(name, reply)));
    assert [Add(",")][1..] == [];
    var v1 := AppliedAll(server, v, comma);
    assert v1.body == o.body && v1.room == c.room;
    AddsApplied(server, v1, EntryTexts(name, reply));
    EntryChunks(c.room, o, name, reply);
    EntryExact(c.room, o, name, reply);
    EntryNotEmpty(name, reply);
    EntryBounded(c.room, o, EntryTexts(name, reply));
  }

  lemma EntryNotEmpty(name: string, reply: Reply)
    ensures |EntryText(name, reply)| > 0
  {
    hide KeyValueText;
  }

  lemma {:induction false} EntryBounded(room: nat, o: Out, texts: seq<string>)
    requires |o.body| <= room
    ensures |ChunksOut(room, o, texts).body| <= room
    decreases |texts|
  {
    if texts != [] {
      EntryBounded(room, Put(room, o, texts[0]), texts[1..]);
    }
  }

  // ---- The walk. ----

  function WalkActionsOps(c: Setup, i: nat, alias: Span, list: Option<Tree>, k: nat, p: Progress): (r: seq<Op>)
    ensures AllAdds(r)
    decreases Length(list) - k
  {
    match ItemAt(list, k)
    case Bad => []
    case End => []
    case Found(name, value) =>
      var site := Site(i, k, alias, name, value.Extent());
      var (q, ok) := Perform(c, p, site);
      PerformOps(c, p, site) + if ok then WalkActionsOps(c, i, alias, list, k + 1, q) else []
  }

  function WalkAliasesOps(c: Setup, list: Option<Tree>, k: nat, p: Progress): (r: seq<Op>)
    ensures AllAdds(r)
    decreases Length(list) - k
  {
    match ItemAt(list, k)
    case Bad => []
    case End => []
    case Found(alias, value) =>
      var (q, stop) := WalkActions(c, k, alias, Listing(c, value), 0, p);
      WalkActionsOps(c, k, alias, Listing(c, value), 0, p)
      + if stop.Finished? then WalkAliasesOps(c, list, k + 1, q) else []
  }

  lemma {:induction false} WalkActionsApplied(server: Server, c: Setup, i: nat, alias: Span, list: Option<Tree>,
                                              k: nat, p: Progress, v: View)
    requires v.body == p.body && v.room == c.room && |v.body| <= v.room
    ensures var (q, stop) := WalkActions(c, i, alias, list, k, p);
            var w := AppliedAll(server, v, WalkActionsOps(c, i, alias, list, k, p));
            Grown(v, w, q.body) && (stop.Finished? ==> w.intact == v.intact)
    decreases Length(list) - k
  {
    hide Perform, PerformOps, ItemAt;
    if ItemAt(list, k).Found? {
      var site := Site(i, k, alias, ItemAt(list, k).key, ItemAt(list, k).value.Extent());
      var (q, ok) := Perform(c, p, site);
      var first := PerformOps(c, p, site);
      var rest := if ok then WalkActionsOps(c, i, alias, list, k + 1, q) else [];
      PerformApplied(server, c, p, site, v);
      AppliedConcat(server, true, v, first, rest);
      if ok {
        WalkActionsApplied(server, c, i, alias, list, k + 1, q, AppliedAll(server, v, first));
      }
    }
  }

  lemma {:induction false} WalkAliasesApplied(server: Server, c: Setup, list: Option<Tree>, k: nat, p: Progress,
      v: View)
    requires v.body == p.body && v.room == c.room && |v.body| <= v.room
    ensures var (q, ending) := WalkAliases(c, list, k, p);
            var w := AppliedAll(server, v, WalkAliasesOps(c, list, k, p));
            Grown(v, w, q.body) && (ending.Completed? ==> w.intact == v.intact)
    decreases Length(list) - k
  {
    hide WalkActions, WalkActionsOps, ItemAt, Listing;
    if ItemAt(list, k).Found? {
      var alias, inner := ItemAt(list, k).key, Listing(c, ItemAt(list, k).value);
      var (q, stop) := WalkActions(c, k, alias, inner, 0, p);
      var first := WalkActionsOps(c, k, alias, inner, 0, p);
      var rest := if stop.Finished? then WalkAliasesOps(c, list, k + 1, q) else [];
      WalkActionsApplied(server, c, k, alias, inner, 0, p, v);
      AppliedConcat(server, true, v, first, rest);
      if stop.Finished? {
        WalkAliasesApplied(server, c, list, k + 1, q, AppliedAll(server, v, first));
      }
    }
  }

  // ---- A whole message. ----

  function HandleOps(c: Scene): seq<Op> {
    match CommandIn(c.s, Readable(c.s, 0, |c.s|, c.limit))
    case None => []
    case Some(command) =>
      var id := Text(c.s, command.id);
      if PATH_SIZE <= ResultsPathSum(c.appId, c.author.id, id) then []
      else
        var path := ResultsPath(c.appId, c.author.id, id);
        [Begin("PUT", path, "application/json")] +
        match c.server.room(c.log)
        case None => []
        case Some(room) => BodyOps(c, path, command.actions, room)
  }

  function BodyOps(c: Scene, path: string, actions: Option<Tree>, room: nat): seq<Op> {
    var head := Put(room, Out("", true), RESULTS_HEAD);
    [Add(RESULTS_HEAD)] +
    if !head.ok then []
    else
      var setup, start := Setup(c.s, c.limit, c.handler, room), Progress([], head.body);
      var (p, ending) := WalkAliases(setup, actions, 0, start);
      WalkAliasesOps(setup, actions, 0, start) +
      if ending.Completed? then TailOps(c, path, room, p.body) else []
  }

  function TailOps(c: Scene, path: string, room: nat, body: string): seq<Op> {
    var out := Put(room, Out(body, true), RESULTS_TAIL);
    [Add(RESULTS_TAIL)] +
    if !out.ok then []
    else
      var log1 := c.log + [Started("PUT", path, "application/json")];
      var answer := c.server.answer(log1);
      [Send] + if answer.Unreachable? then [] else StateOps(c, log1 + [Ran(path, out.body, true, answer)])
  }

  lemma TailSent(c: Scene, path: string, v: View)
    requires v.log == c.log + [Started("PUT", path, "application/json")] && v.path == path && v.intact
    ensures Disciplined(c.server, true, v, TailOps(c, path, v.room, v.body))
    ensures AppliedAll(c.server, v, TailOps(c, path, v.room, v.body)).log ==
            ResultsLog(c, v.log, path, Put(v.room, Out(v.body, true), RESULTS_TAIL))
  {
    hide StateLog, StateOps;
    var out := Put(v.room, Out(v.body, true), RESULTS_TAIL);
    var ops := TailOps(c, path, v.room, v.body);
    var v1 := Applied(c.server, v, Add(RESULTS_TAIL));
    assert ops[0] == Add(RESULTS_TAIL);
    if out.ok {
      var v2 := Applied(c.server, v1, Send);
      var rest := ops[1..];
      assert rest[0] == Send;
      if c.server.answer(v.log).Unreachable? {
        assert rest[1..] == [];
        assert AppliedAll(c.server, v2, []) == v2 && Disciplined(c.server, false, v2, []);
        assert AppliedAll(c.server, v1, rest) == v2 && Disciplined(c.server, true, v1, rest);
      } else {
        StateSent(c, v2);
        assert rest[1..] == StateOps(c, v2.log);
      }
    } else {
      assert ops[1..] == [];
    }
  }

  lemma BodySent(c: Scene, path: string, actions: Option<Tree>, v: View)
    requires v.log == c.log + [Started("PUT", path, "application/json")]
    requires v.path == path && v.intact && v.body == "" && c.server.room(c.log) == Some(v.room)
    ensures Disciplined(c.server, true, v, BodyOps(c, path, actions, v.room))
    ensures AppliedAll(c.server, v, BodyOps(c, path, actions, v.room)).log == HandleCommand(c, path, actions).log
  {
    hide ResultsLog, TailOps, WalkAliases, WalkAliasesOps;
    var room := v.room;
    var head := Put(room, Out("", true), RESULTS_HEAD);
    var ops := BodyOps(c, path, actions, room);
    var v1 := Applied(c.server, v, Add(RESULTS_HEAD));
    assert ops[0] == Add(RESULTS_HEAD);
    if head.ok {
      var setup, start := Setup(c.s, c.limit, c.handler, room), Progress([], head.body);
      var (p, ending) := WalkAliases(setup, actions, 0, start);
      var walk := WalkAliasesOps(setup, actions, 0, start);
      var tail := if ending.Completed? then TailOps(c, path, room, p.body) else [];
      WalkAliasesApplied(c.server, setup, actions, 0, start, v1);
      var v2 := AppliedAll(c.server, v1, walk);
      AppliedConcat(c.server, true, v1, walk, tail);
      if ending.Completed? {
        TailSent(c, path, v2);
      }
      AddsKeepOpen(c.server, v1, walk, tail);
      assert ops[1..] == walk + tail;
    } else {
      assert ops[1..] == [];
    }
  }

  /** The operations of handling a message are disciplined, and log what the handling of the message logs. */
  lemma MessageSent(c: Scene, v: View)
    requires v.log == c.log
    ensures Disciplined(c.server, false, v, HandleOps(c))
    ensures AppliedAll(c.server, v, HandleOps(c)).log == Handle(c).log
  {
    hide BodyOps, Readable, ResultsPath, ResultsPathSum, CommandIn, HandleCommand, StatePath;
    var command := CommandIn(c.s, Readable(c.s, 0, |c.s|, c.limit));
    if command.Some? && ResultsPathSum(c.appId, c.author.id, Text(c.s, command.value.id)) < PATH_SIZE {
      var path := ResultsPath(c.appId, c.author.id, Text(c.s, command.value.id));
      var begin := Begin("PUT", path, "application/json");
      var ops := HandleOps(c);
      assert ops[0] == begin;
      var v1 := Applied(c.server, v, begin);
      if c.server.room(c.log).Some? {
        BodySent(c, path, command.value.actions, v1);
        assert ops[1..] == BodyOps(c, path, command.value.actions, v1.room);
      } else {
        assert ops[1..] == [];
        NotStarted(c, path, command.value.actions);
      }
    }
  }

  lemma NotStarted(c: Scene, path: string, actions: Option<Tree>)
    requires c.server.room(c.log).None?
    ensures HandleCommand(c, path, actions).log == c.log + [StartFailed(path)]
  {
  }

  /**
   Two tasks that decide by what came of what they did, under any schedule that gives each enough turns. If the one
   handles the message when it is alone, and the other goes its rounds when it is alone, then with disjoint buffers both
   do so together: the command task ends with the log of handling the message, the updater with the log of its rounds.
   */
  lemma TasksUndisturbed(s: Both, p: Task, q: Task, schedule: seq<Whose>, v: View, u: View, c: Scene, d: Scene,
                         period: int, n: nat)
    requires s.Valid()
    requires var a, b := Latest(s.command), Latest(s.updater);
             && Disjoint(a, b) && !a.open && !b.open
             && Shows(s.mem, a, v) && c.log == v.log && c.server == ServerOf(a.net, a.size)
             && Shows(s.mem, b, u) && d.log == u.log && d.server == ServerOf(b.net, b.size)
    requires Performs(p, s.mem, s.command, HandleOps(c)) && Turns(schedule, CommandTask) >= |HandleOps(c)|
    requires Performs(q, s.mem, s.updater, RoundOps(d, period, u.log, n))
    requires Turns(schedule, UpdaterTask) >= |RoundOps(d, period, u.log, n)|
    ensures Latest(Scheduled(s, p, q, schedule).command).log == Handle(c).log
    ensures Latest(Scheduled(s, p, q, schedule).updater).log == RoundsLog(d, period, u.log, n)
  {
    hide Scheduled, Solo, Alone, Handle, HandleOps, Disciplined, AppliedAll, RoundOps, RoundsLog, ServerOf, Performs;
    TasksReactAlone(s, p, q, schedule);
    SoloPerforms(p, s.mem, s.command, HandleOps(c), Turns(schedule, CommandTask));
    SoloPerforms(q, s.mem, s.updater, RoundOps(d, period, u.log, n), Turns(schedule, UpdaterTask));
    MessageSent(c, v);
    RoundsSent(d, period, u, n);
    AloneShows(s.mem, Latest(s.command), v, HandleOps(c));
    AloneShows(s.mem, Latest(s.updater), u, RoundOps(d, period, u.log, n));
  }
}
