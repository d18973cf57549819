/**
 What one command message does, told as a single pass over its parsed value: which action handler
 calls it makes, what goes into the results body, and how it ends. Nothing here re-parses a list,
 and nothing here is written into the message.
 */
module Walk {
  import opened Basics
  import opened Scanner
  import opened Tokens
  import opened Api
  import opened Fields

  /** Where an action stands in the message, and its place in the two lists. */
  datatype Site = Site(aliasIndex: nat, actionIndex: nat, alias: Span, name: Span, value: Span) {
    /** The separator test of the dispatcher. */
    predicate Comma() {
      aliasIndex > 0 || actionIndex > 0
    }
  }

  /** What the action handler is told, and what it answers. */
  datatype Action = Action(alias: string, name: string, value: string)
  datatype Reply = Reply(succeeded: bool, error: string)

  /** A handler may keep any state: its reply depends on the calls made so far. */
  type Handler = (seq<Action>, Action) -> Reply

  datatype Setup = Setup(s: string, limit: nat, handler: Handler, room: nat)

  function ActionOf(s: string, site: Site): Action {
    Action(Text(s, site.alias), Text(s, site.name), Text(s, site.value))
  }

  function ActionsOf(s: string, sites: seq<Site>): (r: seq<Action>)
    ensures |r| == |sites|
  {
    seq(|sites|, i requires 0 <= i < |sites| => ActionOf(s, sites[i]))
  }

  /** The handler's reply to the k-th call. */
  function ReplyAt(c: Setup, sites: seq<Site>, k: nat): Reply
    requires k < |sites|
  {
    c.handler(ActionsOf(c.s, sites[..k]), ActionOf(c.s, sites[k]))
  }

  // ---- Reading one list. ----

  datatype Item = Found(key: Span, value: Tree) | Bad | End

  /** The k-th item of a list: the first pair of an object; anything that is not an object ends the list. */
  function ItemAt(list: Option<Tree>, k: nat): (r: Item)
    ensures r.Found? ==> list.Some? && list.value.Arr? && k < |list.value.elems|
  {
    match ObjectAt(list, IndexPath(k))
    case Error => Bad
    case Partial => End
    case Success(item) =>
      IndexPathRoundTrip(k);
      if item.pairs == [] then Bad else Found(item.pairs[0].key, item.pairs[0].value)
  }

  function Length(list: Option<Tree>): nat {
    if list.Some? && list.value.Arr? then |list.value.elems| else 0
  }

  /** The list that an alias names: containers are read as they stand, other values as texts of their own. */
  function Listing(c: Setup, value: Tree): Option<Tree> {
    if value.Arr? || value.Obj? then Some(value)
    else if value.start <= value.end <= |c.s| then Readable(c.s, value.start, value.end, c.limit)
    else None
  }

  // ---- Writing one result. ----

  function EntryOut(room: nat, o: Out, name: string, reply: Reply): Out {
    var o1 := Put(room, Put(room, Put(room, o, "{\""), name), "\":{");
    var o2 := KeyValueOut(room, o1, Some("succeeded"), Some(if reply.succeeded then "true" else "false"), false, false);
    var error := if reply.succeeded then None else Some(reply.error);
    var o3 := OptionalOut(room, o2, Some("errorMessage"), error, true, true);
    Put(room, o3, "}}")
  }

  function EntryText(name: string, reply: Reply): string {
    "{\"" + name + "\":{"
    + KeyValueText("succeeded", if reply.succeeded then "true" else "false", false, false)
    + (if reply.succeeded then "" else KeyValueText("errorMessage", reply.error, true, true))
    + "}}"
  }

  lemma EntryExact(room: nat, o: Out, name: string, reply: Reply)
    requires o.ok ==> |o.body| <= room
    ensures Exact(room, o, EntryOut(room, o, name, reply), EntryText(name, reply))
  {
    hide KeyValueOut, KeyValueText;
    var flag := if reply.succeeded then "true" else "false";
    var a := Put(room, o, "{\"");
    var b := Put(room, a, name);
    var d := Put(room, b, "\":{");
    ExactThen(room, o, a, "{\"", b, name);
    ExactThen(room, o, b, "{\"" + name, d, "\":{");
    var e := KeyValueOut(room, d, Some("succeeded"), Some(flag), false, false);
    KeyValueExact(room, d, "succeeded", flag, false, false);
    ExactThen(room, o, d, "{\"" + name + "\":{", e, KeyValueText("succeeded", flag, false, false));
    var error := if reply.succeeded then None else Some(reply.error);
    var f := OptionalOut(room, e, Some("errorMessage"), error, true, true);
    var message := if reply.succeeded then "" else KeyValueText("errorMessage", reply.error, true, true);
    if !reply.succeeded {
      KeyValueExact(room, e, "errorMessage", reply.error, true, true);
    }
    ExactThen(room, o, e, "{\"" + name + "\":{" + KeyValueText("succeeded", flag, false, false), f, message);
    ExactThen(room, o, f, "{\"" + name + "\":{" + KeyValueText("succeeded", flag, false, false) + message,
              EntryOut(room, o, name, reply), "}}");
  }

  // ---- The pass. ----

  datatype Progress = Progress(sites: seq<Site>, body: string)

  /** How a list ended: at its end, at an item that cannot be read, or at an action whose result did not fit. */
  datatype Stop = Finished | BadItem | Overflow(site: Site)

  /** A comma that does not fit is passed over; the rest of the entry is still tried. */
  function CommaOut(room: nat, body: string, comma: bool): Out {
    Out(if comma then Put(room, Out(body, true), ",").body else body, true)
  }

  function Perform(c: Setup, p: Progress, site: Site): (Progress, bool) {
    var reply := c.handler(ActionsOf(c.s, p.sites), ActionOf(c.s, site));
    var out := EntryOut(c.room, CommaOut(c.room, p.body, site.Comma()), Text(c.s, site.name), reply);
    (Progress(p.sites + [site], out.body), out.ok)
  }

  function WalkActions(c: Setup, i: nat, alias: Span, list: Option<Tree>, k: nat, p: Progress): (Progress, Stop)
    decreases Length(list) - k
  {
    match ItemAt(list, k)
    case Bad => (p, BadItem)
    case End => (p, Finished)
    case Found(name, value) =>
      var site := Site(i, k, alias, name, value.Extent());
      var (q, ok) := Perform(c, p, site);
      if ok then WalkActions(c, i, alias, list, k + 1, q) else (q, Overflow(site))
  }

  datatype Ending = Completed | BadAlias | BadAction(alias: Span) | Overflowed(site: Site)

  function WalkAliases(c: Setup, list: Option<Tree>, k: nat, p: Progress): (Progress, Ending)
    decreases Length(list) - k
  {
    match ItemAt(list, k)
    case Bad => (p, BadAlias)
    case End => (p, Completed)
    case Found(alias, value) =>
      var (q, stop) := WalkActions(c, k, alias, Listing(c, value), 0, p);
      match stop
      case Finished => WalkAliases(c, list, k + 1, q)
      case BadItem => (q, BadAction(alias))
      case Overflow(site) => (q, Overflowed(site))
  }

  // ---- What is written into the message. ----

  function Terminated(s: string, p: Span): string {
    if p.end < |s| then s[p.end := NUL] else s
  }

  /** What the message holds while the action at `site` is handled. */
  function DuringCall(s: string, site: Site): string {
    Terminated(Terminated(Terminated(s, site.alias), site.name), site.value)
  }

  /** What the message holds in the end: two kinds of error return leave their terminators behind. */
  function Aftermath(s: string, ending: Ending): string {
    match ending
    case Completed => s
    case BadAlias => s
    case BadAction(alias) => Terminated(s, alias)
    case Overflowed(site) => DuringCall(s, site)
  }

  // ---- The whole message. ----

  const RESULTS_HEAD := "{\"actionResults\":["
  const RESULTS_TAIL := "]}"
  const THING_IF_APP_PATH := "thing-if/apps/"
  const TARGET_PART := "/targets/thing:"
  const COMMAND_PART := "/commands/"
  const RESULTS_PART := "/action-results"
  const STATES_PART := "/states"
  const CONTENT_UPDATE_STATE := "application/vnd.kii.MultipleTraitState+json"
  const PATH_SIZE: nat := 256

  function StatePath(appId: string, authorId: string): string {
    THING_IF_APP_PATH + appId + TARGET_PART + authorId + STATES_PART
  }

  function ResultsPath(appId: string, authorId: string, command: string): string {
    THING_IF_APP_PATH + appId + TARGET_PART + authorId + COMMAND_PART + command + RESULTS_PART
  }

  /** The sum that the results path is guarded by: it counts one character of the identifier too few. */
  function ResultsPathSum(appId: string, authorId: string, command: string): int {
    |THING_IF_APP_PATH| + |appId| + |TARGET_PART| + |authorId| + |COMMAND_PART| + (|command| - 1) + |RESULTS_PART|
  }

  /** Everything that a message is handled with. The reporter yields the chunks that the state handler writes. */
  datatype Scene = Scene(
    s: string, limit: nat, appId: string, author: Author, server: Server,
    handler: Handler, reporter: seq<Event> -> seq<string>, log: seq<Event>)

  datatype Effect = Effect(log: seq<Event>, sites: seq<Site>, message: string)

  /** Sending the state: nothing is run unless every chunk went in. */
  function StateLog(c: Scene, log: seq<Event>): seq<Event> {
    var path := StatePath(c.appId, c.author.id);
    if PATH_SIZE <= |path| then log
    else
      match c.server.room(log)
      case None => log + [StartFailed(path)]
      case Some(room) =>
        var log1 := log + [Started("PUT", path, CONTENT_UPDATE_STATE)];
        var out := ChunksOut(room, Out("", true), c.reporter(log1));
        if out.ok then log1 + [Ran(path, out.body, true, c.server.answer(log1))] else log1
  }

  function Handle(c: Scene): Effect {
    var doc := Readable(c.s, 0, |c.s|, c.limit);
    match CommandIn(c.s, doc)
    case None => Effect(c.log, [], c.s)
    case Some(command) =>
      var id := Text(c.s, command.id);
      if PATH_SIZE <= ResultsPathSum(c.appId, c.author.id, id) then Effect(c.log, [], c.s)
      else HandleCommand(c, ResultsPath(c.appId, c.author.id, id), command.actions)
  }

  function HandleCommand(c: Scene, path: string, actions: Option<Tree>): Effect {
    match c.server.room(c.log)
    case None => Effect(c.log + [StartFailed(path)], [], c.s)
    case Some(room) =>
      var log1 := c.log + [Started("PUT", path, "application/json")];
      var head := Put(room, Out("", true), RESULTS_HEAD);
      if !head.ok then Effect(log1, [], c.s)
      else
        var (p, ending) := WalkAliases(Setup(c.s, c.limit, c.handler, room), actions, 0, Progress([], head.body));
        if !ending.Completed? then Effect(log1, p.sites, Aftermath(c.s, ending))
        else Effect(ResultsLog(c, log1, path, Put(room, Out(p.body, true), RESULTS_TAIL)), p.sites, c.s)
  }

  function ResultsLog(c: Scene, log: seq<Event>, path: string, out: Out): seq<Event> {
    if !out.ok then log
    else
      var log2 := log + [Ran(path, out.body, true, c.server.answer(log))];
      if c.server.answer(log).Unreachable? then log2 else StateLog(c, log2)
  }
}
