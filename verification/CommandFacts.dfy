/**
 What holds of every command message: which calls are made and in which order, exactly when the
 results are sent, that what is sent is always the whole document, and exactly when a receiver
 reads in it what the dispatcher meant.
 */
module CommandFacts {
  import opened Basics
  import opened Scanner
  import opened ScannerFacts
  import opened Tokens
  import opened Api
  import opened Fields
  import opened Walk
  import opened Placement
  import opened Printing
  import opened Results
  import opened Dispatcher

  // ---- The document order of the actions. ----

  function ElementsOf(list: Option<Tree>): (r: seq<Tree>)
    ensures |r| == Length(list)
  {
    if list.Some? && list.value.Arr? then list.value.elems else []
  }

  predicate HasPair(v: Tree) {
    v.Obj? && v.pairs != []
  }

  /** The first pairs of the leading objects of a list, one action each. */
  function SitesOfActions(i: nat, k: nat, alias: Span, elems: seq<Tree>): seq<Site>
    decreases |elems|
  {
    if elems == [] || !HasPair(elems[0]) then []
    else
      var p := elems[0].pairs[0];
      [Site(i, k, alias, p.key, p.value.Extent())] + SitesOfActions(i, k + 1, alias, elems[1..])
  }

  /** A list can be walked to its end: no object without pairs comes before it. */
  predicate EndsWell(elems: seq<Tree>)
    decreases |elems|
  {
    elems == [] || !elems[0].Obj? || (elems[0].pairs != [] && EndsWell(elems[1..]))
  }

  predicate IsContainer(list: Option<Tree>) {
    list.Some? && (list.value.Arr? || list.value.Obj?)
  }

  predicate ListEnds(list: Option<Tree>) {
    IsContainer(list) && EndsWell(ElementsOf(list))
  }

  /** What keeps a walk from its end: an alias that cannot be read, or an action of this alias that cannot. */
  datatype Trouble = NoTrouble | AtAlias | AtAction(alias: Span)

  /** The actions that a walk of the aliases can reach, in document order, and the trouble that it meets there. */
  function Reached(c: Setup, i: nat, elems: seq<Tree>): (seq<Site>, Trouble)
    decreases |elems|
  {
    if elems == [] || !elems[0].Obj? then ([], NoTrouble)
    else if elems[0].pairs == [] then ([], AtAlias)
    else
      var p := elems[0].pairs[0];
      var inner := Listing(c, p.value);
      var first := SitesOfActions(i, 0, p.key, ElementsOf(inner));
      if !ListEnds(inner) then (first, AtAction(p.key))
      else
        var (rest, trouble) := Reached(c, i + 1, elems[1..]);
        (first + rest, trouble)
  }

  /** The same for a list that may be missing. */
  function ReachedIn(c: Setup, list: Option<Tree>): (seq<Site>, Trouble) {
    if IsContainer(list) then Reached(c, 0, ElementsOf(list)) else ([], AtAlias)
  }

  // ---- What is streamed for them. ----

  /** The results of the actions in `todo`, when those in `done` were handled before. */
  function Entries(c: Setup, done: seq<Site>, todo: seq<Site>): seq<Entry>
    decreases |todo|
  {
    if todo == [] then []
    else
      var reply := c.handler(ActionsOf(c.s, done), ActionOf(c.s, todo[0]));
      [Entry(todo[0].Comma(), Text(c.s, todo[0].name), reply)] + Entries(c, done + [todo[0]], todo[1..])
  }

  /** The texts of the results of the actions in `todo`, when those in `done` were handled before. */
  function TextOf(c: Setup, done: seq<Site>, todo: seq<Site>): string {
    ItemsText(Entries(c, done, todo))
  }

  lemma {:induction false} EntriesSplitAt(c: Setup, done: seq<Site>, a: seq<Site>, b: seq<Site>)
    ensures Entries(c, done, a + b) == Entries(c, done, a) + Entries(c, done + a, b)
    decreases |a|
  {
    if a == [] {
      assert a + b == b && done + a == done;
    } else {
      EntriesSplitAt(c, done + [a[0]], a[1..], b);
      assert (a + b)[0] == a[0] && (a + b)[1..] == a[1..] + b;
      assert done + [a[0]] + a[1..] == done + a;
    }
  }

  lemma {:induction false} ItemsTextConcat(a: seq<Entry>, b: seq<Entry>)
    ensures ItemsText(a + b) == ItemsText(a) + ItemsText(b)
    decreases |a|
  {
    hide ItemText;
    if a == [] {
      assert a + b == b;
    } else {
      ItemsTextConcat(a[1..], b);
      assert (a + b)[0] == a[0] && (a + b)[1..] == a[1..] + b;
    }
  }

  // ---- The pass, in terms of the document order. ----

  lemma ItemIs(list: Option<Tree>, k: nat)
    ensures ItemAt(list, k) ==
            if !IsContainer(list) then Bad
            else if k >= Length(list) || !ElementsOf(list)[k].Obj? then End
            else if ElementsOf(list)[k].pairs == [] then Bad
            else Found(ElementsOf(list)[k].pairs[0].key, ElementsOf(list)[k].pairs[0].value)
  {
    IndexPathRoundTrip(k);
  }

  lemma PerformExact(c: Setup, p: Progress, site: Site)
    requires |p.body| <= c.room
    ensures var (q, ok) := Perform(c, p, site);
            var text := TextOf(c, p.sites, [site]);
            && q.sites == p.sites + [site]
            && (ok <==> |p.body| + |text| <= c.room)
            && (ok ==> q.body == p.body + text)
  {
    hide EntryText, EntryOut, CommaOut, ActionsOf, Entries, ItemsText;
    var reply := c.handler(ActionsOf(c.s, p.sites), ActionOf(c.s, site));
    var name := Text(c.s, site.name);
    OneEntry(c, p.sites, site);
    EntryShape(name, reply);
    CommaThenText(c.room, p.body, site.Comma(), EntryText(name, reply));
    EntryExact(c.room, CommaOut(c.room, p.body, site.Comma()), name, reply);
  }

  lemma OneEntry(c: Setup, done: seq<Site>, site: Site)
    ensures var e := Entry(site.Comma(), Text(c.s, site.name), c.handler(ActionsOf(c.s, done), ActionOf(c.s, site)));
            ItemsText(Entries(c, done, [site])) == ItemText(e)
  {
    hide EntryText;
    var e := Entry(site.Comma(), Text(c.s, site.name), c.handler(ActionsOf(c.s, done), ActionOf(c.s, site)));
    assert Entries(c, done, [site]) == [e];
    assert ItemsText([e]) == ItemText(e) + ItemsText([]);
  }

  /** A comma that is passed over takes the rest of the entry with it. */
  lemma CommaThenText(room: nat, body: string, comma: bool, text: string)
    requires |body| <= room && text != ""
    ensures var o := CommaOut(room, body, comma);
            && |o.body| <= room && o.ok
            && (|o.body| + |text| <= room <==> |body| + |(if comma then "," else "") + text| <= room)
            && (|o.body| + |text| <= room ==> o.body + text == body + ((if comma then "," else "") + text))
  {
  }

  /**
   The walk went from `before` to `after` along the listed actions and stopped at the first whose result does not fit:
   without it the texts fit, with it they do not.
   */
  ghost predicate StoppedAt(c: Setup, used: nat, before: seq<Site>, after: seq<Site>, listed: seq<Site>) {
    var n := |after| - |before|;
    && 1 <= n <= |listed| && after == before + listed[..n]
    && used + |TextOf(c, before, listed[..n - 1])| <= c.room
    && c.room < used + |TextOf(c, before, listed[..n])|
  }

  lemma TextConcat(c: Setup, done: seq<Site>, a: seq<Site>, b: seq<Site>)
    ensures TextOf(c, done, a + b) == TextOf(c, done, a) + TextOf(c, done + a, b)
  {
    EntriesSplitAt(c, done, a, b);
    ItemsTextConcat(Entries(c, done, a), Entries(c, done + a, b));
  }

  lemma NoText(c: Setup, done: seq<Site>)
    ensures Entries(c, done, []) == [] && TextOf(c, done, []) == ""
  {
  }

  lemma StoppedEarlier(c: Setup, used: nat, before: seq<Site>, after: seq<Site>, first: seq<Site>, rest: seq<Site>)
    requires StoppedAt(c, used, before, after, first)
    ensures StoppedAt(c, used, before, after, first + rest)
    ensures used + |TextOf(c, before, first + rest)| > c.room
  {
    hide TextOf;
    var n := |after| - |before|;
    assert (first + rest)[..n] == first[..n] && (first + rest)[..n - 1] == first[..n - 1];
    TextConcat(c, before, first[..n], first[n..] + rest);
    assert first[..n] + (first[n..] + rest) == first + rest;
  }

  lemma StoppedLater(c: Setup, used: nat, before: seq<Site>, after: seq<Site>, first: seq<Site>, rest: seq<Site>)
    requires StoppedAt(c, used + |TextOf(c, before, first)|, before + first, after, rest)
    ensures StoppedAt(c, used, before, after, first + rest)
  {
    hide TextOf;
    var n := |after| - |before + first|;
    assert (first + rest)[..|first| + n] == first + rest[..n];
    assert (first + rest)[..|first| + n - 1] == first + rest[..n - 1];
    TextConcat(c, before, first, rest[..n]);
    TextConcat(c, before, first, rest[..n - 1]);
    assert before + first + rest[..n] == before + (first + rest[..n]);
  }

  ghost predicate ActionsDone(c: Setup, p: Progress, q: Progress, stop: Stop, listed: seq<Site>, ends: bool) {
    var text := TextOf(c, p.sites, listed);
    if |p.body| + |text| > c.room
    then StoppedAt(c, |p.body|, p.sites, q.sites, listed) && stop == Overflow(q.sites[|q.sites| - 1])
    else q == Progress(p.sites + listed, p.body + text) && stop == if ends then Finished else BadItem
  }

  /** From any index: which calls are made, what the body becomes, and how the walk of the actions ends. */
  lemma {:induction false} WalkActionsExact(c: Setup, i: nat, alias: Span, list: Option<Tree>, k: nat, p: Progress)
    requires |p.body| <= c.room && k <= Length(list)
    ensures var (q, stop) := WalkActions(c, i, alias, list, k, p);
            ActionsDone(c, p, q, stop, SitesOfActions(i, k, alias, ElementsOf(list)[k..]),
                        IsContainer(list) && EndsWell(ElementsOf(list)[k..]))
    decreases Length(list) - k
  {
    hide Perform, TextOf, ItemAt, StoppedAt;
    ItemIs(list, k);
    var elems := ElementsOf(list)[k..];
    NoText(c, p.sites);
    assert p.body + "" == p.body && p.sites + [] == p.sites;
    if ItemAt(list, k).Found? {
      assert elems[0] == ElementsOf(list)[k] && elems[1..] == ElementsOf(list)[k + 1..];
      var site := SitesOfActions(i, k, alias, elems)[0];
      var (q1, ok) := Perform(c, p, site);
      var rest := SitesOfActions(i, k + 1, alias, elems[1..]);
      assert SitesOfActions(i, k, alias, elems) == [site] + rest;
      PerformExact(c, p, site);
      TextConcat(c, p.sites, [site], rest);
      if ok {
        WalkActionsExact(c, i, alias, list, k + 1, q1);
        var (q, stop) := WalkActions(c, i, alias, list, k + 1, q1);
        GoneOn(c, p, q1, [site], q, rest);
      } else {
        StoppedHere(c, p, site);
        StoppedEarlier(c, |p.body|, p.sites, q1.sites, [site], rest);
      }
    }
  }

  lemma StoppedHere(c: Setup, p: Progress, site: Site)
    requires |p.body| <= c.room < |p.body| + |TextOf(c, p.sites, [site])|
    ensures StoppedAt(c, |p.body|, p.sites, p.sites + [site], [site])
  {
    hide Entries;
    NoText(c, p.sites);
    assert [site][..0] == [] && [site][..1] == [site];
  }

  /** What is done after a first part, as done from the start. */
  lemma GoneOn(c: Setup, p: Progress, q1: Progress, first: seq<Site>, q: Progress, rest: seq<Site>)
    requires q1 == Progress(p.sites + first, p.body + TextOf(c, p.sites, first))
    ensures StoppedAt(c, |q1.body|, q1.sites, q.sites, rest) ==> StoppedAt(c, |p.body|, p.sites, q.sites, first + rest)
    ensures q == Progress(q1.sites + rest, q1.body + TextOf(c, q1.sites, rest)) ==>
              q == Progress(p.sites + (first + rest), p.body + TextOf(c, p.sites, first + rest))
    ensures |q1.body| + |TextOf(c, q1.sites, rest)| == |p.body| + |TextOf(c, p.sites, first + rest)|
  {
    hide TextOf, StoppedAt;
    TextConcat(c, p.sites, first, rest);
    if StoppedAt(c, |q1.body|, q1.sites, q.sites, rest) {
      StoppedLater(c, |p.body|, p.sites, q.sites, first, rest);
    }
    var a, b := TextOf(c, p.sites, first), TextOf(c, q1.sites, rest);
    assert (p.body + a) + b == p.body + (a + b);
    assert (p.sites + first) + rest == p.sites + (first + rest);
  }

  /** How a walk ends that everything fits. */
  function EndOf(trouble: Trouble): Ending {
    match trouble
    case NoTrouble => Completed
    case AtAlias => BadAlias
    case AtAction(alias) => BadAction(alias)
  }

  ghost predicate AliasesDone(c: Setup, p: Progress, q: Progress, ending: Ending, reached: seq<Site>, trouble: Trouble)
  {
    var text := TextOf(c, p.sites, reached);
    if |p.body| + |text| > c.room
    then StoppedAt(c, |p.body|, p.sites, q.sites, reached) && ending == Overflowed(q.sites[|q.sites| - 1])
    else q == Progress(p.sites + reached, p.body + text) && ending == EndOf(trouble)
  }

  /** The same for the aliases: every ending has its condition on the parsed lists, the handler and the room. */
  lemma {:induction false} WalkAliasesExact(c: Setup, list: Option<Tree>, k: nat, p: Progress)
    requires |p.body| <= c.room && k <= Length(list) && IsContainer(list)
    ensures var (q, ending) := WalkAliases(c, list, k, p);
            var (reached, trouble) := Reached(c, k, ElementsOf(list)[k..]);
            AliasesDone(c, p, q, ending, reached, trouble)
    decreases Length(list) - k
  {
    hide TextOf, ItemAt, WalkActions, SitesOfActions, Listing, EndsWell, StoppedAt;
    ItemIs(list, k);
    var elems := ElementsOf(list)[k..];
    NoText(c, p.sites);
    assert p.body + "" == p.body && p.sites + [] == p.sites;
    if ItemAt(list, k).Found? {
      assert elems[0] == ElementsOf(list)[k] && elems[1..] == ElementsOf(list)[k + 1..];
      var pair := elems[0].pairs[0];
      var inner := Listing(c, pair.value);
      var first := SitesOfActions(k, 0, pair.key, ElementsOf(inner));
      var (rest, trouble) := Reached(c, k + 1, elems[1..]);
      assert ElementsOf(inner)[0..] == ElementsOf(inner);
      WalkActionsExact(c, k, pair.key, inner, 0, p);
      var (q1, stop) := WalkActions(c, k, pair.key, inner, 0, p);
      if stop.Finished? {
        WalkAliasesExact(c, list, k + 1, q1);
        var (q, ending) := WalkAliases(c, list, k + 1, q1);
        GoneOn(c, p, q1, first, q, rest);
      } else if stop.Overflow? && ListEnds(inner) {
        StoppedEarlier(c, |p.body|, p.sites, q1.sites, first, rest);
      }
    }
  }

  // ---- Whole messages. ----

  function SetupOf(c: Scene): Setup {
    Setup(c.s, c.limit, c.handler, if c.server.room(c.log).Some? then c.server.room(c.log).value else 0)
  }

  /** The command in the message, when it is one and its results path is accepted. */
  function AcceptedCommand(c: Scene): Option<Command> {
    var command := CommandIn(c.s, Readable(c.s, 0, |c.s|, c.limit));
    if command.Some? && ResultsPathSum(c.appId, c.author.id, Text(c.s, command.value.id)) < PATH_SIZE
    then command else None
  }

  /** The actions of the message that can be reached, in document order. */
  function Listed(c: Scene): seq<Site> {
    match AcceptedCommand(c)
    case None => []
    case Some(command) => ReachedIn(SetupOf(c), command.actions).0
  }

  /** The trouble that a walk of all of them meets. */
  function TroubleOf(c: Scene): Trouble {
    match AcceptedCommand(c)
    case None => NoTrouble
    case Some(command) => ReachedIn(SetupOf(c), command.actions).1
  }

  function ResultEntries(c: Scene): seq<Entry> {
    Entries(SetupOf(c), [], Listed(c))
  }

  /** The command is accepted, its request is started, and the body can be begun. */
  predicate WalkStarts(c: Scene) {
    AcceptedCommand(c).Some? && c.server.room(c.log).Some? && |RESULTS_HEAD| <= c.server.room(c.log).value
  }

  /** The texts of the results fit, the end of the body aside. */
  predicate TextsFit(c: Scene) {
    |RESULTS_HEAD| + |ItemsText(ResultEntries(c))| <= SetupOf(c).room
  }

  /** The results can be sent: a request is started, every list can be walked, and the whole body fits. */
  predicate ResultsSendable(c: Scene) {
    && AcceptedCommand(c).Some? && c.server.room(c.log).Some? && TroubleOf(c).NoTrouble?
    && |BodyText(ResultEntries(c))| <= c.server.room(c.log).value
  }

  function CommandPath(c: Scene): string {
    var command := AcceptedCommand(c);
    if command.Some? then ResultsPath(c.appId, c.author.id, Text(c.s, command.value.id)) else ""
  }

  function CommandStarted(c: Scene): Event {
    Started("PUT", CommandPath(c), "application/json")
  }

  /** The requests for the results of a command. */
  function ResultsRequest(c: Scene): (r: seq<Event>)
    ensures |r| == 2 && r[1].Ran? && r[1].intact
  {
    [CommandStarted(c),
     Ran(CommandPath(c), BodyText(ResultEntries(c)), true, c.server.answer(c.log + [CommandStarted(c)]))]
  }

  /** The requests that sending the state makes: the state goes whole or not at all. */
  function StateEvents(c: Scene, log: seq<Event>): seq<Event> {
    var path := StatePath(c.appId, c.author.id);
    var started := Started("PUT", path, CONTENT_UPDATE_STATE);
    var state := Joined(c.reporter(log + [started]));
    if PATH_SIZE <= |path| then []
    else if c.server.room(log).None? then [StartFailed(path)]
    else if |state| > c.server.room(log).value then [started]
    else [started, Ran(path, state, true, c.server.answer(log + [started]))]
  }

  lemma StateRequest(c: Scene, log: seq<Event>)
    ensures StateLog(c, log) == log + StateEvents(c, log)
  {
    hide StatePath, ChunksOut, Joined;
    if c.server.room(log).Some? {
      var room := c.server.room(log).value;
      var log1 := log + [Started("PUT", StatePath(c.appId, c.author.id), CONTENT_UPDATE_STATE)];
      ChunksExact(room, Out("", true), c.reporter(log1));
      assert "" + Joined(c.reporter(log1)) == Joined(c.reporter(log1));
    }
  }

  /** The requests that a message causes. */
  function Requests(c: Scene): seq<Event> {
    if AcceptedCommand(c).None? then []
    else if c.server.room(c.log).None? then [StartFailed(CommandPath(c))]
    else if !ResultsSendable(c) then [CommandStarted(c)]
    else
      ResultsRequest(c)
      + if ResultsRequest(c)[1].answer.Unreachable? then [] else StateEvents(c, c.log + ResultsRequest(c))
  }

  /** What is left of the message: its terminators stay when a result does not fit or an action cannot be read. */
  function Remains(c: Scene, calls: seq<Site>): string {
    if !WalkStarts(c) then c.s
    else if !TextsFit(c) then (if calls == [] then c.s else DuringCall(c.s, calls[|calls| - 1]))
    else if TroubleOf(c).AtAction? then Terminated(c.s, TroubleOf(c).alias)
    else c.s
  }

  /** Everything that a message does. */
  ghost predicate Lawful(c: Scene, e: Effect) {
    && e.log == c.log + Requests(c)
    && e.message == Remains(c, e.sites)
    && if !WalkStarts(c) then e.sites == []
       else if TextsFit(c) then e.sites == Listed(c)
       else StoppedAt(SetupOf(c), |RESULTS_HEAD|, [], e.sites, Listed(c))
  }

  /** The walk of the aliases in an accepted command, started with the head of the body. */
  lemma WholePass(c: Scene)
    requires WalkStarts(c)
    ensures var (q, ending) := WalkAliases(SetupOf(c), AcceptedCommand(c).value.actions, 0, Progress([], RESULTS_HEAD));
            if TextsFit(c)
            then q == Progress(Listed(c), RESULTS_HEAD + ItemsText(ResultEntries(c))) && ending == EndOf(TroubleOf(c))
            else
              && StoppedAt(SetupOf(c), |RESULTS_HEAD|, [], q.sites, Listed(c))
              && ending == Overflowed(q.sites[|q.sites| - 1])
  {
    hide WalkAliases, StoppedAt, Reached, Entries, ItemsText, AcceptedCommand;
    var actions := AcceptedCommand(c).value.actions;
    var start := Progress([], RESULTS_HEAD);
    if IsContainer(actions) {
      WalkAliasesExact(SetupOf(c), actions, 0, start);
      assert ElementsOf(actions)[0..] == ElementsOf(actions);
      assert [] + Listed(c) == Listed(c);
    } else {
      ItemIs(actions, 0);
      NothingReached(SetupOf(c), actions, start);
      NoText(SetupOf(c), []);
      assert RESULTS_HEAD + "" == RESULTS_HEAD;
    }
  }

  lemma NothingReached(c: Setup, list: Option<Tree>, p: Progress)
    requires ItemAt(list, 0).Bad?
    ensures WalkAliases(c, list, 0, p) == (p, BadAlias)
  {
  }

  /**
   Every message, for every capacity, handler and network. The calls are the actions that can be reached, in document
   order: all of them when their results fit, and otherwise up to the first that does not. The results are run exactly
   when every list can be walked and the complete body fits, and what is run is that body; the state follows exactly
   the results that were answered, whole or not at all. Nothing else is asked of the network.
   */
  lemma MessageTrace(c: Scene)
    ensures Lawful(c, Handle(c))
  {
    hide HandleCommand, Readable, ResultEntries, Listed, TroubleOf, CommandIn, ItemsText, ResultsPath,
         ResultsPathSum, StateEvents, StoppedAt;
    assert c.log + [] == c.log;
    if AcceptedCommand(c).Some? {
      AcceptedTrace(c);
    }
  }

  lemma AcceptedTrace(c: Scene)
    requires AcceptedCommand(c).Some?
    ensures Lawful(c, HandleCommand(c, CommandPath(c), AcceptedCommand(c).value.actions))
  {
    hide WalkAliases, StateLog, AcceptedCommand, ResultEntries, Listed, TroubleOf, ItemsText, CommandPath,
         StateEvents, StoppedAt;
    var path, log1 := CommandPath(c), c.log + [CommandStarted(c)];
    assert "" + RESULTS_HEAD == RESULTS_HEAD;
    assert |BodyText(ResultEntries(c))| == |RESULTS_HEAD| + |ItemsText(ResultEntries(c))| + |RESULTS_TAIL|;
    if WalkStarts(c) {
      WholePass(c);
      StoppedSomewhere(c);
      if ResultsSendable(c) {
        StateRequest(c, c.log + ResultsRequest(c));
        assert log1 + [ResultsRequest(c)[1]] == c.log + ResultsRequest(c);
        assert c.log + (ResultsRequest(c) + StateEvents(c, c.log + ResultsRequest(c)))
            == (c.log + ResultsRequest(c)) + StateEvents(c, c.log + ResultsRequest(c));
      }
    }
  }

  lemma StoppedSomewhere(c: Scene)
    ensures forall q: seq<Site> :: StoppedAt(SetupOf(c), |RESULTS_HEAD|, [], q, Listed(c)) ==> q != []
  {
    hide TextOf;
  }

  // ---- Well-formed commands: every action is listed, once, in order. ----

  /** Every alias is an object that starts with a list, and every action in it an object that is not empty. */
  ghost predicate WellFormed(aliases: seq<Tree>) {
    forall i :: 0 <= i < |aliases| ==>
      && HasPair(aliases[i]) && aliases[i].pairs[0].value.Arr?
      && forall j :: 0 <= j < |aliases[i].pairs[0].value.elems| ==> HasPair(aliases[i].pairs[0].value.elems[j])
  }

  /** One action for every element of the list. */
  function AllActions(i: nat, k: nat, alias: Span, elems: seq<Tree>): seq<Site>
    requires forall j :: 0 <= j < |elems| ==> HasPair(elems[j])
  {
    seq(|elems|, j requires 0 <= j < |elems| && HasPair(elems[j]) =>
      Site(i, k + j, alias, elems[j].pairs[0].key, elems[j].pairs[0].value.Extent()))
  }

  ghost function AllSites(i: nat, aliases: seq<Tree>): seq<Site>
    requires WellFormed(aliases)
    decreases |aliases|
  {
    if aliases == [] then []
    else
      var p := aliases[0].pairs[0];
      assert forall k :: 0 <= k < |aliases[1..]| ==> aliases[1..][k] == aliases[k + 1];
      AllActions(i, 0, p.key, p.value.elems) + AllSites(i + 1, aliases[1..])
  }

  lemma {:induction false} AllActionsListed(i: nat, k: nat, alias: Span, elems: seq<Tree>)
    requires forall j :: 0 <= j < |elems| ==> HasPair(elems[j])
    ensures SitesOfActions(i, k, alias, elems) == AllActions(i, k, alias, elems)
    ensures EndsWell(elems)
    decreases |elems|
  {
    if elems != [] {
      AllActionsListed(i, k + 1, alias, elems[1..]);
      var all, rest := AllActions(i, k, alias, elems), AllActions(i, k + 1, alias, elems[1..]);
      assert forall j :: 1 <= j < |elems| ==> all[j] == rest[j - 1];
      assert all == [all[0]] + rest;
    }
  }

  /** In a well-formed command every element of every list is an action to handle, and nothing stops the walk. */
  lemma {:induction false} WellFormedListed(c: Setup, i: nat, aliases: seq<Tree>)
    requires WellFormed(aliases)
    ensures Reached(c, i, aliases) == (AllSites(i, aliases), NoTrouble)
    decreases |aliases|
  {
    if aliases != [] {
      var p := aliases[0].pairs[0];
      AllActionsListed(i, 0, p.key, p.value.elems);
      assert forall k :: 0 <= k < |aliases[1..]| ==> aliases[1..][k] == aliases[k + 1];
      WellFormedListed(c, i + 1, aliases[1..]);
    }
  }

  /**
   A well-formed command: if the results fit, the calls are made for every element of every list, once, in document
   order, the message is whole again, and the results are sent when the body's end fits too; otherwise the calls go on
   in this order up to the first whose result does not fit.
   */
  lemma WellFormedHandled(c: Scene)
    requires AcceptedCommand(c).Some? && IsContainer(AcceptedCommand(c).value.actions)
    requires WellFormed(ElementsOf(AcceptedCommand(c).value.actions))
    ensures var all, e := AllSites(0, ElementsOf(AcceptedCommand(c).value.actions)), Handle(c);
            && Listed(c) == all
            && (!WalkStarts(c) ==> e.sites == [])
            && (WalkStarts(c) && TextsFit(c) ==> e.sites == all && e.message == c.s)
            && (WalkStarts(c) && !TextsFit(c) ==> StoppedAt(SetupOf(c), |RESULTS_HEAD|, [], e.sites, all))
            && (c.server.room(c.log).Some? && |BodyText(ResultEntries(c))| <= c.server.room(c.log).value ==>
                  c.log + ResultsRequest(c) <= e.log)
  {
    hide Handle, WellFormed, AllSites, Reached, BodyText, ResultEntries, AcceptedCommand, StoppedAt, StateEvents;
    WellFormedListed(SetupOf(c), 0, ElementsOf(AcceptedCommand(c).value.actions));
    MessageTrace(c);
    ResultsFirst(c);
  }

  /** How many elements the lists of the first `i` aliases have. */
  ghost function Before(aliases: seq<Tree>, i: nat): nat
    requires WellFormed(aliases) && i <= |aliases|
    decreases i
  {
    if i == 0 then 0
    else
      WellFormedRest(aliases);
      |aliases[0].pairs[0].value.elems| + Before(aliases[1..], i - 1)
  }

  lemma WellFormedRest(aliases: seq<Tree>)
    requires WellFormed(aliases) && aliases != []
    ensures WellFormed(aliases[1..])
  {
    assert forall k :: 0 <= k < |aliases[1..]| ==> aliases[1..][k] == aliases[k + 1];
  }

  lemma {:induction false} AllSitesAt(i0: nat, aliases: seq<Tree>, i: nat, j: nat)
    requires WellFormed(aliases) && i < |aliases| && j < |aliases[i].pairs[0].value.elems|
    ensures var alias, first := aliases[i].pairs[0], aliases[i].pairs[0].value.elems[j].pairs[0];
            var k := Before(aliases, i) + j;
            && k < |AllSites(i0, aliases)|
            && AllSites(i0, aliases)[k] == Site(i0 + i, j, alias.key, first.key, first.value.Extent())
    decreases i
  {
    WellFormedRest(aliases);
    if i > 0 {
      AllSitesAt(i0 + 1, aliases[1..], i - 1, j);
    }
  }

  lemma {:induction false} AllSitesCount(i0: nat, aliases: seq<Tree>)
    requires WellFormed(aliases)
    ensures |AllSites(i0, aliases)| == Before(aliases, |aliases|)
    decreases |aliases|
  {
    if aliases != [] {
      WellFormedRest(aliases);
      AllSitesCount(i0 + 1, aliases[1..]);
    }
  }

  /**
   In a well-formed command whose results fit, the handler is called as often as there are elements, and the call for
   the j-th element of the i-th list, in its place, is told the text of that alias, of that element's first key, and
   of that key's value.
   */
  lemma CallOf(c: Scene, i: nat, j: nat)
    requires AcceptedCommand(c).Some? && IsContainer(AcceptedCommand(c).value.actions)
    requires var aliases := ElementsOf(AcceptedCommand(c).value.actions);
             WellFormed(aliases) && i < |aliases| && j < |aliases[i].pairs[0].value.elems|
    ensures var aliases, calls := ElementsOf(AcceptedCommand(c).value.actions), ActionsOf(c.s, Handle(c).sites);
            var alias, action := aliases[i].pairs[0], aliases[i].pairs[0].value.elems[j].pairs[0];
            var k := Before(aliases, i) + j;
            WalkStarts(c) && TextsFit(c) ==>
              && |calls| == Before(aliases, |aliases|) && k < |calls|
              && calls[k].alias == Text(c.s, alias.key)
              && calls[k].name == Text(c.s, action.key)
              && calls[k].value == Text(c.s, action.value.Extent())
  {
    hide Handle, AcceptedCommand, WellFormed, AllSites, Before, TextsFit, StoppedAt, Text, ResultEntries,
         BodyText, ResultsRequest, IsContainer, ElementsOf, Listed;
    WellFormedHandled(c);
    var aliases := ElementsOf(AcceptedCommand(c).value.actions);
    AllSitesAt(0, aliases, i, j);
    AllSitesCount(0, aliases);
  }

  lemma ResultsFirst(c: Scene)
    ensures ResultsSendable(c) ==> ResultsRequest(c) <= Requests(c)
  {
    hide AcceptedCommand, BodyText, ResultEntries, StateEvents, TroubleOf;
  }

  // ---- The separators. ----

  lemma {:induction false} ActionIndices(i: nat, k: nat, alias: Span, elems: seq<Tree>, j: nat)
    requires j < |SitesOfActions(i, k, alias, elems)|
    ensures var site := SitesOfActions(i, k, alias, elems)[j];
            site.aliasIndex == i && site.actionIndex == k + j && site.alias == alias
    decreases |elems|
  {
    if j > 0 {
      ActionIndices(i, k + 1, alias, elems[1..], j - 1);
    }
  }

  /** Past the first alias the index test always asks for a comma. */
  lemma {:induction false} LaterAliases(c: Setup, i: nat, elems: seq<Tree>, j: nat)
    requires i > 0 && j < |Reached(c, i, elems).0|
    ensures Reached(c, i, elems).0[j].Comma()
    decreases |elems|
  {
    hide SitesOfActions, EndsWell;
    var p := elems[0].pairs[0];
    var inner := ElementsOf(Listing(c, p.value));
    var first := SitesOfActions(i, 0, p.key, inner);
    if j < |first| {
      ActionIndices(i, 0, p.key, inner, j);
    } else {
      LaterAliases(c, i + 1, elems[1..], j - |first|);
    }
  }

  /** The first alias has an action, or no action is reached. */
  predicate FirstAliasActs(c: Setup, elems: seq<Tree>) {
    Reached(c, 0, elems).0 != [] ==>
      var p := elems[0].pairs[0]; SitesOfActions(0, 0, p.key, ElementsOf(Listing(c, p.value))) != []
  }

  /** The test asks for a comma exactly before the actions that are not the first. */
  ghost predicate CommasRight(sites: seq<Site>) {
    forall j :: 0 <= j < |sites| ==> sites[j].Comma() == (j > 0)
  }

  /** The index test means "not the first entry" exactly when the first alias acts or nothing does. */
  lemma CommaTest(c: Setup, elems: seq<Tree>)
    ensures CommasRight(Reached(c, 0, elems).0) <==> FirstAliasActs(c, elems)
  {
    hide SitesOfActions, EndsWell;
    var sites := Reached(c, 0, elems).0;
    if sites != [] {
      var p := elems[0].pairs[0];
      var inner := ElementsOf(Listing(c, p.value));
      var first := SitesOfActions(0, 0, p.key, inner);
      forall j | 0 <= j < |sites| ensures sites[j].Comma() == (j > 0 || first == []) {
        if j < |first| {
          ActionIndices(0, 0, p.key, inner, j);
        } else {
          LaterAliases(c, 1, elems[1..], j - |first|);
        }
      }
      assert sites[0].Comma() == (first == []);
    }
  }

  lemma {:induction false} EntryAt(c: Setup, done: seq<Site>, todo: seq<Site>, k: nat)
    requires k < |todo|
    ensures |Entries(c, done, todo)| == |todo|
    ensures Entries(c, done, todo)[k] ==
            Entry(todo[k].Comma(), Text(c.s, todo[k].name),
                  c.handler(ActionsOf(c.s, done + todo[..k]), ActionOf(c.s, todo[k])))
    decreases |todo|
  {
    if k == 0 {
      assert done + todo[..0] == done;
      if |todo| > 1 {
        EntryAt(c, done + [todo[0]], todo[1..], 0);
      } else {
        assert todo[1..] == [];
      }
    } else {
      EntryAt(c, done + [todo[0]], todo[1..], k - 1);
      assert done + [todo[0]] + todo[1..][..k - 1] == done + todo[..k];
    }
  }

  lemma {:induction false} MeaningsAt(es: seq<Entry>)
    ensures |Meanings(es)| == |es|
    ensures forall k :: 0 <= k < |es| ==> Meanings(es)[k] == Meaning(es[k])
    decreases |es|
  {
    if es != [] {
      MeaningsAt(es[1..]);
    }
  }

  /** The results mean one entry per listed action, in order: its raw name and the handler's own reply. */
  lemma MeaningOfResults(c: Scene, k: nat)
    requires k < |Listed(c)|
    ensures |Meanings(ResultEntries(c))| == |Listed(c)|
    ensures var reply := ReplyAt(SetupOf(c), Listed(c), k);
            Meanings(ResultEntries(c))[k] ==
            Result(Text(c.s, Listed(c)[k].name), reply.succeeded, if reply.succeeded then None else Some(reply.error))
  {
    hide Listed, Entries, Meanings;
    EntryAt(SetupOf(c), [], Listed(c), k);
    assert [] + Listed(c)[..k] == Listed(c)[..k];
    MeaningsAt(ResultEntries(c));
  }

  // ---- Names are fit to stand between quotes. ----

  lemma {:induction false} ActionNameClean(s: string, lo: nat, hi: nat, limit: nat, list: Option<Tree>,
                                           i: nat, k: nat, alias: Span, j: nat)
    requires Holds(s, lo, hi, limit, list) && k <= Length(list)
    requires j < |SitesOfActions(i, k, alias, ElementsOf(list)[k..])|
    ensures Clean(Text(s, SitesOfActions(i, k, alias, ElementsOf(list)[k..])[j].name))
    decreases Length(list) - k
  {
    hide ItemAt, Clean, Holds, Value, StringEnd;
    var elems := ElementsOf(list)[k..];
    assert elems[0] == ElementsOf(list)[k] && elems[1..] == ElementsOf(list)[k + 1..];
    if j > 0 {
      ActionNameClean(s, lo, hi, limit, list, i, k + 1, alias, j - 1);
    } else {
      ItemIs(list, k);
      KeyClean(s, lo, hi, limit, list, k);
    }
  }

  lemma KeyClean(s: string, lo: nat, hi: nat, limit: nat, list: Option<Tree>, k: nat)
    requires Holds(s, lo, hi, limit, list) && ItemAt(list, k).Found?
    ensures Clean(Text(s, ItemAt(list, k).key))
  {
    hide Clean, Value, StringEnd;
    ItemPlaced(s, lo, hi, limit, list, k);
    var key := ItemAt(list, k).key;
    assert At(s, key.start, Text(s, key));
    StringAtIsClean(s, hi, key.start, Text(s, key));
  }

  lemma {:induction false} NameClean(c: Setup, lo: nat, hi: nat, list: Option<Tree>, k: nat, j: nat)
    requires Holds(c.s, lo, hi, c.limit, list) && k <= Length(list) && IsContainer(list)
    requires j < |Reached(c, k, ElementsOf(list)[k..]).0|
    ensures Clean(Text(c.s, Reached(c, k, ElementsOf(list)[k..]).0[j].name))
    decreases Length(list) - k
  {
    hide ItemAt, Clean, SitesOfActions, Listing, Value, StringEnd, EndsWell;
    var elems := ElementsOf(list)[k..];
    assert elems[0] == ElementsOf(list)[k] && elems[1..] == ElementsOf(list)[k + 1..];
    var p := elems[0].pairs[0];
    var inner := Listing(c, p.value);
    var first := SitesOfActions(k, 0, p.key, ElementsOf(inner));
    if j < |first| {
      ItemIs(list, k);
      ItemPlaced(c.s, lo, hi, c.limit, list, k);
      ListingHolds(c, hi, p.value);
      assert ElementsOf(inner)[0..] == ElementsOf(inner);
      ActionNameClean(c.s, p.value.start, p.value.end, c.limit, inner, k, 0, p.key, j);
    } else {
      NameClean(c, lo, hi, list, k + 1, j - |first|);
    }
  }

  /** The window of the alias list of a command. */
  lemma AliasesHeld(c: Scene) returns (lo: nat, hi: nat)
    requires AcceptedCommand(c).Some?
    ensures Holds(c.s, lo, hi, c.limit, AcceptedCommand(c).value.actions)
  {
    ActionsHold(c.s, c.limit);
    var w := ActionsWindow(AcceptedCommand(c).value.actions);
    lo, hi := w.start, w.end;
  }

  lemma ListedNameClean(c: Scene, k: nat)
    requires k < |Listed(c)|
    ensures Clean(Text(c.s, Listed(c)[k].name))
  {
    hide Reached, AcceptedCommand, Clean, Holds;
    var list := AcceptedCommand(c).value.actions;
    var lo, hi := AliasesHeld(c);
    assert ElementsOf(list)[0..] == ElementsOf(list);
    NameClean(SetupOf(c), lo, hi, list, 0, k);
  }

  /** The names that a command's results repeat are clean, whatever the message. */
  lemma ResultNamesClean(c: Scene)
    ensures CleanNames(ResultEntries(c))
  {
    hide Entries, Listed, Clean;
    var es := ResultEntries(c);
    if Listed(c) == [] {
      NoText(SetupOf(c), []);
    } else {
      EntryAt(SetupOf(c), [], Listed(c), 0);
    }
    forall k | 0 <= k < |es| ensures Clean(es[k].name) {
      EntryAt(SetupOf(c), [], Listed(c), k);
      ListedNameClean(c, k);
    }
  }

  // ---- What the receiver of the results reads. ----

  /** The first alias has an action, or no action is reached. */
  predicate FirstActs(c: Scene) {
    AcceptedCommand(c).Some? && IsContainer(AcceptedCommand(c).value.actions) ==>
      FirstAliasActs(SetupOf(c), ElementsOf(AcceptedCommand(c).value.actions))
  }

  lemma CommasOfResults(c: Scene)
    ensures GoodCommas(ResultEntries(c)) <==> FirstActs(c)
  {
    hide Entries, Reached, AcceptedCommand, FirstAliasActs;
    var es, sites := ResultEntries(c), Listed(c);
    if sites == [] {
      NoText(SetupOf(c), []);
    } else {
      EntryAt(SetupOf(c), [], sites, 0);
    }
    forall k | 0 <= k < |es| ensures es[k].comma == sites[k].Comma() {
      EntryAt(SetupOf(c), [], sites, k);
    }
    if AcceptedCommand(c).Some? && IsContainer(AcceptedCommand(c).value.actions) {
      CommaTest(SetupOf(c), ElementsOf(AcceptedCommand(c).value.actions));
    }
  }

  /**
   Whenever results are sent, the receiver reads in them exactly the list of what was handled if
   and only if the first alias acts, or none does, and the texts of all reported errors are clean.
   */
  lemma ReceiverReadsResults(c: Scene)
    ensures ResultsSendable(c) ==> c.log + ResultsRequest(c) <= Handle(c).log
    ensures var run := ResultsRequest(c)[1];
            Decode(run.body) == Some(Meanings(ResultEntries(c))) <==> FirstActs(c) && CleanErrors(ResultEntries(c))
  {
    hide Handle, ResultEntries, FirstActs, Decode, Meanings, CleanErrors, BodyText, ResultsSendable, Requests;
    MessageTrace(c);
    ResultsFirst(c);
    ResultNamesClean(c);
    BodyReads(ResultEntries(c));
    CommasOfResults(c);
  }

  // ---- When the message is whole again. ----

  lemma {:induction false} OverflowAlias(c: Setup, i: nat, alias: Span, list: Option<Tree>, k: nat, p: Progress)
    ensures var stop := WalkActions(c, i, alias, list, k, p).1; stop.Overflow? ==> stop.site.alias == alias
    decreases Length(list) - k
  {
    hide Perform;
    var item := ItemAt(list, k);
    if item.Found? {
      var (q, ok) := Perform(c, p, Site(i, k, alias, item.key, item.value.Extent()));
      if ok {
        OverflowAlias(c, i, alias, list, k + 1, q);
      }
    }
  }

  /** An ending that leaves a terminator where there was none. */
  ghost predicate Spoils(s: string, ending: Ending) {
    match ending
    case Completed => false
    case BadAlias => false
    case BadAction(alias) => alias.end < |s| && s[alias.end] != NUL
    case Overflowed(site) => site.alias.end < |s| && s[site.alias.end] != NUL
  }

  lemma {:induction false} BadEndingSpoils(c: Setup, lo: nat, hi: nat, list: Option<Tree>, k: nat, p: Progress)
    requires Holds(c.s, lo, hi, c.limit, list)
    ensures var ending := WalkAliases(c, list, k, p).1;
            Spoils(c.s, ending) <==> ending.BadAction? || ending.Overflowed?
    decreases Length(list) - k
  {
    hide WalkActions, ItemAt, Holds, Listing;
    if ItemAt(list, k).Found? {
      var item := ItemAt(list, k);
      ItemPlaced(c.s, lo, hi, c.limit, list, k);
      var inner := Listing(c, item.value);
      OverflowAlias(c, k, item.key, inner, 0, p);
      var (q, stop) := WalkActions(c, k, item.key, inner, 0, p);
      if stop.Finished? {
        BadEndingSpoils(c, lo, hi, list, k + 1, q);
      }
    }
  }

  lemma SpoiledMessage(s: string, ending: Ending)
    requires Spoils(s, ending) <==> ending.BadAction? || ending.Overflowed?
    ensures Aftermath(s, ending) == s <==> !ending.BadAction? && !ending.Overflowed?
  {
    match ending
    case Completed =>
    case BadAlias =>
    case BadAction(alias) => assert Aftermath(s, ending)[alias.end] == NUL;
    case Overflowed(site) => assert Aftermath(s, ending)[site.alias.end] == NUL;
  }

  /**
   The message is byte for byte what was received, exactly unless the walk starts and the texts of the results do not
   fit, or the list of some alias that is reached cannot be walked to its end: then a terminator stays in it.
   */
  lemma MessageRestored(c: Scene)
    ensures Handle(c).message == c.s <==> !(WalkStarts(c) && (!TextsFit(c) || TroubleOf(c).AtAction?))
  {
    hide Handle, WalkAliases, Holds, StoppedAt, AcceptedCommand, Listed, TroubleOf, ResultEntries, ItemsText, Requests;
    MessageTrace(c);
    if WalkStarts(c) {
      WholePass(c);
      StoppedSomewhere(c);
      var lo, hi := AliasesHeld(c);
      var actions := AcceptedCommand(c).value.actions;
      BadEndingSpoils(SetupOf(c), lo, hi, actions, 0, Progress([], RESULTS_HEAD));
      var (q, ending) := WalkAliases(SetupOf(c), actions, 0, Progress([], RESULTS_HEAD));
      SpoiledMessage(c.s, ending);
      StoppedOnce(c, Handle(c).sites, q.sites);
    }
  }

  ghost predicate Stopped(c: Scene, sites: seq<Site>) {
    StoppedAt(SetupOf(c), |RESULTS_HEAD|, [], sites, Listed(c))
  }

  /** There is only one place to stop at. */
  lemma StoppedOnce(c: Scene, a: seq<Site>, b: seq<Site>)
    requires WalkStarts(c)
    ensures Stopped(c, a) && Stopped(c, b) ==> a == b
  {
    hide TextOf, Listed, AcceptedCommand;
    if Stopped(c, a) && Stopped(c, b) {
      if |a| < |b| {
        TextGrows(SetupOf(c), Listed(c), |a|, |b| - 1);
      } else if |b| < |a| {
        TextGrows(SetupOf(c), Listed(c), |b|, |a| - 1);
      }
    }
  }

  lemma TextGrows(c: Setup, sites: seq<Site>, m: nat, n: nat)
    requires m <= n <= |sites|
    ensures |TextOf(c, [], sites[..m])| <= |TextOf(c, [], sites[..n])|
  {
    hide TextOf;
    TextConcat(c, [], sites[..m], sites[m..n]);
    assert sites[..m] + sites[m..n] == sites[..n];
  }
}
