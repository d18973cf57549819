/**
 The command dispatcher as it is written: it walks the two lists by parsing the same buffer again
 for every index, terminates names and values inside that buffer around each handler call, restores
 the bytes, and streams the results into the request body. Every method is proved to do exactly
 what the single pass of module Walk does, for every payload, every handler and every capacity.
 */
module Dispatcher {
  import opened Basics
  import opened Scanner
  import opened ScannerFacts
  import opened Tokens
  import opened Api
  import opened Fields
  import opened Walk
  import opened Placement

  datatype KeyValue = Got(key: Span, value: Span) | Failed | Finish

  /** One parse: the token array is overwritten from its front when the text parses and fits. */
  method Parse(kii: Kii, buffer: array<char>, lo: nat, hi: nat) returns (doc: Option<Tree>)
    requires lo <= hi <= buffer.Length
    modifies kii`tokens
    ensures doc == Readable(buffer[..], lo, hi, |old(kii.tokens)|)
    ensures kii.tokens == if doc.Some? then Overwritten(old(kii.tokens), doc.value, lo) else old(kii.tokens)
  {
    doc := Readable(buffer[..], lo, hi, |kii.tokens|);
    if doc.Some? {
      kii.tokens := Overwritten(kii.tokens, doc.value, lo);
    }
  }

  /** Where a token lies in the buffer, when its text starts at `lo`. */
  function Shifted(t: Token, lo: nat): Span {
    Span(lo + t.start, lo + t.end)
  }

  /** The first tokens after the parse of a value; behind those of an empty object the older ones stay. */
  lemma TokensOfObject(s: string, lo: nat, hi: nat, tokens: seq<Token>, doc: Option<Tree>)
    requires Holds(s, lo, hi, |tokens|, doc) && doc.Some?
    ensures Count(doc.value) <= |tokens|
    ensures var after := Overwritten(tokens, doc.value, lo);
            && |after| > 0 && after[0].kind == doc.value.Kind()
            && (doc.value.Obj? ==>
                  if doc.value.pairs == [] then after[1..] == tokens[1..]
                  else
                    var p := doc.value.pairs[0];
                    && |after| > 2 && after[1].kind == String
                    && Shifted(after[1], lo) == p.key && Shifted(after[2], lo) == p.value.Extent())
  {
    hide Value, Document;
    HeadFirst(doc.value, lo);
    CountIsLength(doc.value, lo);
    if doc.value.Obj? && doc.value.pairs != [] {
      DocumentReads(s, lo, hi);
      ObjectNests(s, hi, doc.value.start);
      ObjectTokens(doc.value, lo);
    } else if doc.value.Obj? {
      assert TokensOf(doc.value, lo) == [Head(doc.value, lo)];
    }
  }

  /**
   The first key and value of the object in the window. For an object without pairs the test of
   the second token reads what an earlier parse left there.
   */
  method KeyAndValueOfObject(kii: Kii, buffer: array<char>, lo: nat, hi: nat) returns (ok: bool, key: Span, value: Span)
    requires lo <= hi <= buffer.Length
    requires |kii.tokens| > 1 && (kii.tokens[1].kind == String ==> |kii.tokens| > 2)
    modifies kii`tokens
    ensures |kii.tokens| == |old(kii.tokens)|
    ensures var doc := Readable(buffer[..], lo, hi, |old(kii.tokens)|);
            if doc.None? || !doc.value.Obj? then !ok
            else if doc.value.pairs == [] then
              && (ok <==> old(kii.tokens)[1].kind == String)
              && (ok ==> key == Shifted(old(kii.tokens)[1], lo) && value == Shifted(old(kii.tokens)[2], lo))
            else ok && key == doc.value.pairs[0].key && value == doc.value.pairs[0].value.Extent()
  {
    hide Readable, Overwritten;
    ok, key, value := false, Span(0, 0), Span(0, 0);
    ghost var before := kii.tokens;
    var doc := Parse(kii, buffer, lo, hi);
    if doc.None? {
      return;
    }
    TokensOfObject(buffer[..], lo, hi, before, doc);
    if kii.tokens[0].kind != Object || kii.tokens[1].kind != String {
      return;
    }
    ok := true;
    key, value := Shifted(kii.tokens[1], lo), Shifted(kii.tokens[2], lo);
  }

  /** What the dispatcher learns about an item of the list. */
  ghost predicate Matches(r: KeyValue, item: Item) {
    match item
    case Found(key, value) => r == Got(key, value.Extent())
    case Bad => r == Failed
    case End => r == Finish
  }

  /** An object without pairs, in a list that starts with a string: the key test reads the list's own tokens. */
  predicate StaleAt(list: Option<Tree>, k: nat) {
    && list.Some? && list.value.Arr? && k < |list.value.elems|
    && list.value.elems[k].Obj? && list.value.elems[k].pairs == [] && list.value.elems[0].Str?
  }

  lemma NotStale(list: Option<Tree>, k: nat)
    requires k == 0 || IsObjectAt(list, 0)
    ensures !StaleAt(list, k)
  {
  }

  /** After the parse of a list: where the object at an index lies, how it parses on its own, and the first tokens. */
  lemma TokensOfList(s: string, lo: nat, hi: nat, tokens: seq<Token>, list: Option<Tree>, k: nat)
    requires Holds(s, lo, hi, |tokens|, list) && IsObjectAt(list, k)
    ensures var es := list.value.elems;
            && es[k].start <= es[k].end <= |s| && Readable(s, es[k].start, es[k].end, |tokens|) == Some(es[k])
            && Count(list.value) <= |tokens|
            && var after := Overwritten(tokens, list.value, lo);
               && |after| > 1 && after[1] == Head(es[0], lo)
               && (es[0].Str? ==> |es| > 1 && |after| > 2 && after[2] == Head(es[1], lo))
  {
    hide Value, Document;
    var es := list.value.elems;
    ObjectPlaced(s, lo, hi, |tokens|, list, k);
    ContainerIsDocument(s, hi, es[k], s);
    ArrayTokens(list.value, lo);
    ArrayPartFits(list.value, k);
    CountIsLength(list.value, lo);
    if es[0].Str? {
      StringThenMore(list.value, lo);
    }
  }

  /**
   The item at an index, by parsing the list again and then the item again. The answer is the single pass's answer,
   except in a list that starts with a string, where an object without pairs is answered with the places of the list's
   first two elements, counted from the object. The dispatcher asks for index 0 first, and never gets past it in
   such a list.
   */
  method KeyAndValueAtIndex(kii: Kii, buffer: array<char>, lo: nat, hi: nat, index: nat) returns (r: KeyValue)
    requires lo <= hi <= buffer.Length
    modifies kii`tokens
    ensures |kii.tokens| == |old(kii.tokens)|
    ensures var list := Readable(buffer[..], lo, hi, |old(kii.tokens)|);
            if StaleAt(list, index) then
              var es := list.value.elems;
              |es| > 1 && r == Got(Shifted(Head(es[0], lo), es[index].start), Shifted(Head(es[1], lo), es[index].start))
            else Matches(r, ItemAt(list, index))
  {
    hide Readable, IndexPath, ReadIndexPath, Overwritten;
    var path := IndexPath(index);
    ghost var before := kii.tokens;
    var list := Parse(kii, buffer, lo, hi);
    IndexPathRoundTrip(index);
    match ObjectAt(list, path) {
      case Error => r := Failed;
      case Partial => r := Finish;
      case Success(item) =>
        TokensOfList(buffer[..], lo, hi, before, list, index);
        var ok, key, value := KeyAndValueOfObject(kii, buffer, item.start, item.end);
        r := if ok then Got(key, value) else Failed;
    }
  }

  method AppendEntry(kii: Kii, name: string, reply: Reply) returns (ok: bool)
    modifies kii`body, kii`intact
    ensures Out(kii.body, ok) == EntryOut(kii.room, Out(old(kii.body), true), name, reply)
    ensures ok ==> kii.intact == old(kii.intact)
    ensures |old(kii.body)| + 2 > kii.room ==> !ok
  {
    hide KeyValueOut;
    ok := kii.Append("{\"");
    if ok { ok := kii.Append(name); }
    if ok { ok := kii.Append("\":{"); }
    if !ok {
      FailedKeyValue(kii.room, Out(kii.body, false), "succeeded",
                     if reply.succeeded then "true" else "false", false, false);
      FailedKeyValue(kii.room, Out(kii.body, false), "errorMessage", reply.error, true, true);
      return;
    }
    ok := kii.AppendBool("succeeded", reply.succeeded, false);
    if !ok {
      FailedKeyValue(kii.room, Out(kii.body, false), "errorMessage", reply.error, true, true);
      return;
    }
    ok := kii.AppendOptional("errorMessage", if reply.succeeded then None else Some(reply.error), true, true);
    if ok { ok := kii.Append("}}"); }
  }

  lemma FailedKeyValue(room: nat, o: Out, key: string, value: string, successor: bool, isString: bool)
    requires !o.ok
    ensures KeyValueOut(room, o, Some(key), Some(value), successor, isString) == o
  {
  }

  /**
   One action: terminate the name and the value, call the handler with the three C strings, append
   the result, restore. When the result does not fit, the terminators stay.
   */
  method PerformAction(kii: Kii, buffer: array<char>, handler: Handler, calls: seq<Action>, site: Site,
                       ghost c: Setup, ghost p: Progress)
    returns (ok: bool, action: Action, ghost seen: string)
    requires Placed(c.s, site) && c.handler == handler && c.room == kii.room
    requires buffer[..] == Terminated(c.s, site.alias)
    requires p.body == kii.body && calls == ActionsOf(c.s, p.sites)
    modifies buffer, kii`body, kii`intact
    ensures action == ActionOf(c.s, site) && seen == DuringCall(c.s, site) && GotStrings(action, seen, site)
    ensures (Progress(p.sites + [site], kii.body), ok) == Perform(c, p, site)
    ensures buffer[..] == if ok then Terminated(c.s, site.alias) else DuringCall(c.s, site)
    ensures ok ==> kii.intact == old(kii.intact)
  {
    hide EntryOut;
    var nameSwap := buffer[site.name.end];
    var valueSwap := buffer[site.value.end];
    buffer[site.name.end] := NUL;
    buffer[site.value.end] := NUL;
    seen := buffer[..];
    assert seen == DuringCall(c.s, site);
    CallSeesTexts(c.s, site);
    action := Action(CString(buffer[..], site.alias.start), CString(buffer[..], site.name.start),
                     CString(buffer[..], site.value.start));
    var reply := handler(calls, action);
    if site.Comma() {
      var _ := kii.Append(",");
    }
    ok := AppendEntry(kii, action.name, reply);
    if !ok {
      return;
    }
    buffer[site.name.end] := nameSwap;
    buffer[site.value.end] := valueSwap;
    assert buffer[..] == Terminated(c.s, site.alias);
  }

  /** What was seen at each call is the message with that call's three terminators. */
  ghost predicate Witnessed(s: string, sites: seq<Site>, seen: seq<string>) {
    |seen| == |sites| && forall k :: 0 <= k < |seen| ==> Placed(s, sites[k]) && seen[k] == DuringCall(s, sites[k])
  }

  /** Each call was told the C strings that stood at its alias, its name and its value when it was made. */
  ghost predicate Told(sites: seq<Site>, seen: seq<string>, calls: seq<Action>) {
    |calls| == |sites| == |seen| && forall k :: 0 <= k < |calls| ==> GotStrings(calls[k], seen[k], sites[k])
  }

  lemma WitnessedTold(s: string, sites: seq<Site>, seen: seq<string>)
    requires Witnessed(s, sites, seen)
    ensures Told(sites, seen, ActionsOf(s, sites))
  {
    hide ActionOf, DuringCall, Placed;
    forall k | 0 <= k < |sites| ensures GotStrings(ActionsOf(s, sites)[k], seen[k], sites[k]) {
      ActionIsStrings(s, sites[k]);
    }
  }

  lemma ActionsOfAppend(s: string, sites: seq<Site>, site: Site)
    ensures ActionsOf(s, sites + [site]) == ActionsOf(s, sites) + [ActionOf(s, site)]
  {
  }

  lemma WitnessedAppend(s: string, sites: seq<Site>, seen: seq<string>, site: Site)
    requires Witnessed(s, sites, seen) && Placed(s, site)
    ensures Witnessed(s, sites + [site], seen + [DuringCall(s, site)])
  {
  }

  /** A found item of an alias's list, together with the alias, is a well placed action. */
  lemma SitePlaced(c: Setup, i: nat, alias: Span, lo: nat, hi: nat, k: nat)
    requires alias.start <= alias.end < lo <= hi <= |c.s| && NoNul(c.s, alias.start, alias.end)
    requires ItemAt(Readable(c.s, lo, hi, c.limit), k).Found?
    ensures var list := Readable(c.s, lo, hi, c.limit);
            var item := ItemAt(list, k);
            && IsObjectAt(list, k) && k < Length(list)
            && Placed(c.s, Site(i, k, alias, item.key, item.value.Extent()))
  {
    ItemPlaced(c.s, lo, hi, c.limit, Readable(c.s, lo, hi, c.limit), k);
  }

  /** The actions of one alias. */
  method DispatchActions(kii: Kii, buffer: array<char>, handler: Handler, aliasIndex: nat, alias: Span,
                         lo: nat, hi: nat, calls: seq<Action>,
                         ghost c: Setup, ghost p: Progress, ghost seen: seq<string>)
    returns (finished: bool, calls': seq<Action>, ghost seen': seq<string>, ghost q: Progress, ghost stop: Stop)
    requires c.handler == handler && c.room == kii.room && c.limit == |kii.tokens|
    requires alias.start <= alias.end < lo <= hi <= |c.s| && alias.end < |c.s| && NoNul(c.s, alias.start, alias.end)
    requires buffer[..] == Terminated(c.s, alias)
    requires p.body == kii.body && calls == ActionsOf(c.s, p.sites) && Witnessed(c.s, p.sites, seen)
    modifies buffer, kii`tokens, kii`body, kii`intact
    ensures |kii.tokens| == |old(kii.tokens)|
    ensures (q, stop) == WalkActions(c, aliasIndex, alias, Readable(c.s, lo, hi, c.limit), 0, p)
    ensures finished == stop.Finished?
    ensures q.body == kii.body && calls' == ActionsOf(c.s, q.sites) && Witnessed(c.s, q.sites, seen')
    ensures buffer[..] == if stop.Overflow? then DuringCall(c.s, stop.site) else Terminated(c.s, alias)
    ensures stop.Overflow? ==> Placed(c.s, stop.site) && stop.site.alias == alias
    ensures finished ==> kii.intact == old(kii.intact)
  {
    hide Perform, ItemAt, Readable, DuringCall, Terminated, ActionsOf, Witnessed, Placed, StaleAt, IsObjectAt;
    ghost var list := Readable(c.s, lo, hi, c.limit);
    WrittenOutside(c.s, alias, lo, hi);
    SameWindow(c.s, buffer[..], lo, hi, c.limit);
    finished, calls', seen', q := false, calls, seen, p;
    var actionIndex := 0;
    while true
      invariant buffer[..] == Terminated(c.s, alias)
      invariant |kii.tokens| == |old(kii.tokens)| && kii.intact == old(kii.intact)
      invariant actionIndex <= Length(list)
      invariant actionIndex > 0 ==> IsObjectAt(list, 0)
      invariant q.body == kii.body && calls' == ActionsOf(c.s, q.sites) && Witnessed(c.s, q.sites, seen')
      invariant WalkActions(c, aliasIndex, alias, list, 0, p) == WalkActions(c, aliasIndex, alias, list, actionIndex, q)
      decreases Length(list) - actionIndex
    {
      NotStale(list, actionIndex);
      var r := KeyAndValueAtIndex(kii, buffer, lo, hi, actionIndex);
      match r {
        case Failed =>
          stop := BadItem;
          return;
        case Finish =>
          finished, stop := true, Finished;
          return;
        case Got(name, value) =>
          SitePlaced(c, aliasIndex, alias, lo, hi, actionIndex);
          var site := Site(aliasIndex, actionIndex, alias, name, value);
          var ok, action;
          ghost var during;
          ok, action, during := PerformAction(kii, buffer, handler, calls', site, c, q);
          ActionsOfAppend(c.s, q.sites, site);
          WitnessedAppend(c.s, q.sites, seen', site);
          calls', seen' := calls' + [action], seen' + [during];
          q := Progress(q.sites + [site], kii.body);
          if !ok {
            stop := Overflow(site);
            return;
          }
          actionIndex := actionIndex + 1;
      }
    }
  }

  /** The aliases, one after the other; the message is whole again before each of them. */
  method DispatchAliases(kii: Kii, buffer: array<char>, handler: Handler, lo: nat, hi: nat,
                         ghost c: Setup, ghost p: Progress)
    returns (finished: bool, calls: seq<Action>, ghost seen: seq<string>, ghost q: Progress, ghost ending: Ending)
    requires c.handler == handler && c.room == kii.room && c.limit == |kii.tokens|
    requires buffer[..] == c.s && lo <= hi <= |c.s|
    requires p == Progress([], kii.body)
    modifies buffer, kii`tokens, kii`body, kii`intact
    ensures |kii.tokens| == |old(kii.tokens)|
    ensures (q, ending) == WalkAliases(c, Readable(c.s, lo, hi, c.limit), 0, p)
    ensures finished == ending.Completed?
    ensures q.body == kii.body && calls == ActionsOf(c.s, q.sites) && Witnessed(c.s, q.sites, seen)
    ensures buffer[..] == Aftermath(c.s, ending)
    ensures finished ==> kii.intact == old(kii.intact)
  {
    hide ItemAt, Readable, DuringCall, ActionsOf, Witnessed, Placed, WalkActions, Terminated, Listing, StaleAt,
         IsObjectAt;
    ghost var list := Readable(c.s, lo, hi, c.limit);
    NothingSeen(c.s);
    finished, calls, seen, q := false, [], [], p;
    var aliasIndex := 0;
    while true
      invariant buffer[..] == c.s
      invariant |kii.tokens| == |old(kii.tokens)| && kii.intact == old(kii.intact)
      invariant aliasIndex <= Length(list)
      invariant aliasIndex > 0 ==> IsObjectAt(list, 0)
      invariant q.body == kii.body && calls == ActionsOf(c.s, q.sites) && Witnessed(c.s, q.sites, seen)
      invariant WalkAliases(c, list, 0, p) == WalkAliases(c, list, aliasIndex, q)
      decreases Length(list) - aliasIndex
    {
      NotStale(list, aliasIndex);
      var r := KeyAndValueAtIndex(kii, buffer, lo, hi, aliasIndex);
      match r {
        case Failed =>
          ending := BadAlias;
          return;
        case Finish =>
          finished, ending := true, Completed;
          return;
        case Got(alias, actions) =>
          AliasPlaced(c, lo, hi, aliasIndex);
          ghost var stop;
          var swap := buffer[alias.end];
          buffer[alias.end] := NUL;
          WrittenInto(c.s, alias, buffer[..]);
          finished, calls, seen, q, stop :=
            DispatchActions(kii, buffer, handler, aliasIndex, alias, actions.start, actions.end, calls, c, q, seen);
          if !finished {
            ending := if stop.Overflow? then Overflowed(stop.site) else BadAction(alias);
            return;
          }
          WrittenBack(c.s, alias, buffer[..]);
          buffer[alias.end] := swap;
          aliasIndex, finished := aliasIndex + 1, false;
      }
    }
  }

  lemma NothingSeen(s: string)
    ensures ActionsOf(s, []) == [] && Witnessed(s, [], [])
  {
  }

  lemma WrittenInto(s: string, p: Span, t: string)
    requires p.end < |s| && t == s[p.end := NUL]
    ensures t == Terminated(s, p)
  {
  }

  lemma WrittenBack(s: string, p: Span, t: string)
    requires p.end < |s| && t == Terminated(s, p)
    ensures |t| == |s| && t[p.end := s[p.end]] == s
  {
    assert t[p.end := s[p.end]] == s;
  }

  lemma AliasPlaced(c: Setup, lo: nat, hi: nat, k: nat)
    requires lo <= hi <= |c.s| && ItemAt(Readable(c.s, lo, hi, c.limit), k).Found?
    ensures var list := Readable(c.s, lo, hi, c.limit);
            var item := ItemAt(list, k);
            && IsObjectAt(list, k) && k < Length(list)
            && item.key.start <= item.key.end < item.value.start <= item.value.end <= |c.s| && item.key.end < |c.s|
            && NoNul(c.s, item.key.start, item.key.end)
            && Listing(c, item.value) == Readable(c.s, item.value.start, item.value.end, c.limit)
  {
    var list := Readable(c.s, lo, hi, c.limit);
    ItemPlaced(c.s, lo, hi, c.limit, list, k);
    ListingHolds(c, hi, ItemAt(list, k).value);
  }

  /** Sends the state after a command; nothing is run unless every chunk was appended. */
  method SendState(kii: Kii, reporter: seq<Event> -> seq<string>, ghost c: Scene) returns (ok: bool)
    requires c.appId == kii.appId && c.author == kii.author && c.server == kii.server && c.reporter == reporter
    modifies kii`path, kii`body, kii`room, kii`intact, kii`log, kii`responseStatus, kii`responseBody
    ensures kii.log == StateLog(c, old(kii.log))
    ensures ok <==> |kii.log| == |old(kii.log)| + 2 && kii.log[|kii.log| - 1].answer.Response?
  {
    var path := StatePath(kii.appId, kii.author.id);
    if PATH_SIZE <= |path| {
      return false;
    }
    ok := kii.Start("PUT", path, CONTENT_UPDATE_STATE);
    if ok { ok := kii.WriteChunks(reporter(kii.log)); }
    if ok { ok := kii.Run(); }
  }

  /** Where the list of aliases stands: the window of the array, or the empty window at 0. */
  function ActionsWindow(actions: Option<Tree>): Span {
    if actions.Some? then actions.value.Extent() else Span(0, 0)
  }

  /** From an accepted command to the requests that it causes: the results, and the state after them. */
  method HandleActions(kii: Kii, buffer: array<char>, handler: Handler, reporter: seq<Event> -> seq<string>,
                       path: string, window: Span, ghost actions: Option<Tree>, ghost c: Scene)
    returns (calls: seq<Action>, ghost sites: seq<Site>, ghost seen: seq<string>)
    requires c == Scene(buffer[..], |kii.tokens|, kii.appId, kii.author, kii.server, handler, reporter, kii.log)
    requires Holds(c.s, window.start, window.end, c.limit, actions)
    modifies buffer, kii`tokens, kii`path, kii`body, kii`room, kii`intact, kii`log, kii`responseStatus, kii`responseBody
    ensures |kii.tokens| == |old(kii.tokens)|
    ensures Effect(kii.log, sites, buffer[..]) == HandleCommand(c, path, actions)
    ensures calls == ActionsOf(c.s, sites) && Witnessed(c.s, sites, seen)
  {
    hide Readable, StateLog, Witnessed, ActionsOf, WalkAliases, DuringCall, Terminated;
    NothingSeen(c.s);
    calls, sites, seen := [], [], [];
    var ok := kii.Start("PUT", path, "application/json");
    if ok { ok := kii.Append(RESULTS_HEAD); }
    if !ok {
      return;
    }
    ghost var q, ending;
    ok, calls, seen, q, ending :=
      DispatchAliases(kii, buffer, handler, window.start, window.end,
                      Setup(c.s, c.limit, handler, kii.room), Progress([], kii.body));
    sites := q.sites;
    if ok { ok := kii.Append(RESULTS_TAIL); }
    if ok { ok := kii.Run(); }
    if ok { ok := SendState(kii, reporter, c); }
  }

  /** A command message, from its bytes to the requests that it causes. */
  method HandleMessage(kii: Kii, buffer: array<char>, handler: Handler, reporter: seq<Event> -> seq<string>)
    returns (calls: seq<Action>, ghost sites: seq<Site>, ghost seen: seq<string>)
    modifies buffer, kii`tokens, kii`path, kii`body, kii`room, kii`intact, kii`log, kii`responseStatus, kii`responseBody
    ensures |kii.tokens| == |old(kii.tokens)|
    ensures Effect(kii.log, sites, buffer[..]) ==
            Handle(Scene(old(buffer[..]), |old(kii.tokens)|, kii.appId, kii.author, kii.server, handler, reporter,
                old(kii.log)))
    ensures calls == ActionsOf(old(buffer[..]), sites)
    ensures Witnessed(old(buffer[..]), sites, seen) && Told(sites, seen, calls)
  {
    hide Told, Readable, Witnessed, ActionsOf, HandleCommand, ResultsPath, CommandIn, ResultsPathSum;
    ghost var c := Scene(buffer[..], |kii.tokens|, kii.appId, kii.author, kii.server, handler, reporter, kii.log);
    NothingSeen(c.s);
    WitnessedTold(c.s, [], []);
    calls, sites, seen := [], [], [];
    var doc := Parse(kii, buffer, 0, buffer.Length);
    var command := CommandIn(buffer[..], doc);
    if command.None? {
      return;
    }
    var id := Text(buffer[..], command.value.id);
    if PATH_SIZE <= ResultsPathSum(kii.appId, kii.author.id, id) {
      return;
    }
    ActionsHold(c.s, c.limit);
    calls, sites, seen := HandleActions(kii, buffer, handler, reporter, ResultsPath(kii.appId, kii.author.id, id),
                                        ActionsWindow(command.value.actions), command.value.actions, c);
    WitnessedTold(c.s, sites, seen);
  }

  /** A push message: when a custom handler takes it, nothing else happens. */
  method ReceivedCallback(kii: Kii, buffer: array<char>, custom: Option<string -> bool>, handler: Handler,
                          reporter: seq<Event> -> seq<string>)
    returns (calls: seq<Action>, ghost sites: seq<Site>, ghost seen: seq<string>)
    modifies buffer, kii`tokens, kii`path, kii`body, kii`room, kii`intact, kii`log, kii`responseStatus, kii`responseBody
    ensures Effect(kii.log, sites, buffer[..]) ==
            if custom.Some? && custom.value(old(buffer[..])) then Effect(old(kii.log), [], old(buffer[..]))
            else Handle(Scene(old(buffer[..]), |old(kii.tokens)|, kii.appId, kii.author, kii.server, handler,
                reporter, old(kii.log)))
    ensures calls == ActionsOf(old(buffer[..]), sites)
    ensures Witnessed(old(buffer[..]), sites, seen) && Told(sites, seen, calls)
  {
    hide Handle, ActionsOf, Witnessed, Told;
    NothingSeen(buffer[..]);
    WitnessedTold(buffer[..], [], []);
    calls, sites, seen := [], [], [];
    var skip := false;
    if custom.Some? {
      skip := custom.value(buffer[..]);
    }
    if !skip {
      calls, sites, seen := HandleMessage(kii, buffer, handler, reporter);
    }
  }

  lemma ActionsHold(s: string, limit: nat)
    requires CommandIn(s, Readable(s, 0, |s|, limit)).Some?
    ensures var command := CommandIn(s, Readable(s, 0, |s|, limit)).value;
            var w := ActionsWindow(command.actions);
            Holds(s, w.start, w.end, limit, command.actions)
  {
    var doc := Readable(s, 0, |s|, limit).value;
    var command := CommandIn(s, Some(doc)).value;
    if command.actions.Some? {
      DocumentReads(s, 0, |s|);
      ObjectNests(s, |s|, doc.start);
      FindReads(s, |s|, doc.pairs, "actions");
      ContainerIsDocument(s, |s|, command.actions.value, s);
      FoundFits(s, doc, "actions");
    }
  }

  lemma {:induction false} FindReads(s: string, hi: nat, pairs: seq<Pair>, name: string)
    requires forall k :: 0 <= k < |pairs| ==> PairReads(s, hi, pairs[k])
    requires Find(s, pairs, name).Some?
    ensures Reads(s, hi, Find(s, pairs, name).value)
  {
    MemberExtent(s, hi, pairs[0].key.start - 1);
    if Text(s, pairs[0].key) != name {
      FindReads(s, hi, pairs[1..], name);
    }
  }

  lemma {:induction false} PairFits(s: string, pairs: seq<Pair>, name: string)
    requires Find(s, pairs, name).Some?
    ensures Count(Find(s, pairs, name).value) <= |PairTokens(pairs, 0)|
    decreases pairs
  {
    if Text(s, pairs[0].key) != name {
      PairFits(s, pairs[1..], name);
    }
  }

  lemma FoundFits(s: string, doc: Tree, name: string)
    requires doc.Obj? && Find(s, doc.pairs, name).Some?
    ensures Count(Find(s, doc.pairs, name).value) <= Count(doc)
  {
    PairFits(s, doc.pairs, name);
  }
}
