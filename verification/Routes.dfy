/**
 Where requests go: a server's reading of their paths, part by part, and the requests of the SDK as the server
 reads them.
 */
module Routes {
  import opened Basics
  import opened Scanner
  import opened ScannerFacts
  import opened Api
  import opened Fields
  import opened Walk
  import opened Placement
  import opened Tokens
  import opened Dispatcher
  import opened CommandFacts
  import opened Bodies
  import opened Lifecycle

  /** The text before the next slash. */
  function UpToSlash(s: string): string {
    if s == "" || s[0] == '/' then "" else [s[0]] + UpToSlash(s[1..])
  }

  /** A path that starts with `prefix`: the part after it, up to the next slash, and the rest. */
  function PartAfter(path: string, prefix: string): Option<(string, string)> {
    if prefix <= path then
      var part := UpToSlash(path[|prefix|..]);
      if |prefix| + |part| <= |path| then Some((part, path[|prefix| + |part|..])) else None
    else None
  }

  /** The application, the thing and what is asked of it, in the paths of the thing-if interface. */
  datatype Route = Route(app: string, thing: string, rest: string)

  function ReadRoute(path: string, kind: string): Option<Route> {
    var a := PartAfter(path, "thing-if/apps/");
    if a.None? then None
    else
      var t := PartAfter(a.value.1, kind);
      if t.None? then None else Some(Route(a.value.0, t.value.0, t.value.1))
  }

  /** The command in what is asked of a thing. */
  function ReadCommandId(rest: string): Option<string> {
    var head, tail := "/commands/", "/action-results";
    if head <= rest && |head| + |tail| <= |rest| && rest[|rest| - |tail|..] == tail
    then Some(rest[|head|..|rest| - |tail|]) else None
  }

  lemma {:induction false} UpToSlashReads(part: string, rest: string)
    requires '/' !in part && (rest == "" || rest[0] == '/')
    ensures UpToSlash(part + rest) == part
  {
    if part == "" {
      assert part + rest == rest;
    } else {
      assert (part + rest)[1..] == part[1..] + rest;
      UpToSlashReads(part[1..], rest);
    }
  }

  lemma PartReads(prefix: string, part: string, rest: string)
    requires '/' !in part && (rest == "" || rest[0] == '/')
    ensures PartAfter(prefix + (part + rest), prefix) == Some((part, rest))
  {
    var path := prefix + (part + rest);
    assert path[|prefix|..] == part + rest;
    UpToSlashReads(part, rest);
    assert path[|prefix| + |part|..] == rest;
  }

  lemma RouteReads(kind: string, app: string, thing: string, rest: string)
    requires '/' !in app && '/' !in thing && kind != "" && kind[0] == '/' && (rest == "" || rest[0] == '/')
    ensures ReadRoute("thing-if/apps/" + app + kind + thing + rest, kind) == Some(Route(app, thing, rest))
  {
    hide PartAfter;
    var tail := kind + (thing + rest);
    assert "thing-if/apps/" + app + kind + thing + rest == "thing-if/apps/" + (app + tail);
    PartReads("thing-if/apps/", app, tail);
    PartReads(kind, thing, rest);
  }

  // ---- The state. ----

  /** The state goes to the states of the thing, in the application. */
  lemma StateRoute(appId: string, authorId: string)
    requires '/' !in appId && '/' !in authorId
    ensures ReadRoute(StatePath(appId, authorId), "/targets/thing:") == Some(Route(appId, authorId, "/states"))
  {
    hide ReadRoute;
    RouteReads("/targets/thing:", appId, authorId, "/states");
  }

  /** A request, as it is started. */
  ghost predicate Asks(e: Event, verb: string, path: string, contentType: string) {
    e == Started(verb, path, contentType) || e == StartFailed(path)
  }

  /** Sending the state: nothing for a path of 256 characters or more, and else one request to the thing's states. */
  lemma StateGoesToThing(c: Scene, log: seq<Event>)
    ensures var events, path := StateEvents(c, log), StatePath(c.appId, c.author.id);
            && (events == [] <==> 256 <= |path|)
            && (events != [] ==> Asks(events[0], "PUT", path, "application/vnd.kii.MultipleTraitState+json"))
            && (|events| > 1 ==> events[1].Ran? && events[1].path == path)
            && |events| <= 2
  {
    hide StatePath, Joined;
  }

  // ---- The results. ----

  /** The results go to the command of the thing, in the application. */
  lemma ResultsRoute(appId: string, authorId: string, command: string)
    requires '/' !in appId && '/' !in authorId
    ensures var rest := "/commands/" + command + "/action-results";
            && ReadRoute(ResultsPath(appId, authorId, command), "/targets/thing:") == Some(Route(appId, authorId, rest))
            && ReadCommandId(rest) == Some(command)
  {
    hide ReadRoute;
    var rest := "/commands/" + command + "/action-results";
    RouteReads("/targets/thing:", appId, authorId, rest);
    assert ResultsPath(appId, authorId, command) == "thing-if/apps/" + appId + "/targets/thing:" + authorId + rest;
    assert rest[|rest| - 15..] == "/action-results";
  }

  /** The value of a string field of the message, from its opening quote to its closing one. */
  ghost predicate IsQuoted(s: string, p: Span) {
    && 0 < p.start <= p.end < |s| && s[p.start - 1] == '"' && s[p.end] == '"'
    && StringEnd(s, |s|, p.start) == Some(p.end)
  }

  /** A field of a message that parses as an object. */
  function FieldOfMessage(c: Scene, name: string): Option<Tree> {
    FindIn(c.s, Readable(c.s, 0, |c.s|, c.limit), name)
  }

  /**
   A message is accepted exactly when it is an object with a string `commandID` whose results path has no more than 256
   characters; the identifier in that path is the whole text between the quotes, and the actions are the array
   `actions`, if there is one.
   */
  lemma CommandAcceptedExactly(c: Scene)
    ensures var id, actions := FieldOfMessage(c, "commandID"), FieldOfMessage(c, "actions");
            && (AcceptedCommand(c).Some? <==>
                  id.Some? && id.value.Str?
                  && |ResultsPath(c.appId, c.author.id, Text(c.s, id.value.Extent()))| <= 256)
            && (AcceptedCommand(c).Some? ==>
                  && IsQuoted(c.s, id.value.Extent())
                  && CommandPath(c) == ResultsPath(c.appId, c.author.id, Text(c.s, id.value.Extent()))
                  && AcceptedCommand(c).value.actions == if actions.Some? && actions.value.Arr? then actions else None)
  {
    hide Value, Readable, StringEnd;
    var doc := Readable(c.s, 0, |c.s|, c.limit);
    var id := FieldOfMessage(c, "commandID");
    if id.Some? && id.value.Str? {
      FieldQuoted(c.s, c.limit, "commandID");
    }
  }

  lemma QuotedWhenRead(s: string, v: Tree)
    requires v.Str? && Reads(s, |s|, v)
    ensures IsQuoted(s, v.Extent())
  {
    hide Value, StringEnd;
    ReadOrdered(s, v);
    ValueLonger(s, v.start - 1);
    ValueStep(s, |s|, v.start - 1);
  }

  lemma ValueLonger(s: string, i: nat)
    requires i <= |s| && Value(s, |s|, i).Ok?
    ensures i < |s|
    ensures Value(s, |s|, i).v.Str? ==> s[i] == '"'
  {
  }

  lemma FieldQuoted(s: string, limit: nat, name: string)
    requires var field := FindIn(s, Readable(s, 0, |s|, limit), name); field.Some? && field.value.Str?
    ensures IsQuoted(s, FindIn(s, Readable(s, 0, |s|, limit), name).value.Extent())
  {
    hide Value, Document, StringEnd, IsQuoted, Reads, Find, Count;
    var doc := Readable(s, 0, |s|, limit).value;
    FieldRead(s, doc, name);
    QuotedWhenRead(s, Find(s, doc.pairs, name).value);
  }

  lemma FieldRead(s: string, doc: Tree, name: string)
    requires Document(s, 0, |s|) == Some(doc) && doc.Obj? && Find(s, doc.pairs, name).Some?
    ensures Reads(s, |s|, Find(s, doc.pairs, name).value)
  {
    hide Value, Document, Find;
    DocumentReads(s, 0, |s|);
    ReadContainer(s, doc);
    ObjectNests(s, |s|, doc.start);
    FindReads(s, |s|, doc.pairs, name);
  }

  lemma ReadContainer(s: string, v: Tree)
    requires Reads(s, |s|, v) && v.Obj?
    ensures 0 <= v.start <= |s| && Value(s, |s|, v.start) == Ok(v, v.end)
  {
  }

  lemma ReadOrdered(s: string, v: Tree)
    requires Reads(s, |s|, v)
    ensures v.start <= v.end
  {
    hide Value;
  }

  /** Every request for results is a PUT of JSON to that path. */
  lemma ResultsGoToCommand(c: Scene)
    ensures var events := Requests(c);
            && (events != [] ==> Asks(events[0], "PUT", CommandPath(c), "application/json"))
            && (events == [] <==> AcceptedCommand(c).None?)
            && (|events| > 1 ==> events[1].Ran? && events[1].path == CommandPath(c))
  {
    hide AcceptedCommand, ResultEntries, CommandPath, StateEvents, TroubleOf;
  }

  // ---- The requests of the instance. ----

  /** The token is asked for in the application, under a path of less than 64 characters or not at all. */
  lemma TokenRoute(o: Onboarding)
    ensures var first, path := o.TokenSession(), "api/apps/" + o.appId + "/oauth2/token";
            && (first == [] <==> 64 <= |path|)
            && (first != [] ==> Asks(first[0], "POST", path, "application/json"))
            && (|first| == 2 ==> first[1].Ran? && first[1].path == path)
            && ('/' !in o.appId ==> PartAfter(path, "api/apps/") == Some((o.appId, "/oauth2/token")))
  {
    hide ObjectText, CredentialFields, PartAfter;
    if '/' !in o.appId {
      PartReads("api/apps/", o.appId, "/oauth2/token");
      assert "api/apps/" + o.appId + "/oauth2/token" == "api/apps/" + (o.appId + "/oauth2/token");
    }
  }

  /** The thing is onboarded in the application, under a path of less than 64 characters or not at all. */
  lemma OnboardRoute(o: Onboarding, second: seq<Event>)
    requires o.IsSecond(second)
    ensures var path := "thing-if/apps/" + o.appId + "/onboardings";
            && (second == [] <==> !o.TokenArrives() || 64 <= |path|)
            && (second != [] ==> Asks(second[0], "POST", path, o.contentType))
            && ('/' !in o.appId ==> PartAfter(path, "thing-if/apps/") == Some((o.appId, "/onboardings")))
  {
    hide ReadText, ObjectText, PartAfter;
    if '/' !in o.appId {
      PartReads("thing-if/apps/", o.appId, "/onboardings");
      assert "thing-if/apps/" + o.appId + "/onboardings" == "thing-if/apps/" + (o.appId + "/onboardings");
    }
  }

  /** A property is read and written in the thing, in the application. */
  lemma PropertyRoute(appId: string, thingId: string, part: string)
    requires '/' !in appId && '/' !in thingId && part != "" && part[0] == '/'
    ensures ReadRoute(PropertyPath(appId, thingId, part), "/things/") == Some(Route(appId, thingId, part))
  {
    hide ReadRoute;
    RouteReads("/things/", appId, thingId, part);
  }
}
