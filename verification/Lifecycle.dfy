/**
 The life of an SDK instance: initialisation, onboarding, start and the thing's own requests, with
 the credentials that are kept twice, once for the command handler and once for the state updater.
 */
module Lifecycle {
  import opened Basics
  import opened Scanner
  import opened Tokens
  import opened Api
  import opened Fields
  import opened Walk
  import opened Printing
  import opened Bodies

  datatype State = Initialized | Onboarded | AlreadyStarted

  /** The sizes of the two credential buffers, terminators included; the library fixes them. */
  datatype Sizes = Sizes(id: nat, token: nat)

  const APP_PATH := "api/apps/"
  const OAUTH_PATH := "/oauth2/token"
  const ONBOARDING_PATH := "/onboardings"
  const THINGS_PART := "/things/"
  const SHORT_PATH_SIZE: nat := 64
  const THING_PATH_SIZE: nat := 128

  /** The text of a string field, when the document has it and it fits a buffer of this size. */
  function ReadText(body: string, name: string, size: nat, limit: nat): Option<string> {
    var field := FindIn(body, Readable(body, 0, |body|, limit), name);
    if field.Some? && field.value.Str? && |Text(body, field.value.Extent())| < size
    then Some(Text(body, field.value.Extent())) else None
  }

  // ---- The instance as a value, and what each call does to it. ----

  datatype Sdk = Sdk(state: State, command: Author, updater: Author, tasks: nat)

  /** What an onboarding attempt obtained: an anonymous token, then an identifier and a token. */
  datatype Attempt = Attempt(anonymous: Option<string>, id: Option<string>, token: Option<string>) {
    predicate Completed() {
      anonymous.Some? && id.Some? && token.Some?
    }
  }

  /** Each field that arrives is written at once; the token field holds the anonymous token meanwhile. */
  function Written(author: Author, a: Attempt): Author {
    if a.anonymous.None? then author
    else
      Author(if a.id.Some? then a.id.value else author.id,
             if a.token.Some? then a.token.value else a.anonymous.value)
  }

  datatype Call =
    | Init(ready: bool)
    | InitOnboarded(ready: bool, author: Author)
    | Onboard(attempt: Attempt)
    | Start(subscribed: bool)
    | Request

  const NO_AUTHOR := Author("", "")

  predicate Fits(sizes: Sizes, author: Author) {
    |author.id| < sizes.id && |author.token| < sizes.token
  }

  function Next(sizes: Sizes, s: Sdk, call: Call): Sdk {
    match call
    case Init(_) => Sdk(Initialized, NO_AUTHOR, NO_AUTHOR, s.tasks)
    case InitOnboarded(ready, author) =>
      if ready && Fits(sizes, author) then Sdk(Onboarded, author, author, s.tasks)
      else Sdk(Initialized, NO_AUTHOR, NO_AUTHOR, s.tasks)
    case Onboard(a) =>
      if s.state.AlreadyStarted? then s
      else
        var author := Written(s.command, a);
        if a.Completed() && Fits(sizes, author) then s.(state := Onboarded, command := author, updater := author)
        else s.(command := author)
    case Start(subscribed) =>
      if s.state.Onboarded? && subscribed then s.(tasks := s.tasks + 1) else s
    case Request => s
  }

  // ---- Sessions. ----

  /**
   The events of a session that is given up as soon as a step fails: nothing when the path is too long for its buffer;
   a run exactly when the start left room for the whole body.
   */
  function Session(server: Server, log: seq<Event>, verb: string, path: string, size: nat, contentType: string,
                   body: Option<string>): (r: seq<Event>)
  {
    if size <= |path| then []
    else
      match server.room(log)
      case None => [StartFailed(path)]
      case Some(room) =>
        var started := Started(verb, path, contentType);
        if body.Some? && |body.value| <= room
        then [started, Ran(path, body.value, true, server.answer(log + [started]))] else [started]
  }

  /** The events of any session: a start, and at most one run, intact exactly when the start succeeded. */
  ghost predicate IsSession(e: seq<Event>) {
    || e == []
    || (|e| == 1 && (e[0].Started? || e[0].StartFailed?))
    || (|e| == 2 && e[1].Ran? && (e[0].Started? || e[0].StartFailed?) && (e[1].intact <==> e[0].Started?))
  }

  /** Nothing but a started and complete request is run. */
  ghost predicate IsStrictSession(e: seq<Event>) {
    IsSession(e) && (|e| == 2 ==> e[0].Started?)
  }

  lemma SessionIsStrict(server: Server, log: seq<Event>, verb: string, path: string, size: nat, contentType: string,
                        body: Option<string>)
    ensures var e := Session(server, log, verb, path, size, contentType, body);
            && IsStrictSession(e)
            && (|e| == 2 <==>
                  && |path| < size && server.room(log).Some?
                  && body.Some? && |body.value| <= server.room(log).value)
            && (e == [] <==> size <= |path|)
            && (e != [] ==>
                  e[0] == if server.room(log).Some? then Started(verb, path, contentType) else StartFailed(path))
            && (|e| == 2 ==> Some(e[1].body) == body && e[1] == Ran(path, e[1].body, true, server.answer(log + [e[0]])))
  {
  }

  /** A run that was answered with a status in a range. */
  predicate WasAnswered(e: Event, low: int, high: int) {
    e.Ran? && e.answer.Response? && low <= e.answer.status <= high
  }

  /** The text that a session brought back: it was run, answered with success, and the field was readable. */
  function SessionText(e: seq<Event>, name: string, size: nat, limit: nat): Option<string> {
    if |e| == 2 && e[1].Ran? && e[1].answer.Succeeded() then ReadText(e[1].answer.body, name, size, limit) else None
  }

  /** An answer brings a text exactly when its status is from 200 to 299 and its body has the field and fits. */
  lemma SessionTextExact(e: seq<Event>, name: string, size: nat, limit: nat)
    ensures SessionText(e, name, size, limit) ==
            if |e| == 2 && WasAnswered(e[1], 200, 299) then ReadText(e[1].answer.body, name, size, limit) else None
  {
  }

  /** Runs the session; success is a status between 200 and 299. */
  method ExecuteSession(kii: Kii) returns (ok: bool)
    modifies kii`body, kii`intact, kii`responseStatus, kii`responseBody, kii`log
    ensures var answer := kii.server.answer(old(kii.log));
            && kii.log == old(kii.log) + [Ran(kii.path, old(kii.body), old(kii.intact), answer)]
            && |kii.body| == |old(kii.body)|
            && (ok <==> answer.Response? && 200 <= answer.status < 300)
            && (ok ==> kii.responseBody == answer.body)
  {
    ok := kii.Run();
    ok := ok && 200 <= kii.responseStatus < 300;
  }

  // ---- The anonymous token. ----

  /** What the request for an anonymous token says. */
  function CredentialFields(appId: string, appKey: string): seq<Field> {
    [Field("grant_type", "client_credentials", true), Field("client_id", appId, true),
        Field("client_secret", appKey, true)]
  }

  function CredentialsOut(room: nat, o: Out, appId: string, appKey: string): Out {
    var o1 := Put(room, o, "{");
    var o2 := KeyValueOut(room, o1, Some("grant_type"), Some("client_credentials"), false, true);
    var o3 := KeyValueOut(room, o2, Some("client_id"), Some(appId), true, true);
    var o4 := KeyValueOut(room, o3, Some("client_secret"), Some(appKey), true, true);
    Put(room, o4, "}")
  }

  lemma CredentialsExact(room: nat, appId: string, appKey: string)
    ensures Exact(room, Out("", true), CredentialsOut(room, Out("", true), appId, appKey),
              ObjectText(CredentialFields(appId, appKey)))
  {
    hide KeyValueOut, KeyValueText, FieldText;
    var o := Out("", true);
    var o1 := Put(room, o, "{");
    var o2 := KeyValueOut(room, o1, Some("grant_type"), Some("client_credentials"), false, true);
    var o3 := KeyValueOut(room, o2, Some("client_id"), Some(appId), true, true);
    var o4 := KeyValueOut(room, o3, Some("client_secret"), Some(appKey), true, true);
    var a, b, c := KeyValueText("grant_type", "client_credentials", false, true),
                   KeyValueText("client_id", appId, true, true), KeyValueText("client_secret", appKey, true, true);
    KeyValueExact(room, o1, "grant_type", "client_credentials", false, true);
    KeyValueExact(room, o2, "client_id", appId, true, true);
    KeyValueExact(room, o3, "client_secret", appKey, true, true);
    ExactThen(room, o, o1, "{", o2, a);
    ExactThen(room, o, o2, "{" + a, o3, b);
    ExactThen(room, o, o3, "{" + a + b, o4, c);
    ExactThen(room, o, o4, "{" + a + b + c, Put(room, o4, "}"), "}");
    CredentialsText(appId, appKey);
  }

  lemma CredentialsText(appId: string, appKey: string)
    ensures ObjectText(CredentialFields(appId, appKey)) ==
            "{" + KeyValueText("grant_type", "client_credentials", false, true)
            + KeyValueText("client_id", appId, true, true) + KeyValueText("client_secret", appKey, true, true) + "}"
  {
    hide KeyValueText, FieldText;
    var fs := CredentialFields(appId, appKey);
    FieldIsKeyValue("grant_type", "client_credentials", true);
    FieldIsKeyValue("client_id", appId, true);
    FieldIsKeyValue("client_secret", appKey, true);
    assert fs[1..] == [fs[1], fs[2]] && [fs[1], fs[2]][1..] == [fs[2]];
    assert RestText([fs[1], fs[2]]) == "," + FieldText(fs[1]) + RestText([fs[2]]);
  }

  /** What stands under each key. */
  lemma CredentialKeys(appId: string, appKey: string)
    ensures var fs := CredentialFields(appId, appKey);
            && |fs| == 3 && fs[0].key == "grant_type" && fs[1].key == "client_id" && fs[2].key == "client_secret"
            && Lookup(fs, "grant_type") == Some(Field("grant_type", "client_credentials", true))
            && Lookup(fs, "client_id") == Some(Field("client_id", appId, true))
            && Lookup(fs, "client_secret") == Some(Field("client_secret", appKey, true))
  {
    var fs := CredentialFields(appId, appKey);
    assert |"grant_type"| == 10 && |"client_id"| == 9 && |"client_secret"| == 13;
    assert fs[1..] == [fs[1], fs[2]] && [fs[1], fs[2]][1..] == [fs[2]];
    assert Lookup([fs[2]], "client_secret") == Some(fs[2]);
    assert Lookup([fs[1], fs[2]], "client_secret") == Some(fs[2]) && Lookup([fs[1], fs[2]], "client_id") == Some(fs[1]);
  }

  /** The receiver reads the application's identity in it exactly when identifier and key need no escaping. */
  lemma CredentialsRead(appId: string, appKey: string)
    ensures var fs := CredentialFields(appId, appKey);
            DecodeObject(ObjectText(fs)) == Some(fs) <==> Clean(appId) && Clean(appKey)
  {
    hide Clean, ObjectText, DecodeObject;
    var fs := CredentialFields(appId, appKey);
    PlainIsClean("grant_type");
    PlainIsClean("client_id");
    PlainIsClean("client_secret");
    PlainIsClean("client_credentials");
    assert AllFit(fs) <==> Fit(fs[0]) && Fit(fs[1]) && Fit(fs[2]);
    ObjectReads(fs);
  }

  method AppendCredentials(kii: Kii) returns (ok: bool)
    requires kii.body == ""
    modifies kii`body, kii`intact
    ensures ok <==> |ObjectText(CredentialFields(kii.appId, kii.appKey))| <= kii.room
    ensures ok ==> kii.body == ObjectText(CredentialFields(kii.appId, kii.appKey)) && kii.intact == old(kii.intact)
  {
    hide KeyValueOut, ObjectText, CredentialFields;
    CredentialsExact(kii.room, kii.appId, kii.appKey);
    ghost var o1 := Put(kii.room, Out("", true), "{");
    ok := kii.Append("{");
    NotGiven(kii.room, o1, Some("grant_type"), Some("client_credentials"), false);
    if ok { ok := kii.AppendString("grant_type", Some("client_credentials"), false); }
    ghost var o2 := KeyValueOut(kii.room, o1, Some("grant_type"), Some("client_credentials"), false, true);
    NotGiven(kii.room, o2, Some("client_id"), Some(kii.appId), true);
    if ok { ok := kii.AppendString("client_id", Some(kii.appId), true); }
    ghost var o3 := KeyValueOut(kii.room, o2, Some("client_id"), Some(kii.appId), true, true);
    NotGiven(kii.room, o3, Some("client_secret"), Some(kii.appKey), true);
    if ok { ok := kii.AppendString("client_secret", Some(kii.appKey), true); }
    if ok { ok := kii.Append("}"); }
  }

  /**
   The token that an application gets before its thing is known; it takes the place of the thing's token meanwhile.
   */
  method GetAnonymousToken(kii: Kii, sizes: Sizes) returns (token: Option<string>, ghost events: seq<Event>)
    modifies kii`path, kii`body, kii`room, kii`intact, kii`log, kii`responseStatus, kii`responseBody, kii`author
    ensures kii.log == old(kii.log) + events
    ensures events == Session(kii.server, old(kii.log), "POST", APP_PATH + kii.appId + OAUTH_PATH, SHORT_PATH_SIZE,
                              "application/json", Some(ObjectText(CredentialFields(kii.appId, kii.appKey))))
    ensures |events| == 2 ==>
              && Some(kii.room) == kii.server.room(old(kii.log))
              && kii.path == events[1].path && |kii.body| == |events[1].body|
    ensures token == SessionText(events, "access_token", sizes.token, |kii.tokens|)
    ensures kii.author == if token.Some? then old(kii.author).(token := token.value) else old(kii.author)
  {
    hide ReadText, ObjectText, CredentialFields;
    token, events := None, [];
    var resource := APP_PATH + kii.appId + OAUTH_PATH;
    if SHORT_PATH_SIZE <= |resource| {
      return;
    }
    var ok := kii.Start("POST", resource, "application/json");
    events := [if ok then Started("POST", resource, "application/json") else StartFailed(resource)];
    if ok { ok := AppendCredentials(kii); }
    if ok {
      ghost var answer := kii.server.answer(kii.log);
      events := events + [Ran(kii.path, kii.body, kii.intact, answer)];
      ok := ExecuteSession(kii);
      if ok {
        token := ReadText(kii.responseBody, "access_token", sizes.token, |kii.tokens|);
        if token.Some? {
          kii.author := kii.author.(token := token.value);
        }
      }
    }
  }

  // ---- Onboarding. ----

  /** The body of an onboarding request; there is none without an identifier and a password. */
  function ThingBody(thing: Thing): Option<string> {
    if thing.id.Some? && thing.password.Some? then Some(ObjectText(ThingFields(thing))) else None
  }

  /**
   The events of a session that goes on although its start failed. Its body is put behind what an earlier
   session left in the buffer, which is some text of that session's length, and both go where that session went.
   */
  ghost predicate CarriedOn(e: seq<Event>, server: Server, log: seq<Event>, oldPath: string, oldLength: nat, room: nat,
                            path: string, body: Option<string>)
  {
    if SHORT_PATH_SIZE <= |path| then e == []
    else if body.None? || oldLength + |body.value| > room then e == [StartFailed(path)]
    else
      && |e| == 2 && e[0] == StartFailed(path) && e[1].Ran? && e[1].path == oldPath && !e[1].intact
      && |e[1].body| == oldLength + |body.value| && e[1].body[oldLength..] == body.value
      && e[1].answer == server.answer(log + [StartFailed(path)])
  }

  /**
   The session that onboards. With a vendor's identifier it gives up when its start fails; with a
   thing's identifier it goes on and builds its body on whatever the buffer holds.
   */
  method OnboardSession(kii: Kii, sizes: Sizes, thing: Thing, contentType: string, givesUp: bool)
    returns (id: Option<string>, token: Option<string>, ghost events: seq<Event>)
    modifies kii`path, kii`body, kii`room, kii`intact, kii`log, kii`responseStatus, kii`responseBody, kii`author
    ensures kii.log == old(kii.log) + events && IsSession(events)
    ensures givesUp || kii.server.room(old(kii.log)).Some? ==>
              events == Session(kii.server, old(kii.log), "POST", THING_IF_APP_PATH + kii.appId + ONBOARDING_PATH,
                                SHORT_PATH_SIZE, contentType, ThingBody(thing))
    ensures !givesUp && kii.server.room(old(kii.log)).None? ==>
              CarriedOn(events, kii.server, old(kii.log), old(kii.path), |old(kii.body)|, old(kii.room),
                        THING_IF_APP_PATH + kii.appId + ONBOARDING_PATH, ThingBody(thing))
    ensures id == SessionText(events, "thingID", sizes.id, |kii.tokens|)
    ensures token == SessionText(events, "accessToken", sizes.token, |kii.tokens|)
    ensures kii.author == Author(if id.Some? then id.value else old(kii.author).id,
                                 if token.Some? then token.value else old(kii.author).token)
  {
    hide ReadText, ThingOut, ObjectText;
    id, token, events := None, None, [];
    var resource := THING_IF_APP_PATH + kii.appId + ONBOARDING_PATH;
    if SHORT_PATH_SIZE <= |resource| {
      return;
    }
    var ok := kii.Start("POST", resource, contentType);
    events := [if ok then Started("POST", resource, contentType) else StartFailed(resource)];
    if !ok && givesUp {
      return;
    }
    ThingExact(kii.room, Out(kii.body, true), thing);
    assert "" + ObjectText(ThingFields(thing)) == ObjectText(ThingFields(thing));
    ok := AppendThing(kii, thing);
    if ok {
      ghost var answer := kii.server.answer(kii.log);
      events := events + [Ran(kii.path, kii.body, kii.intact, answer)];
      ok := ExecuteSession(kii);
      if ok {
        id := ReadText(kii.responseBody, "thingID", sizes.id, |kii.tokens|);
        token := ReadText(kii.responseBody, "accessToken", sizes.token, |kii.tokens|);
        kii.author := Author(if id.Some? then id.value else kii.author.id,
                             if token.Some? then token.value else kii.author.token);
      }
    }
  }

  // ---- Both sessions. ----

  /** What an onboarding starts from. */
  datatype Onboarding = Onboarding(
    server: Server, log: seq<Event>, appId: string, appKey: string, sizes: Sizes, limit: nat,
    thing: Thing, contentType: string, givesUp: bool)
  {
    function TokenBody(): string {
      ObjectText(CredentialFields(appId, appKey))
    }

    function TokenSession(): seq<Event> {
      Session(server, log, "POST", APP_PATH + appId + OAUTH_PATH, SHORT_PATH_SIZE, "application/json",
          Some(TokenBody()))
    }

    predicate TokenArrives() {
      SessionText(TokenSession(), "access_token", sizes.token, limit).Some?
    }

    function Path(): string {
      THING_IF_APP_PATH + appId + ONBOARDING_PATH
    }

    /** The second session's start succeeds. */
    predicate Starts() {
      server.room(log + TokenSession()).Some?
    }

    ghost predicate IsSecond(e: seq<Event>) {
      if !TokenArrives() then e == []
      else
        var first := TokenSession();
        if givesUp || Starts()
        then e == Session(server, log + first, "POST", Path(), SHORT_PATH_SIZE, contentType, ThingBody(thing))
        else CarriedOn(e, server, log + first, first[1].path, |first[1].body|, server.room(log).value, Path(),
            ThingBody(thing))
    }
  }

  /**
   The second session runs what it did not start: the call does not give up, the token arrived, the start failed
   although the path is short enough, and identifier and password are given and fit behind the token request's
   body.
   */
  predicate RunsUnstarted(o: Onboarding) {
    && !o.givesUp && o.TokenArrives() && !o.Starts() && |o.Path()| < SHORT_PATH_SIZE
    && ThingBody(o.thing).Some? && o.server.room(o.log).Some?
    && |o.TokenBody()| + |ThingBody(o.thing).value| <= o.server.room(o.log).value
  }

  ghost predicate HasUnstartedRun(e: seq<Event>) {
    exists k :: 0 <= k < |e| && e[k].Ran? && !e[k].intact
  }

  /** Exactly then a request is run that was not started. */
  lemma UnstartedRun(o: Onboarding, e: seq<Event>)
    requires o.IsSecond(e)
    ensures IsSession(e)
    ensures HasUnstartedRun(e) <==> RunsUnstarted(o)
    ensures RunsUnstarted(o) ==>
              && |e| == 2 && e[1].Ran? && e[1].path == APP_PATH + o.appId + OAUTH_PATH
              && |o.TokenBody()| <= |e[1].body| && e[1].body[|o.TokenBody()|..] == ObjectText(ThingFields(o.thing))
  {
    hide ObjectText, CredentialFields, ReadText;
    if RunsUnstarted(o) {
      assert e[1].Ran? && !e[1].intact;
    }
  }

  /** A field that was written as a quoted text that needs no escaping is read back exactly when it fits. */
  lemma TextFieldReads(name: string, value: string, size: nat, limit: nat)
    requires Clean(name) && Clean(value) && limit >= 3
    ensures ReadText(ObjectText([Field(name, value, true)]), name, size, limit) ==
            if |value| < size then Some(value) else None
  {
    hide Clean, Value, Document, ObjectText, At;
    var f := Field(name, value, true);
    var s, q := ObjectText([f]), |name| + 4;
    OneFieldLaid(f);
    QuotedPieces(s, q, value);
    QuotedReads(s, |s|, q, value);
    OneFieldRead(f);
    var p := Pair(Span(2, 2 + |name|), Str(q + 1, q + 1 + |value|));
    assert PairTokens([p], 0) == TokensOfPair(p, 0) + PairTokens([p][1..], 0);
    assert Count(Obj(0, |s|, [p])) == 3;
    assert Find(s, [p], name) == Some(p.value);
  }

  const SOME_THING := Thing("thingID", Some("thing"), Some("password"), None, None, None, None)
  const SOME_APP := "app"

  /** A server that lets the first request start, and no other, and answers with an anonymous token. */
  function ShyServer(room: nat): Server {
    Server(log => if log == [] then Some(room) else None,
           log => Response(200, ObjectText([Field("access_token", "t", true)])))
  }

  function ShyOnboarding(room: nat, limit: nat): Onboarding {
    Onboarding(ShyServer(room), [], SOME_APP, "key", Sizes(10, 10), limit, SOME_THING, "", false)
  }

  /** It happens: the thing's identifier and password go where the request for the token went. */
  lemma UnstartedRunHappens(room: nat, limit: nat)
    requires limit >= 3
    requires |ShyOnboarding(room, limit).TokenBody()| + |ObjectText(ThingFields(SOME_THING))| <= room
    ensures RunsUnstarted(ShyOnboarding(room, limit))
  {
    hide ObjectText, CredentialFields, ReadText;
    PlainIsClean("access_token");
    PlainIsClean("t");
    TextFieldReads("access_token", "t", 10, limit);
  }

  /** An attempt, as its two sessions tell it. */
  function AttemptOf(first: seq<Event>, second: seq<Event>, sizes: Sizes, limit: nat): Attempt {
    Attempt(SessionText(first, "access_token", sizes.token, limit),
            SessionText(second, "thingID", sizes.id, limit),
            SessionText(second, "accessToken", sizes.token, limit))
  }

  /** Each part of an attempt is the field of that name in the answer of its session, when that was a success. */
  lemma AttemptExact(first: seq<Event>, second: seq<Event>, sizes: Sizes, limit: nat)
    ensures var a := AttemptOf(first, second, sizes, limit);
            && a.anonymous == (if |first| == 2 && WasAnswered(first[1], 200, 299)
                               then ReadText(first[1].answer.body, "access_token", sizes.token, limit) else None)
            && (if |second| == 2 && WasAnswered(second[1], 200, 299) then
                  && a.id == ReadText(second[1].answer.body, "thingID", sizes.id, limit)
                  && a.token == ReadText(second[1].answer.body, "accessToken", sizes.token, limit)
                else a.id == a.token == None)
    ensures forall o: Onboarding ::
              o.TokenArrives() <==> AttemptOf(o.TokenSession(), [], o.sizes, o.limit).anonymous.Some?
  {
  }

  /** Copies credentials into an instance when they fit its buffers. */
  method SetAuthor(kii: Kii, sizes: Sizes, author: Author) returns (ok: bool)
    modifies kii`author
    ensures ok == Fits(sizes, author)
    ensures !ok <==> sizes.id <= |author.id| || sizes.token <= |author.token|
    ensures kii.author == if ok then author else old(kii.author)
  {
    ok := |author.id| < sizes.id && |author.token| < sizes.token;
    if ok {
      kii.author := author;
    }
  }

  /** The body of one quoted field; there is none without a value. */
  function PropertyBody(name: string, value: Option<string>): Option<string> {
    if value.Some? then Some(ObjectText([Field(name, value.value, true)])) else None
  }

  function PropertyPath(appId: string, thingId: string, part: string): string {
    THING_IF_APP_PATH + appId + THINGS_PART + thingId + part
  }

  /** An instance of an application, with nothing asked yet. */
  ghost predicate SetUp(kii: Kii, appId: string, appKey: string, server: Server, tokens: seq<Token>)
    reads kii
  {
    kii.appId == appId && kii.appKey == appKey && kii.server == server && kii.tokens == tokens && kii.log == []
  }

  /** Both sessions of an onboarding, what it makes of the instance, and whether it reports success. */
  ghost predicate AttemptDone(o: Onboarding, before: Sdk, after: Sdk, first: seq<Event>, second: seq<Event>, ok: bool) {
    && (if before.state.AlreadyStarted? then first == [] && second == []
        else first == o.TokenSession() && o.IsSecond(second))
    && after == Next(o.sizes, before, Onboard(AttemptOf(first, second, o.sizes, o.limit)))
    && (ok <==> AttemptOf(first, second, o.sizes, o.limit).Completed())
  }

  class ThingIf {
    const sizes: Sizes
    var state: State
    var command: Kii
    var updater: Kii
    var tasks: nat

    ghost predicate Valid()
      reads this
    {
      command != updater
    }

    ghost function View(): Sdk
      reads this, command, updater
    {
      Sdk(state, command.author, updater.author, tasks)
    }

    /** An onboarding that starts with this log. */
    ghost function From(log: seq<Event>, thing: Thing, contentType: string, givesUp: bool): Onboarding
      reads this, command
    {
      Onboarding(command.server, log, command.appId, command.appKey, sizes, |command.tokens|,
                 thing, contentType, givesUp)
    }

    /** Zeroed memory, before the first initialisation. */
    constructor (sizes: Sizes, server: Server, tokens: seq<Token>)
      ensures Valid() && View() == Sdk(Initialized, NO_AUTHOR, NO_AUTHOR, 0)
      ensures this.sizes == sizes && fresh(command) && fresh(updater)
    {
      this.sizes, state, tasks := sizes, Initialized, 0;
      command := new Kii("", "", server, tokens);
      updater := new Kii("", "", server, tokens);
    }

    /** `ready` tells whether the library could initialise both instances. */
    method Init(appId: string, appKey: string, server: Server, tokens: seq<Token>, ready: bool) returns (ok: bool)
      modifies this
      ensures Valid() && fresh(command) && fresh(updater)
      ensures ok == ready && View() == Next(sizes, old(View()), Call.Init(ready))
      ensures SetUp(command, appId, appKey, server, tokens) && SetUp(updater, appId, appKey, server, tokens)
    {
      command := new Kii(appId, appKey, server, tokens);
      updater := new Kii(appId, appKey, server, tokens);
      state := Initialized;
      ok := ready;
    }

    method InitWithOnboardedThing(appId: string, appKey: string, server: Server, tokens: seq<Token>, ready: bool,
        author: Author)
      returns (ok: bool)
      modifies this
      ensures Valid() && fresh(command) && fresh(updater)
      ensures ok <==> ready && |author.id| < sizes.id && |author.token| < sizes.token
      ensures View() == Next(sizes, old(View()), InitOnboarded(ready, author))
      ensures SetUp(command, appId, appKey, server, tokens) && SetUp(updater, appId, appKey, server, tokens)
    {
      ok := Init(appId, appKey, server, tokens, ready);
      if ok { ok := SetAuthor(command, sizes, author); }
      if ok { ok := SetAuthor(updater, sizes, author); }
      if ok {
        state := Onboarded;
      }
    }

    /** Onboards with a vendor's identifier, which gives up on a failed start, or with a thing's, which does not. */
    method OnboardThing(thing: Thing, contentType: string, givesUp: bool)
      returns (ok: bool, ghost first: seq<Event>, ghost second: seq<Event>)
      requires Valid()
      modifies this`state, command, updater`author
      ensures Valid() && command == old(command) && updater == old(updater)
      ensures command.log == old(command.log) + first + second
      ensures AttemptDone(From(old(command.log), thing, contentType, givesUp), old(View()), View(), first, second, ok)
    {
      hide SessionText, ObjectText, CredentialFields, Session, ThingBody, CarriedOn;
      NoSession(sizes, |command.tokens|);
      ok, first, second := false, [], [];
      if state == AlreadyStarted {
        assert command.log == old(command.log) + [] + [];
        return;
      }
      var anonymous, id, token;
      anonymous, first := GetAnonymousToken(command, sizes);
      if anonymous.None? {
        assert command.log == old(command.log) + first + [];
        return;
      }
      ReceivedRan(first, "access_token", sizes.token, |command.tokens|);
      id, token, second := OnboardSession(command, sizes, thing, contentType, givesUp);
      if id.Some? && token.Some? {
        ReceivedFits(second, sizes, |command.tokens|);
        ok := SetAuthor(updater, sizes, command.author);
        if ok {
          state := Onboarded;
        }
      }
    }

    /** The public calls, with the order of parameters that applications use. */
    method OnboardWithVendorThingId(vendorThingId: Option<string>, password: Option<string>, thingType: Option<string>,
                                    firmwareVersion: Option<string>, layoutPosition: Option<string>,
                                    thingProperties: Option<string>)
      returns (ok: bool, ghost first: seq<Event>, ghost second: seq<Event>)
      requires Valid()
      modifies this`state, command, updater`author
      ensures Valid() && command == old(command) && updater == old(updater)
      ensures command.log == old(command.log) + first + second
      ensures AttemptDone(
                From(old(command.log),
                     Thing("vendorThingID", vendorThingId, password, thingType, thingProperties, firmwareVersion,
                           layoutPosition),
                     "application/vnd.kii.OnboardingWithVendorThingIDByThing+json", true),
                old(View()), View(), first, second, ok)
    {
      ok, first, second := OnboardThing(
        Thing("vendorThingID", vendorThingId, password, thingType, thingProperties, firmwareVersion, layoutPosition),
        "application/vnd.kii.OnboardingWithVendorThingIDByThing+json", true);
    }

    method OnboardWithThingId(thingId: Option<string>, password: Option<string>, thingType: Option<string>,
                              firmwareVersion: Option<string>, layoutPosition: Option<string>,
                              thingProperties: Option<string>)
      returns (ok: bool, ghost first: seq<Event>, ghost second: seq<Event>)
      requires Valid()
      modifies this`state, command, updater`author
      ensures Valid() && command == old(command) && updater == old(updater)
      ensures command.log == old(command.log) + first + second
      ensures AttemptDone(
                From(old(command.log),
                     Thing("thingID", thingId, password, thingType, thingProperties, firmwareVersion,
                           layoutPosition),
                     "application/vnd.kii.OnboardingWithThingIDByThing+json", false),
                old(View()), View(), first, second, ok)
    {
      ok, first, second := OnboardThing(
        Thing("thingID", thingId, password, thingType, thingProperties, firmwareVersion, layoutPosition),
        "application/vnd.kii.OnboardingWithThingIDByThing+json", false);
    }

    /** Subscribes to commands and creates the updater task, from the onboarded state only. */
    method StartTasks(subscribed: bool) returns (ok: bool)
      requires Valid()
      modifies this`tasks
      ensures Valid() && ok == (old(state).Onboarded? && subscribed)
      ensures View() == Next(sizes, old(View()), Call.Start(subscribed))
    {
      ok := state == Onboarded && subscribed;
      if ok {
        tasks := tasks + 1;
      }
    }

    /** Reads one property of the thing, its firmware version or its type, into a buffer of `size`. */
    method GetProperty(part: string, name: string, size: nat)
      returns (r: Option<string>, ghost events: seq<Event>)
      requires Valid()
      modifies command`path, command`body, command`room, command`intact, command`log, command`responseStatus,
               command`responseBody
      ensures Valid() && View() == Next(sizes, old(View()), Call.Request)
      ensures command.log == old(command.log) + events
      ensures events == if !old(state).Onboarded? then []
                        else Session(command.server, old(command.log), "GET",
                                     PropertyPath(command.appId, command.author.id, part),
                                     THING_PATH_SIZE, "", Some(""))
      ensures r == SessionText(events, name, size, |command.tokens|)
    {
      hide ReadText;
      r, events := None, [];
      var resource := PropertyPath(command.appId, command.author.id, part);
      if state != Onboarded || THING_PATH_SIZE <= |resource| {
        return;
      }
      var ok := command.Start("GET", resource, "");
      events := [if ok then Started("GET", resource, "") else StartFailed(resource)];
      if ok {
        ghost var answer := command.server.answer(command.log);
        events := events + [Ran(command.path, command.body, command.intact, answer)];
        ok := ExecuteSession(command);
        if ok {
          r := ReadText(command.responseBody, name, size, |command.tokens|);
        }
      }
    }

    /** Writes one property of the thing. */
    method UpdateProperty(part: string, name: string, value: Option<string>, contentType: string)
      returns (ok: bool, ghost events: seq<Event>)
      requires Valid()
      modifies command`path, command`body, command`room, command`intact, command`log, command`responseStatus,
               command`responseBody
      ensures Valid() && View() == Next(sizes, old(View()), Call.Request)
      ensures command.log == old(command.log) + events
      ensures events == if !old(state).Onboarded? then []
                        else Session(command.server, old(command.log), "PUT",
                                     PropertyPath(command.appId, command.author.id, part),
                                     THING_PATH_SIZE, contentType,
                                     PropertyBody(name, value))
      ensures ok <==> |events| == 2 && WasAnswered(events[1], 200, 299)
    {
      hide KeyValueOut, KeyValueText;
      ok, events := false, [];
      var resource := PropertyPath(command.appId, command.author.id, part);
      if state != Onboarded || THING_PATH_SIZE <= |resource| {
        return;
      }
      ok := command.Start("PUT", resource, contentType);
      events := [if ok then Started("PUT", resource, contentType) else StartFailed(resource)];
      if ok { ok := AppendProperty(command, name, value); }
      if ok {
        ghost var answer := command.server.answer(command.log);
        events := events + [Ran(command.path, command.body, command.intact, answer)];
        ok := ExecuteSession(command);
      }
    }

    method GetFirmwareVersion(size: nat) returns (r: Option<string>, ghost events: seq<Event>)
      requires Valid()
      modifies command`path, command`body, command`room, command`intact, command`log, command`responseStatus,
               command`responseBody
      ensures Valid() && View() == old(View()) && command.log == old(command.log) + events
      ensures events == if !old(state).Onboarded? then []
                        else Session(command.server, old(command.log), "GET",
                                     "thing-if/apps/" + command.appId + "/things/" + command.author.id
                                     + "/firmware-version", 128, "", Some(""))
      ensures r == SessionText(events, "firmwareVersion", size, |command.tokens|)
    {
      hide Session, SessionText;
      r, events := GetProperty("/firmware-version", "firmwareVersion", size);
    }

    method GetThingType(size: nat) returns (r: Option<string>, ghost events: seq<Event>)
      requires Valid()
      modifies command`path, command`body, command`room, command`intact, command`log, command`responseStatus,
               command`responseBody
      ensures Valid() && View() == old(View()) && command.log == old(command.log) + events
      ensures events == if !old(state).Onboarded? then []
                        else Session(command.server, old(command.log), "GET",
                                     "thing-if/apps/" + command.appId + "/things/" + command.author.id + "/thing-type",
                                     128, "", Some(""))
      ensures r == SessionText(events, "thingType", size, |command.tokens|)
    {
      hide Session, SessionText;
      r, events := GetProperty("/thing-type", "thingType", size);
    }

    method UpdateFirmwareVersion(version: Option<string>) returns (ok: bool, ghost events: seq<Event>)
      requires Valid()
      modifies command`path, command`body, command`room, command`intact, command`log, command`responseStatus,
               command`responseBody
      ensures Valid() && View() == old(View()) && command.log == old(command.log) + events
      ensures events == if !old(state).Onboarded? then []
                        else Session(command.server, old(command.log), "PUT",
                                     "thing-if/apps/" + command.appId + "/things/" + command.author.id
                                     + "/firmware-version", 128,
                                     "application/vnd.kii.ThingFirmwareVersionUpdateRequest+json",
                                     PropertyBody("firmwareVersion", version))
      ensures ok <==> |events| == 2 && WasAnswered(events[1], 200, 299)
    {
      hide Session;
      ok, events := UpdateProperty("/firmware-version", "firmwareVersion", version,
                                   "application/vnd.kii.ThingFirmwareVersionUpdateRequest+json");
    }

    method UpdateThingType(thingType: Option<string>) returns (ok: bool, ghost events: seq<Event>)
      requires Valid()
      modifies command`path, command`body, command`room, command`intact, command`log, command`responseStatus,
               command`responseBody
      ensures Valid() && View() == old(View()) && command.log == old(command.log) + events
      ensures events == if !old(state).Onboarded? then []
                        else Session(command.server, old(command.log), "PUT",
                                     "thing-if/apps/" + command.appId + "/things/" + command.author.id + "/thing-type",
                                     128, "application/vnd.kii.ThingTypeUpdateRequest+json",
                                     PropertyBody("thingType", thingType))
      ensures ok <==> |events| == 2 && WasAnswered(events[1], 200, 299)
    {
      hide Session;
      ok, events := UpdateProperty("/thing-type", "thingType", thingType,
                                   "application/vnd.kii.ThingTypeUpdateRequest+json");
    }
  }

  /** A session that was run and not answered with success. */
  predicate Refused(e: seq<Event>) {
    |e| == 2 && !WasAnswered(e[1], 200, 299)
  }

  /** An onboarding with a refused session leaves the state and the updater's credentials as they were. */
  lemma RefusedOnboarding(sizes: Sizes, s: Sdk, first: seq<Event>, second: seq<Event>, limit: nat)
    requires Refused(first) || Refused(second)
    ensures var t := Next(sizes, s, Onboard(AttemptOf(first, second, sizes, limit)));
            t.state == s.state && t.updater == s.updater
    ensures !AttemptOf(first, second, sizes, limit).Completed()
  {
  }

  /** What was read from an answer fits the buffers that it was read into. */
  lemma ReceivedFits(e: seq<Event>, sizes: Sizes, limit: nat)
    ensures var id := SessionText(e, "thingID", sizes.id, limit); id.Some? ==> |id.value| < sizes.id
    ensures var token := SessionText(e, "accessToken", sizes.token, limit); token.Some? ==> |token.value| < sizes.token
  {
  }

  lemma ReceivedRan(e: seq<Event>, name: string, size: nat, limit: nat)
    ensures SessionText(e, name, size, limit).Some? ==> |e| == 2 && e[1].Ran?
  {
  }

  lemma NoSession(sizes: Sizes, limit: nat)
    ensures AttemptOf([], [], sizes, limit) == Attempt(None, None, None)
    ensures forall e: seq<Event> :: AttemptOf(e, [], sizes, limit)
              == Attempt(SessionText(e, "access_token", sizes.token, limit), None, None)
  {
  }

  lemma PropertyExact(room: nat, name: string, value: string)
    ensures var o := Out("", true);
            var o2 := KeyValueOut(room, Put(room, o, "{"), Some(name), Some(value), false, true);
            Exact(room, o, Put(room, o2, "}"), ObjectText([Field(name, value, true)]))
  {
    hide KeyValueOut, KeyValueText, FieldText;
    var o := Out("", true);
    var o1 := Put(room, o, "{");
    var o2 := KeyValueOut(room, o1, Some(name), Some(value), false, true);
    var text := KeyValueText(name, value, false, true);
    KeyValueExact(room, o1, name, value, false, true);
    ExactThen(room, o, o1, "{", o2, text);
    ExactThen(room, o, o2, "{" + text, Put(room, o2, "}"), "}");
    FieldIsKeyValue(name, value, true);
    var f := Field(name, value, true);
    assert FieldsText([f]) == FieldText(f) + RestText([]);
  }

  /** A body of one quoted field. */
  method AppendProperty(kii: Kii, name: string, value: Option<string>) returns (ok: bool)
    requires kii.body == ""
    modifies kii`body, kii`intact
    ensures ok <==> value.Some? && |ObjectText([Field(name, value.value, true)])| <= kii.room
    ensures ok ==> kii.body == ObjectText([Field(name, value.value, true)]) && kii.intact == old(kii.intact)
  {
    hide KeyValueOut, ObjectText;
    ghost var o1 := Put(kii.room, Out("", true), "{");
    ok := kii.Append("{");
    NotGiven(kii.room, o1, Some(name), value, false);
    if ok { ok := kii.AppendString(name, value, false); }
    if ok { ok := kii.Append("}"); }
    if value.Some? {
      PropertyExact(kii.room, name, value.value);
    }
  }
}
