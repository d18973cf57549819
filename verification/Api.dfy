/**
 One `kii_t` instance: its credentials, its token array, the request that is being built in its
 buffer, and the log of what it asked of the network.

 The request calls belong to a library; the model's assumption about them is this: a start either
 fails or leaves room for a body of some size; an append fails exactly when its text does not fit,
 and then changes nothing; a run either fails or brings back a status and a body.
 */
module Api {
  import opened Basics
  import opened Tokens

  datatype Answer = Unreachable | Response(status: int, body: string) {
    predicate Succeeded() {
      Response? && 200 <= status < 300
    }
  }

  /** `intact` of a run: its request was started, and every append since then succeeded. */
  datatype Event =
    | Started(verb: string, path: string, contentType: string)
    | StartFailed(path: string)
    | Ran(path: string, body: string, intact: bool, answer: Answer)
    | Waited(milliseconds: int)

  /** What the outside decides, given all that happened before. */
  datatype Server = Server(
    room: seq<Event> -> Option<nat>,
    answer: seq<Event> -> Answer
  )

  datatype Author = Author(id: string, token: string)

  /** A body under construction: what is in the buffer, and whether everything so far went in. */
  datatype Out = Out(body: string, ok: bool)

  function Put(room: nat, o: Out, text: string): Out {
    if o.ok && |o.body| + |text| <= room then Out(o.body + text, true) else Out(o.body, false)
  }

  function KeyValueOut(room: nat, o: Out, key: Option<string>, value: Option<string>, successor: bool, isString: bool)
    : Out
  {
    if key.None? || value.None? then Out(o.body, false)
    else
      var o1 := if successor then Put(room, o, ",") else o;
      var o2 := Put(room, Put(room, Put(room, o1, "\""), key.value), "\":");
      if isString then Put(room, Put(room, Put(room, o2, "\""), value.value), "\"")
      else Put(room, o2, value.value)
  }

  function OptionalOut(room: nat, o: Out, key: Option<string>, value: Option<string>, successor: bool, isString: bool)
    : Out
  {
    if key.None? || value.None? then o else KeyValueOut(room, o, key, value, successor, isString)
  }

  function KeyValueText(key: string, value: string, successor: bool, isString: bool): string {
    (if successor then "," else "") + "\"" + key + "\":" + (if isString then "\"" + value + "\"" else value)
  }

  function ChunksOut(room: nat, o: Out, chunks: seq<string>): Out
    decreases |chunks|
  {
    if chunks == [] then o else ChunksOut(room, Put(room, o, chunks[0]), chunks[1..])
  }

  function Joined(chunks: seq<string>): string {
    if chunks == [] then "" else chunks[0] + Joined(chunks[1..])
  }

  /** From `o` to `r`, exactly `text` went in; and it went in exactly when it fits as a whole. */
  ghost predicate Exact(room: nat, o: Out, r: Out, text: string) {
    && (r.ok <==> o.ok && |o.body| + |text| <= room)
    && (r.ok ==> r.body == o.body + text)
  }

  lemma ExactThen(room: nat, o: Out, r: Out, a: string, q: Out, b: string)
    requires Exact(room, o, r, a) && Exact(room, r, q, b)
    ensures Exact(room, o, q, a + b)
  {
    assert o.body + (a + b) == (o.body + a) + b;
  }

  /** A key and a value are written completely or the request is given up, whatever the room. */
  lemma KeyValueExact(room: nat, o: Out, key: string, value: string, successor: bool, isString: bool)
    requires o.ok ==> |o.body| <= room
    ensures Exact(room, o, KeyValueOut(room, o, Some(key), Some(value), successor, isString),
                  KeyValueText(key, value, successor, isString))
  {
    var o1 := if successor then Put(room, o, ",") else o;
    var comma := if successor then "," else "";
    var o2 := Put(room, o1, "\"");
    var o3 := Put(room, o2, key);
    var o4 := Put(room, o3, "\":");
    ExactThen(room, o, o1, comma, o2, "\"");
    ExactThen(room, o, o2, comma + "\"", o3, key);
    ExactThen(room, o, o3, comma + "\"" + key, o4, "\":");
    var head := comma + "\"" + key + "\":";
    if isString {
      var o5 := Put(room, o4, "\"");
      var o6 := Put(room, o5, value);
      var o7 := Put(room, o6, "\"");
      ExactThen(room, o4, o5, "\"", o6, value);
      ExactThen(room, o4, o6, "\"" + value, o7, "\"");
      ExactThen(room, o, o4, head, o7, "\"" + value + "\"");
    } else {
      ExactThen(room, o, o4, head, Put(room, o4, value), value);
    }
  }

  /** The state printers write all their chunks or report failure, whatever the room. */
  lemma {:induction false} ChunksExact(room: nat, o: Out, chunks: seq<string>)
    requires o.ok ==> |o.body| <= room
    ensures Exact(room, o, ChunksOut(room, o, chunks), Joined(chunks))
    decreases |chunks|
  {
    if chunks != [] {
      var r := Put(room, o, chunks[0]);
      ChunksExact(room, r, chunks[1..]);
      ExactThen(room, o, r, chunks[0], ChunksOut(room, o, chunks), Joined(chunks[1..]));
    }
  }

  class Kii {
    const appId: string
    const appKey: string
    const server: Server
    var author: Author
    var tokens: seq<Token>
    var path: string
    var body: string
    var room: nat
    var intact: bool
    var responseStatus: int
    var responseBody: string
    var log: seq<Event>

    /** As initialised: zeroed, with the application's identity and a token array. */
    constructor (appId: string, appKey: string, server: Server, tokens: seq<Token>)
      ensures this.appId == appId && this.appKey == appKey && this.server == server
      ensures author == Author("", "") && this.tokens == tokens && log == [] && !intact
    {
      this.appId, this.appKey, this.server := appId, appKey, server;
      author, this.tokens, log := Author("", ""), tokens, [];
      path, body, room, intact, responseStatus, responseBody := "", "", 0, false, 0, "";
    }

    method Start(verb: string, resource: string, contentType: string) returns (ok: bool)
      modifies `path, `body, `room, `intact, `log
      ensures ok == server.room(old(log)).Some? == intact
      ensures log == old(log) + [if ok then Started(verb, resource, contentType) else StartFailed(resource)]
      ensures ok ==> path == resource && body == "" && Some(room) == server.room(old(log))
      ensures !ok ==> path == old(path) && body == old(body) && room == old(room)
    {
      var left := server.room(log);
      ok, intact := left.Some?, left.Some?;
      if ok {
        log := log + [Started(verb, resource, contentType)];
        path, body, room := resource, "", left.value;
      } else {
        log := log + [StartFailed(resource)];
      }
    }

    method Append(text: string) returns (ok: bool)
      modifies `body, `intact
      ensures Out(body, ok) == Put(room, Out(old(body), true), text)
      ensures intact == (old(intact) && ok)
    {
      ok := |body| + |text| <= room;
      if ok {
        body := body + text;
      }
      intact := intact && ok;
    }

    /**
     A run ends the session: a second run without a new start is not intact. Request and answer share one buffer, so
     that in the body's place there is any text of its length afterwards.
     */
    method Run() returns (ok: bool)
      modifies `body, `intact, `responseStatus, `responseBody, `log
      ensures var answer := server.answer(old(log));
              && ok == answer.Response?
              && log == old(log) + [Ran(path, old(body), old(intact), answer)]
              && |body| == |old(body)|
              && (ok ==> responseStatus == answer.status && responseBody == answer.body)
              && (!ok ==> responseStatus == old(responseStatus) && responseBody == old(responseBody))
      ensures !intact
    {
      var answer := server.answer(log);
      log := log + [Ran(path, body, intact, answer)];
      ok, intact := answer.Response?, false;
      var overwritten: string := *;
      if |overwritten| == |body| {
        body := overwritten;
      }
      if ok {
        responseStatus, responseBody := answer.status, answer.body;
      }
    }

    method AppendKeyValue(key: Option<string>, value: Option<string>, successor: bool, isString: bool)
      returns (ok: bool)
      modifies `body, `intact
      ensures Out(body, ok) == KeyValueOut(room, Out(old(body), true), key, value, successor, isString)
      ensures ok ==> intact == old(intact)
    {
      ok := key.Some? && value.Some?;
      if ok && successor {
        ok := Append(",");
      }
      if ok { ok := Append("\""); }
      if ok { ok := Append(key.value); }
      if ok { ok := Append("\":"); }
      if ok && isString {
        ok := Append("\"");
        if ok { ok := Append(value.value); }
        if ok { ok := Append("\""); }
      } else if ok {
        ok := Append(value.value);
      }
    }

    method AppendString(key: string, value: Option<string>, successor: bool) returns (ok: bool)
      modifies `body, `intact
      ensures Out(body, ok) == KeyValueOut(room, Out(old(body), true), Some(key), value, successor, true)
      ensures ok ==> intact == old(intact)
    {
      ok := AppendKeyValue(Some(key), value, successor, true);
    }

    method AppendOptional(key: string, value: Option<string>, successor: bool, isString: bool) returns (ok: bool)
      modifies `body, `intact
      ensures Out(body, ok) == OptionalOut(room, Out(old(body), true), Some(key), value, successor, isString)
      ensures ok ==> intact == old(intact)
    {
      ok := true;
      if value.Some? {
        ok := AppendKeyValue(Some(key), value, successor, isString);
      }
    }

    method AppendBool(key: string, value: bool, successor: bool) returns (ok: bool)
      modifies `body, `intact
      ensures Out(body, ok) == KeyValueOut(room, Out(old(body), true), Some(key),
                Some(if value then "true" else "false"), successor, false)
      ensures ok ==> intact == old(intact)
    {
      ok := AppendKeyValue(Some(key), Some(if value then "true" else "false"), successor, false);
    }

    /** A state handler that writes its chunks one by one and gives up at the first that does not fit. */
    method WriteChunks(chunks: seq<string>) returns (ok: bool)
      modifies `body, `intact
      ensures Out(body, ok) == ChunksOut(room, Out(old(body), true), chunks)
      ensures ok ==> intact == old(intact)
    {
      ok := true;
      var i := 0;
      while i < |chunks|
        invariant 0 <= i <= |chunks|
        invariant ok && intact == old(intact)
        invariant ChunksOut(room, Out(old(body), true), chunks) == ChunksOut(room, Out(body, true), chunks[i..])
      {
        ok := Append(chunks[i]);
        if !ok {
          FailedChunks(room, Out(body, false), chunks[i + 1..]);
          return;
        }
        i := i + 1;
      }
    }
  }

  lemma {:induction false} FailedChunks(room: nat, o: Out, chunks: seq<string>)
    requires !o.ok
    ensures ChunksOut(room, o, chunks) == o
    decreases |chunks|
  {
    if chunks != [] {
      FailedChunks(room, o, chunks[1..]);
    }
  }
}
