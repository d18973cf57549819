/** The task that reports the state periodically, over any number of its rounds. */
module Updater {
  import opened Api
  import opened Walk
  import opened CommandFacts

  /** A round: a delay, then one attempt to send the state. */
  function RoundsLog(c: Scene, period: int, log: seq<Event>, n: nat): seq<Event>
    decreases n
  {
    if n == 0 then log else RoundsLog(c, period, StateLog(c, log + [Waited(period * 1000)]), n - 1)
  }

  /** The loop has no end in the source; `rounds` says how often it is observed to go round. */
  method UpdateStatus(kii: Kii, reporter: seq<Event> -> seq<string>, period: int, rounds: nat, ghost c: Scene)
    requires c.appId == kii.appId && c.author == kii.author && c.server == kii.server && c.reporter == reporter
    modifies kii`path, kii`body, kii`room, kii`intact, kii`log, kii`responseStatus, kii`responseBody
    ensures kii.log == if PATH_SIZE <= |StatePath(c.appId, c.author.id)| then old(kii.log)
                       else RoundsLog(c, period, old(kii.log), rounds)
  {
    hide ChunksOut, StatePath;
    var path := StatePath(kii.appId, kii.author.id);
    if PATH_SIZE <= |path| {
      return;
    }
    var round := 0;
    while round < rounds
      invariant 0 <= round <= rounds
      invariant RoundsLog(c, period, old(kii.log), rounds) == RoundsLog(c, period, kii.log, rounds - round)
    {
      round := round + 1;
      kii.log := kii.log + [Waited(period * 1000)];
      var ok := kii.Start("PUT", path, CONTENT_UPDATE_STATE);
      if !ok {
        continue;
      }
      ok := kii.WriteChunks(reporter(kii.log));
      if !ok {
        continue;
      }
      ok := kii.Run();
    }
  }

  function Runs(events: seq<Event>): nat {
    if events == [] then 0 else (if events[0].Ran? then 1 else 0) + Runs(events[1..])
  }

  function Waits(events: seq<Event>): nat {
    if events == [] then 0 else (if events[0].Waited? then 1 else 0) + Waits(events[1..])
  }

  lemma {:induction false} CountsAdd(a: seq<Event>, b: seq<Event>)
    ensures Runs(a + b) == Runs(a) + Runs(b) && Waits(a + b) == Waits(a) + Waits(b)
    decreases |a|
  {
    if a == [] {
      assert a + b == b;
    } else {
      CountsAdd(a[1..], b);
      assert (a + b)[0] == a[0] && (a + b)[1..] == a[1..] + b;
    }
  }

  /** Nothing is run but a started request with the complete state in it. */
  ghost predicate OnlyWholeStates(c: Scene, events: seq<Event>) {
    forall k :: 0 <= k < |events| && events[k].Ran? ==>
      && events[k].intact && events[k].path == StatePath(c.appId, c.author.id)
      && k > 0 && events[k - 1] == Started("PUT", events[k].path, CONTENT_UPDATE_STATE)
      && exists log :: events[k].body == Joined(c.reporter(log))
  }

  lemma StateSentOnce(c: Scene, log: seq<Event>)
    ensures log <= StateLog(c, log)
    ensures var sent := StateLog(c, log)[|log|..]; Runs(sent) <= 1 && Waits(sent) == 0 && OnlyWholeStates(c, sent)
  {
    hide StatePath, Joined, StateLog;
    StateRequest(c, log);
    var sent := StateLog(c, log)[|log|..];
    assert |sent| <= 2;
    assert sent == StateEvents(c, log);
    if |sent| == 2 {
      assert sent[1].body == Joined(c.reporter(log + [sent[0]]));
      assert sent == [sent[0]] + [sent[1]] && [sent[0]][1..] == [] && [sent[1]][1..] == [];
      CountsAdd([sent[0]], [sent[1]]);
    } else if |sent| == 1 {
      assert sent[1..] == [];
    }
  }

  /** In any number of rounds there is one delay a round, and there are never more runs than delays. */
  lemma {:induction false} RoundsAreDelayed(c: Scene, period: int, log: seq<Event>, n: nat)
    ensures log <= RoundsLog(c, period, log, n)
    ensures var events := RoundsLog(c, period, log, n)[|log|..];
            Runs(events) <= Waits(events) == n && OnlyWholeStates(c, events)
    decreases n
  {
    hide StateLog;
    if n == 0 {
      assert log[|log|..] == [];
    } else {
      var waited := log + [Waited(period * 1000)];
      var sent := StateLog(c, waited);
      var end := RoundsLog(c, period, log, n);
      StateSentOnce(c, waited);
      RoundsAreDelayed(c, period, sent, n - 1);
      var w, s, r := [Waited(period * 1000)], sent[|waited|..], end[|sent|..];
      assert end[|log|..] == w + (s + r);
      CountsAdd(w, s + r);
      CountsAdd(s, r);
      assert w[1..] == [];
      assert Runs(w) == 0 && Waits(w) == 1;
      WholeStatesJoin(c, s, r);
      WholeStatesJoin(c, w, s + r);
    }
  }

  /** Every request is started right after a delay of the period, in milliseconds. */
  ghost predicate DelayedStarts(period: int, events: seq<Event>) {
    forall k :: 0 <= k < |events| && (events[k].Started? || events[k].StartFailed?) ==>
      k > 0 && events[k - 1] == Waited(1000 * period)
  }

  /** At no time have there been more runs than delays. */
  ghost predicate NeverAhead(events: seq<Event>) {
    forall n :: 0 <= n <= |events| ==> Runs(events[..n]) <= Waits(events[..n])
  }

  lemma OneRound(c: Scene, period: int, log: seq<Event>)
    ensures var events := [Waited(period * 1000)] + StateEvents(c, log);
            && DelayedStarts(period, events) && NeverAhead(events) && Runs(events) <= Waits(events)
            && forall k :: 0 <= k < |events| && events[k].Waited? ==> events[k] == Waited(1000 * period)
  {
    hide StatePath, Joined;
    var w, s := [Waited(period * 1000)], StateEvents(c, log);
    var events := w + s;
    forall n | 0 <= n <= |events| ensures Runs(events[..n]) <= Waits(events[..n]) {
      if n > 0 {
        assert events[..n] == w + s[..n - 1] && w[1..] == [];
        CountsAdd(w, s[..n - 1]);
        AtMostOneRun(s[..n - 1]);
      }
    }
    assert events[..|events|] == events;
  }

  lemma AtMostOneRun(s: seq<Event>)
    requires |s| <= 2 && (s != [] ==> !s[0].Ran?)
    ensures Runs(s) <= 1
  {
    if s != [] {
      if |s| == 2 {
        assert s[1..] == [s[1]] && [s[1]][1..] == [];
      } else {
        assert s[1..] == [];
      }
    }
  }

  lemma RoundsJoin(period: int, a: seq<Event>, b: seq<Event>)
    requires DelayedStarts(period, a) && DelayedStarts(period, b) && NeverAhead(a) && NeverAhead(b)
    ensures DelayedStarts(period, a + b) && NeverAhead(a + b)
  {
    var c := a + b;
    forall n | 0 <= n <= |c| ensures Runs(c[..n]) <= Waits(c[..n]) {
      if n <= |a| {
        assert c[..n] == a[..n];
      } else {
        assert c[..n] == a + b[..n - |a|] && a[..|a|] == a;
        CountsAdd(a, b[..n - |a|]);
      }
    }
    forall k | 0 <= k < |c| && (c[k].Started? || c[k].StartFailed?)
      ensures k > 0 && c[k - 1] == Waited(1000 * period)
    {
      if k >= |a| {
        assert c[k] == b[k - |a|] && k - |a| > 0 && c[k - 1] == b[k - |a| - 1];
      }
    }
  }

  /** In any number of rounds every request comes right after a whole delay, and at no time are runs ahead of delays. */
  lemma {:induction false} RoundsInStep(c: Scene, period: int, log: seq<Event>, n: nat)
    ensures log <= RoundsLog(c, period, log, n)
    ensures var events := RoundsLog(c, period, log, n)[|log|..]; DelayedStarts(period, events) && NeverAhead(events)
    decreases n
  {
    hide StateLog, StateEvents, DelayedStarts, NeverAhead;
    if n == 0 {
      assert log[|log|..] == [];
      NothingHappened(period);
    } else {
      var waited := log + [Waited(period * 1000)];
      var sent := StateLog(c, waited);
      var end := RoundsLog(c, period, log, n);
      StateRequest(c, waited);
      OneRound(c, period, waited);
      RoundsInStep(c, period, sent, n - 1);
      var round, rest := [Waited(period * 1000)] + StateEvents(c, waited), end[|sent|..];
      assert sent == log + round;
      assert end[|log|..] == round + rest;
      RoundsJoin(period, round, rest);
    }
  }

  lemma NothingHappened(period: int)
    ensures DelayedStarts(period, []) && NeverAhead([])
  {
  }

  lemma WholeStatesJoin(c: Scene, a: seq<Event>, b: seq<Event>)
    requires OnlyWholeStates(c, a) && OnlyWholeStates(c, b)
    ensures OnlyWholeStates(c, a + b)
  {
    forall k | 0 <= k < |a + b| && (a + b)[k].Ran?
      ensures k > 0 && (a + b)[k - 1] == Started("PUT", (a + b)[k].path, CONTENT_UPDATE_STATE)
    {
      if k >= |a| {
        assert (a + b)[k] == b[k - |a|] && (a + b)[k - 1] == b[k - |a| - 1];
      }
    }
  }
}
