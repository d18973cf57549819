/**
 Updater tasks that go on while the credentials change under them. A task computes the path of its requests
 once, when it begins; the token is taken from the instance each time.
 */
module RunningTasks {
  import opened Basics
  import opened Api
  import opened Lifecycle
  import opened LifecycleFacts

  /** A call of the application, a task that begins to run, or a round of a task that has begun. */
  datatype Happening = Called(call: Call) | Begun | Round(task: nat)

  /** `ids` are the identifiers in the paths of the tasks that have begun. */
  datatype Live = Live(sdk: Sdk, ids: seq<string>)

  function Front(hs: seq<Happening>): seq<Happening>
    requires hs != []
  {
    hs[..|hs| - 1]
  }

  function After(sizes: Sizes, hs: seq<Happening>): Live
    decreases |hs|
  {
    if hs == [] then Live(FIRST, [])
    else
      var s := After(sizes, Front(hs));
      match hs[|hs| - 1]
      case Called(call) => s.(sdk := Next(sizes, s.sdk, call))
      case Begun => if |s.ids| < s.sdk.tasks then s.(ids := s.ids + [s.sdk.updater.id]) else s
      case Round(_) => s
  }

  /** Whose state a task's next request reports, and with whose token. */
  function RequestOf(s: Live, task: nat): Author
    requires task < |s.ids|
  {
    Author(s.ids[task], s.sdk.updater.token)
  }

  // ---- The same from the calls alone. ----

  function Calls(hs: seq<Happening>): seq<Call>
    decreases |hs|
  {
    if hs == [] then []
    else Calls(Front(hs)) + (if hs[|hs| - 1].Called? then [hs[|hs| - 1].call] else [])
  }

  /** When the tasks began: tasks begin only as often as starts were accepted. */
  function Begins(sizes: Sizes, hs: seq<Happening>): seq<nat>
    decreases |hs|
  {
    if hs == [] then []
    else
      var before := Begins(sizes, Front(hs));
      if hs[|hs| - 1].Begun? && |before| < AcceptedStarts(sizes, Calls(Front(hs))) then before + [|hs| - 1] else before
  }

  lemma {:induction false} SdkAfter(sizes: Sizes, hs: seq<Happening>)
    ensures After(sizes, hs).sdk == Run(sizes, FIRST, Calls(hs))
    decreases |hs|
  {
    hide Next;
    if hs != [] {
      SdkAfter(sizes, Front(hs));
      var last := hs[|hs| - 1];
      if last.Called? {
        RunLast(sizes, FIRST, Calls(Front(hs)), last.call);
      } else {
        assert Calls(Front(hs)) + [] == Calls(Front(hs));
      }
    }
  }

  lemma {:induction false} PathsFixed(sizes: Sizes, hs: seq<Happening>)
    ensures var s, begins := After(sizes, hs), Begins(sizes, hs);
            && |s.ids| == |begins|
            && forall k :: 0 <= k < |begins| ==>
                 begins[k] < |hs| && s.ids[k] == InForce(sizes, Calls(hs[..begins[k]])).id
    decreases |hs|
  {
    hide Next, InForce;
    if hs != [] {
      var front := Front(hs);
      PathsFixed(sizes, front);
      SdkAfter(sizes, front);
      UpdaterCredentials(sizes, Calls(front));
      UpdaterInForce(sizes, Calls(front));
      TasksAreAcceptedStarts(sizes, Calls(front));
      var begins := Begins(sizes, hs);
      forall k | 0 <= k < |begins|
        ensures begins[k] < |hs| && After(sizes, hs).ids[k] == InForce(sizes, Calls(hs[..begins[k]])).id
      {
        if k < |Begins(sizes, front)| {
          assert front[..begins[k]] == hs[..begins[k]];
        }
      }
    }
  }

  lemma UpdaterInForce(sizes: Sizes, calls: seq<Call>)
    ensures Run(sizes, FIRST, calls).updater == InForce(sizes, calls)
  {
    UpdaterCredentials(sizes, calls);
  }

  /**
   In every run, a request of a task carries the path of what was in force when the task began and the token of
   what is in force now. Both belong to what is in force exactly when the identifier in force is still the one
   of the beginning.
   */
  lemma RequestBelongs(sizes: Sizes, hs: seq<Happening>, task: nat)
    requires task < |Begins(sizes, hs)|
    ensures var s, begun := After(sizes, hs), Begins(sizes, hs)[task];
            && task < |s.ids| && begun < |hs|
            && var early, now := InForce(sizes, Calls(hs[..begun])), InForce(sizes, Calls(hs));
               && RequestOf(s, task) == Author(early.id, now.token)
               && (RequestOf(s, task) == now <==> early.id == now.id)
  {
    PathsFixed(sizes, hs);
    SdkAfter(sizes, hs);
    UpdaterInForce(sizes, Calls(hs));
  }

  /** A repeated onboarding under a running task: the path of the first thing with the token of the second. */
  lemma RequestMixes()
    ensures var sizes, first, second := Sizes(10, 10), Author("a", "x"), Author("b", "y");
            var hs := [Called(InitOnboarded(true, first)), Called(Call.Start(true)), Begun,
                       Called(Onboard(Attempt(Some("t"), Some("b"), Some("y")))), Round(0)];
            var s := After(sizes, hs);
            |s.ids| == 1 && RequestOf(s, 0) == Author("a", "y") && s.sdk.updater == second && s.sdk.state.Onboarded?
  {
    var sizes, first := Sizes(10, 10), Author("a", "x");
    var h1 := [Called(InitOnboarded(true, first))];
    var h2 := h1 + [Called(Call.Start(true))];
    var h3 := h2 + [Begun];
    var h4 := h3 + [Called(Onboard(Attempt(Some("t"), Some("b"), Some("y"))))];
    var h5 := h4 + [Round(0)];
    assert Front(h5) == h4 && Front(h4) == h3 && Front(h3) == h2 && Front(h2) == h1 && Front(h1) == [];
    assert After(sizes, h1) == Live(Sdk(Onboarded, first, first, 0), []);
    assert After(sizes, h2) == Live(Sdk(Onboarded, first, first, 1), []);
    assert After(sizes, h3) == Live(Sdk(Onboarded, first, first, 1), ["a"]);
    assert h5 == [Called(InitOnboarded(true, first)), Called(Call.Start(true)), Begun,
                  Called(Onboard(Attempt(Some("t"), Some("b"), Some("y")))), Round(0)];
  }
}
