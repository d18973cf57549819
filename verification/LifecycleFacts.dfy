/** What holds of the state and of the two copies of the credentials after every sequence of calls. */
module LifecycleFacts {
  import opened Basics
  import opened Api
  import opened Lifecycle

  const FIRST := Sdk(Initialized, NO_AUTHOR, NO_AUTHOR, 0)

  function Run(sizes: Sizes, s: Sdk, calls: seq<Call>): Sdk
    decreases |calls|
  {
    if calls == [] then s else Run(sizes, Next(sizes, s, calls[0]), calls[1..])
  }

  lemma {:induction false} RunLast(sizes: Sizes, s: Sdk, calls: seq<Call>, last: Call)
    ensures Run(sizes, s, calls + [last]) == Next(sizes, Run(sizes, s, calls), last)
    decreases |calls|
  {
    hide Next;
    if calls == [] {
      assert ([] + [last])[1..] == [];
    } else {
      RunLast(sizes, Next(sizes, s, calls[0]), calls[1..], last);
      assert (calls + [last])[1..] == calls[1..] + [last];
    }
  }

  /** The credentials of the latest onboarding, told from the calls alone; initialising forgets them. */
  function LatestCommit(sizes: Sizes, calls: seq<Call>): Option<Author>
    decreases |calls|
  {
    if calls == [] then None
    else
      var before := LatestCommit(sizes, calls[..|calls| - 1]);
      match calls[|calls| - 1]
      case Init(_) => None
      case InitOnboarded(ready, author) => if ready && Fits(sizes, author) then Some(author) else None
      case Onboard(a) =>
        if a.Completed() && Fits(sizes, Author(a.id.value, a.token.value))
        then Some(Author(a.id.value, a.token.value)) else before
      case Start(_) => before
      case Request => before
  }

  /**
   After every sequence of calls the updater holds the identifier and the token of one and the same
   onboarding, the latest, or nothing; the instance is onboarded exactly when there was one; and it
   is never started.
   */
  lemma {:induction false} UpdaterCredentials(sizes: Sizes, calls: seq<Call>)
    ensures var s, commit := Run(sizes, FIRST, calls), LatestCommit(sizes, calls);
            && s.updater == (if commit.Some? then commit.value else NO_AUTHOR)
            && s.state == (if commit.Some? then Onboarded else Initialized)
    decreases |calls|
  {
    if calls != [] {
      var before, last := calls[..|calls| - 1], calls[|calls| - 1];
      assert calls == before + [last];
      UpdaterCredentials(sizes, before);
      RunLast(sizes, FIRST, before, last);
    }
  }

  /** A call that leaves both copies with the same new credentials. */
  ghost predicate Commits(sizes: Sizes, s: Sdk, call: Call) {
    !s.state.AlreadyStarted? &&
    match call
    case Onboard(a) => a.Completed() && Fits(sizes, Written(s.command, a))
    case InitOnboarded(ready, author) => ready && Fits(sizes, author)
    case _ => false
  }

  /** From each commit until the next onboarding attempt the command handler uses the updater's credentials. */
  lemma {:induction false} CopiesAgree(sizes: Sizes, s: Sdk, call: Call, calls: seq<Call>)
    requires Commits(sizes, s, call)
    requires forall k :: 0 <= k < |calls| ==> !calls[k].Onboard?
    ensures var t := Run(sizes, Next(sizes, s, call), calls); t.command == t.updater
    decreases |calls|
  {
    if calls != [] {
      var before, last := calls[..|calls| - 1], calls[|calls| - 1];
      assert calls == before + [last];
      CopiesAgree(sizes, s, call, before);
      RunLast(sizes, Next(sizes, s, call), before, last);
    }
  }

  /** The credentials that are in force after some calls. */
  function InForce(sizes: Sizes, calls: seq<Call>): Author {
    var commit := LatestCommit(sizes, calls);
    if commit.Some? then commit.value else NO_AUTHOR
  }

  /** What failed attempts received since the credentials in force were committed: the latest of each kind. */
  datatype Strays = Strays(id: Option<string>, token: Option<string>)

  function StraysOf(sizes: Sizes, calls: seq<Call>): Strays
    decreases |calls|
  {
    if calls == [] then Strays(None, None)
    else
      var before := StraysOf(sizes, calls[..|calls| - 1]);
      match calls[|calls| - 1]
      case Init(_) => Strays(None, None)
      case InitOnboarded(_, _) => Strays(None, None)
      case Onboard(a) =>
        if a.anonymous.None? then before
        else if a.Completed() && Fits(sizes, Author(a.id.value, a.token.value)) then Strays(None, None)
        else Strays(if a.id.Some? then a.id else before.id, if a.token.Some? then a.token else a.anonymous)
      case Start(_) => before
      case Request => before
  }

  function Else(a: Option<string>, b: string): string {
    if a.Some? then a.value else b
  }

  /** After every sequence of calls the command handler holds the strays, and what is in force where there are none. */
  lemma {:induction false} CommandCredentials(sizes: Sizes, calls: seq<Call>)
    ensures var strays, force := StraysOf(sizes, calls), InForce(sizes, calls);
            Run(sizes, FIRST, calls).command == Author(Else(strays.id, force.id), Else(strays.token, force.token))
    decreases |calls|
  {
    if calls != [] {
      var before, last := calls[..|calls| - 1], calls[|calls| - 1];
      assert calls == before + [last];
      CommandCredentials(sizes, before);
      UpdaterCredentials(sizes, before);
      RunLast(sizes, FIRST, before, last);
    }
  }

  /** After every sequence of calls both copies are equal exactly when no stray differs from what is in force. */
  lemma AgreementExact(sizes: Sizes, calls: seq<Call>)
    ensures var s, strays, force := Run(sizes, FIRST, calls), StraysOf(sizes, calls), InForce(sizes, calls);
            s.command == s.updater <==>
            (strays.id.None? || strays.id.value == force.id)
                && (strays.token.None? || strays.token.value == force.token)
  {
    CommandCredentials(sizes, calls);
    UpdaterCredentials(sizes, calls);
  }

  /** A repeated onboarding that got an anonymous token only: still onboarded, with a token that is not the thing's. */
  lemma FailedAttemptSplitsCopies(sizes: Sizes)
    requires sizes.id > 5 && sizes.token > 9
    ensures var good := InitOnboarded(true, Author("thing", "token"));
            var failed := Onboard(Attempt(Some("anonymous"), None, None));
            var s := Run(sizes, FIRST, [good, failed]);
            s.state.Onboarded? && s.updater.token == "token" && s.command.token == "anonymous"
  {
    var good := InitOnboarded(true, Author("thing", "token"));
    var failed := Onboard(Attempt(Some("anonymous"), None, None));
    RunLast(sizes, FIRST, [good], failed);
    RunLast(sizes, FIRST, [], good);
    assert [good] + [failed] == [good, failed] && [] + [good] == [good];
    assert Run(sizes, FIRST, []) == FIRST;
  }

  /** Only a commit onboards, and only initialising again ends it. */
  lemma StateChanges(sizes: Sizes, calls: seq<Call>, call: Call)
    ensures var s := Run(sizes, FIRST, calls);
            var t := Next(sizes, s, call);
            && (!s.state.Onboarded? && t.state.Onboarded? ==> Commits(sizes, s, call))
            && (s.state.Onboarded? && !t.state.Onboarded? ==> call.Init? || call.InitOnboarded?)
            && !t.state.AlreadyStarted?
  {
    UpdaterCredentials(sizes, calls);
  }

  /** The starts that were accepted: those that subscribed while an onboarding was in force. */
  function AcceptedStarts(sizes: Sizes, calls: seq<Call>): nat
    decreases |calls|
  {
    if calls == [] then 0
    else
      var before, last := calls[..|calls| - 1], calls[|calls| - 1];
      AcceptedStarts(sizes, before)
      + if last.Start? && last.subscribed && LatestCommit(sizes, before).Some? then 1 else 0
  }

  /** Tasks are created by accepted starts only, one for each. */
  lemma {:induction false} TasksAreAcceptedStarts(sizes: Sizes, calls: seq<Call>)
    ensures Run(sizes, FIRST, calls).tasks == AcceptedStarts(sizes, calls)
    decreases |calls|
  {
    if calls != [] {
      var before, last := calls[..|calls| - 1], calls[|calls| - 1];
      assert calls == before + [last];
      TasksAreAcceptedStarts(sizes, before);
      UpdaterCredentials(sizes, before);
      RunLast(sizes, FIRST, before, last);
    }
  }

  /** A start does not record itself, so that every further start of an onboarded instance is accepted again. */
  lemma {:induction false} StartsRepeat(sizes: Sizes, s: Sdk, n: nat)
    requires s.state.Onboarded?
    ensures Run(sizes, s, seq(n, _ => Call.Start(true))) == s.(tasks := s.tasks + n)
    decreases n
  {
    if n > 0 {
      var calls := seq(n, _ => Call.Start(true));
      var before := seq(n - 1, _ => Call.Start(true));
      assert calls == before + [Call.Start(true)];
      StartsRepeat(sizes, s, n - 1);
      RunLast(sizes, s, before, Call.Start(true));
    }
  }
}
