/**
 Concrete messages on which expectations fail: one whose first alias has no action, and one whose only action is an
 object without a name.
 */
module Examples {
  import opened Basics
  import opened Scanner
  import opened ScannerFacts
  import opened Tokens
  import opened Api
  import opened Fields
  import opened Walk
  import opened Printing
  import opened Results
  import opened CommandFacts

  // ---- A command whose list of aliases is still open. ----

  const COMMAND := "{\"commandID\":"
  const FRONT := COMMAND + "\"c\",\"actions\":"

  lemma FrontStands(back: string)
    ensures var s := FRONT + back;
            && |s| == 27 + |back| && At(s, 27, back)
            && At(s, 2, "commandID") && At(s, 14, "c") && At(s, 18, "actions")
            && s[0] == '{' && s[1] == '"' && s[11] == '"' && s[12] == ':' && s[13] == '"' && s[14] == 'c'
            && s[15] == '"' && s[16] == ',' && s[17] == '"' && s[25] == '"' && s[26] == ':'
  {
    var s := FRONT + back;
    assert |COMMAND| == 13 && |FRONT| == 27;
    assert COMMAND[2..11] == "commandID" && FRONT[2..11] == COMMAND[2..11];
    forall i | 0 <= i < 27 ensures s[i] == FRONT[i] {
    }
    assert FRONT[14..15] == "c" && FRONT[18..25] == "actions";
    assert s[2..11] == FRONT[2..11] && s[14..15] == FRONT[14..15] && s[18..25] == FRONT[18..25];
    assert s[27..27 + |back|] == back;
  }

  function CommandTree(hi: nat, aliases: Tree): Tree {
    Obj(0, hi, [Pair(Span(2, 11), Str(14, 15)), Pair(Span(18, 25), aliases)])
  }

  lemma StringsStand(back: string)
    requires back != []
    ensures var s, hi := FRONT + back, 27 + |back|;
            && |s| == hi && StringEnd(s, hi, 2) == Some(11) && StringEnd(s, hi, 14) == Some(15)
            && StringEnd(s, hi, 18) == Some(25)
            && Text(s, Span(2, 11)) == "commandID" && Text(s, Span(18, 25)) == "actions"
  {
    hide StringEnd, FRONT, Text;
    var s, hi := FRONT + back, 27 + |back|;
    FrontStands(back);
    PlainIsClean("actions");
    PlainIsClean("commandID");
    PlainIsClean("c");
    StringAt(s, hi, 18, "actions");
    StringAt(s, hi, 2, "commandID");
    StringAt(s, hi, 14, "c");
    AtIsText(s, 2, "commandID");
    AtIsText(s, 18, "actions");
  }

  /** The command that a front and a list of aliases make. */
  lemma CommandReads(back: string, aliases: Tree)
    requires back != [] && back[0] == '[' && back[|back| - 1] == '}'
    requires Value(FRONT + back, 27 + |back|, 27) == Ok(aliases, 26 + |back|)
    ensures var s, hi := FRONT + back, 27 + |back|;
            && |s| == hi && Document(s, 0, hi) == Some(CommandTree(hi, aliases))
            && Text(s, Span(2, 11)) == "commandID" && Text(s, Span(18, 25)) == "actions"
  {
    hide Elements, Member, Members, Value, StringEnd, FRONT, Text, At;
    var s, hi := FRONT + back, 27 + |back|;
    FrontStands(back);
    AtChar(s, 27, back, 0);
    AtChar(s, 27, back, |back| - 1);
    StringsStand(back);
    LastMember(s, hi, aliases);
    FirstMember(s, hi, Members(s, hi, 17).v);
    ValueStep(s, hi, 0);
    var id, actions := Pair(Span(2, 11), Str(14, 15)), Pair(Span(18, 25), aliases);
    assert [id] + [actions] == [id, actions];
  }

  lemma FirstMember(s: string, hi: nat, rest: seq<Pair>)
    requires 28 < hi == |s| && s[1] == '"' && StringEnd(s, hi, 2) == Some(11) && s[12] == ':'
    requires s[13] == '"' && StringEnd(s, hi, 14) == Some(15) && s[16] == ',' && s[17] == '"'
    requires Members(s, hi, 17) == Ok(rest, hi)
    ensures Members(s, hi, 1) == Ok([Pair(Span(2, 11), Str(14, 15))] + rest, hi)
  {
    hide Member, Members, Value, StringEnd;
    ValueStep(s, hi, 13);
    MemberStep(s, hi, 1);
    MembersStep(s, hi, 1);
  }

  lemma LastMember(s: string, hi: nat, aliases: Tree)
    requires 28 < hi == |s| && s[17] == '"' && StringEnd(s, hi, 18) == Some(25) && s[26] == ':' && s[27] == '['
    requires Value(s, hi, 27) == Ok(aliases, hi - 1) && s[hi - 1] == '}'
    ensures Members(s, hi, 17) == Ok([Pair(Span(18, 25), aliases)], hi)
  {
    hide Member, Members, Value, StringEnd;
    MemberStep(s, hi, 17);
    MembersStep(s, hi, 17);
  }

  /** Such a command is accepted when the token array and the path buffer are large enough. */
  lemma CommandAccepted(c: Scene, back: string, aliases: Tree)
    requires c.s == FRONT + back && aliases.Arr? && |c.appId| + |c.author.id| < 200
    requires back != [] && back[0] == '[' && back[|back| - 1] == '}'
    requires Value(FRONT + back, 27 + |back|, 27) == Ok(aliases, 26 + |back|)
    requires Count(CommandTree(27 + |back|, aliases)) <= c.limit
    ensures AcceptedCommand(c) == Some(Command(Span(14, 15), Some(aliases)))
  {
    hide Document, FRONT, Count, Value;
    CommandReads(back, aliases);
    var s := c.s;
    var pairs := CommandTree(27 + |back|, aliases).pairs;
    assert Find(s, pairs, "commandID") == Some(Str(14, 15));
    assert "commandID" != "actions" by {
      assert |"commandID"| == 9;
    }
    assert Find(s, pairs, "actions") == Find(s, pairs[1..], "actions") == Some(aliases);
  }

  // ---- The first alias has no action, the second has one. ----

  const BACK := "[{\"A\":[]},{\"B\":[{\"t\":1}]}]}"
  const MESSAGE := FRONT + BACK

  const ALIAS_A := Obj(28, 36, [Pair(Span(30, 31), Arr(33, 35, []))])
  const ACTION := Obj(43, 50, [Pair(Span(45, 46), Prim(48, 49))])
  const ALIAS_B := Obj(37, 52, [Pair(Span(39, 40), Arr(42, 51, [ACTION]))])
  const ALIASES := Arr(27, 53, [ALIAS_A, ALIAS_B])

  lemma BackStands()
    ensures var s := MESSAGE;
            && |s| == 54
            && s[27] == '[' && s[28] == '{' && s[29] == '"' && s[30] == 'A' && s[31] == '"' && s[32] == ':'
            && s[33] == '[' && s[34] == ']' && s[35] == '}' && s[36] == ','
            && s[37] == '{' && s[38] == '"' && s[39] == 'B' && s[40] == '"' && s[41] == ':' && s[42] == '['
            && s[43] == '{' && s[44] == '"' && s[45] == 't' && s[46] == '"' && s[47] == ':' && s[48] == '1'
            && s[49] == '}' && s[50] == ']' && s[51] == '}' && s[52] == ']' && s[53] == '}'
  {
    assert |FRONT| == 27 && |BACK| == 27;
  }

  lemma ActionParses()
    ensures |MESSAGE| == 54 && Value(MESSAGE, 54, 43) == Ok(ACTION, 50)
  {
    hide Elements, Member, Members, Value, MESSAGE;
    BackStands();
    ValueStep(MESSAGE, 54, 48);
    MemberStep(MESSAGE, 54, 44);
    MembersStep(MESSAGE, 54, 44);
    ValueStep(MESSAGE, 54, 43);
  }

  lemma AliasBParses()
    ensures |MESSAGE| == 54 && Value(MESSAGE, 54, 37) == Ok(ALIAS_B, 52)
  {
    hide Elements, Member, Members, Value, MESSAGE;
    BackStands();
    ActionParses();
    ElementsStep(MESSAGE, 54, 43);
    ValueStep(MESSAGE, 54, 42);
    MemberStep(MESSAGE, 54, 38);
    MembersStep(MESSAGE, 54, 38);
    ValueStep(MESSAGE, 54, 37);
  }

  lemma AliasAParses()
    ensures |MESSAGE| == 54 && Value(MESSAGE, 54, 28) == Ok(ALIAS_A, 36)
  {
    hide Elements, Member, Members, Value, MESSAGE;
    BackStands();
    ValueStep(MESSAGE, 54, 33);
    MemberStep(MESSAGE, 54, 29);
    MembersStep(MESSAGE, 54, 29);
    ValueStep(MESSAGE, 54, 28);
  }

  lemma AliasesParse()
    ensures |MESSAGE| == 54 && Value(MESSAGE, 54, 27) == Ok(ALIASES, 53)
  {
    hide Elements, Member, Members, Value, MESSAGE;
    BackStands();
    AliasAParses();
    AliasBParses();
    ElementsStep(MESSAGE, 54, 37);
    ElementsStep(MESSAGE, 54, 28);
    ValueStep(MESSAGE, 54, 27);
    assert [ALIAS_A] + [ALIAS_B] == [ALIAS_A, ALIAS_B];
  }

  /** The message arrives with token array and path buffer large enough. */
  predicate Arrives(c: Scene) {
    c.s == MESSAGE && Count(CommandTree(54, ALIASES)) <= c.limit && |c.appId| + |c.author.id| < 200
  }

  lemma MessageAccepted(c: Scene)
    requires Arrives(c)
    ensures AcceptedCommand(c) == Some(Command(Span(14, 15), Some(ALIASES)))
    ensures Listed(c) == [Site(1, 0, Span(39, 40), Span(45, 46), Span(48, 49))] && TroubleOf(c).NoTrouble?
  {
    hide AcceptedCommand, Value, Count;
    AliasesParse();
    assert |BACK| == 27 && BACK[0] == '[' && BACK[26] == '}';
    CommandAccepted(c, BACK, ALIASES);
    ListReached(SetupOf(c));
  }

  lemma ListReached(c: Setup)
    ensures Reached(c, 0, ALIASES.elems) == ([Site(1, 0, Span(39, 40), Span(45, 46), Span(48, 49))], NoTrouble)
  {
    assert ALIAS_B.pairs[0].value.elems == [ACTION] && [ACTION][1..] == [];
    var acts := [Site(1, 0, Span(39, 40), Span(45, 46), Span(48, 49))];
    assert SitesOfActions(1, 0, Span(39, 40), [ACTION]) == acts + SitesOfActions(1, 1, Span(39, 40), []);
    assert EndsWell([ACTION]);
    assert ALIASES.elems[1..] == [ALIAS_B] && [ALIAS_B][1..] == [];
    assert Reached(c, 2, []) == ([], NoTrouble);
    assert SitesOfActions(1, 0, Span(39, 40), [ACTION]) == acts;
    assert Listing(c, ALIAS_B.pairs[0].value) == Some(Arr(42, 51, [ACTION]));
    assert acts + [] == acts && [] + acts == acts;
    assert Reached(c, 1, [ALIAS_B]) == (acts, NoTrouble);
  }

  /** The one call that the message can cause. */
  lemma MessageCalls(c: Scene)
    requires Arrives(c)
    ensures ActionsOf(c.s, Listed(c)) == [Action("B", "t", "1")]
    ensures WalkStarts(c) && TextsFit(c) ==> Handle(c).sites == Listed(c)
  {
    hide Handle, Listed, TroubleOf, AcceptedCommand, TextsFit;
    MessageAccepted(c);
    MessageTrace(c);
    BackStands();
    assert c.s[39..40] == "B" && c.s[45..46] == "t" && c.s[48..49] == "1";
  }

  /**
   The results of this message, which are sent when they fit, start with a comma, so that no receiver reads in them
   what was handled.
   */
  lemma LeadingComma(c: Scene)
    requires Arrives(c)
    ensures ResultsSendable(c) <==>
              c.server.room(c.log).Some? && |BodyText(ResultEntries(c))| <= c.server.room(c.log).value
    ensures !FirstActs(c)
    ensures Decode(ResultsRequest(c)[1].body) != Some(Meanings(ResultEntries(c)))
  {
    hide Listed, TroubleOf, AcceptedCommand, Decode, Meanings, Reached, BodyText, MESSAGE, FirstActs;
    MessageAccepted(c);
    CommasOfResults(c);
    EntryAt(SetupOf(c), [], Listed(c), 0);
    assert ResultEntries(c)[0].comma;
    ReceiverReadsResults(c);
  }

  /** When its one result does not fit, the message is left with terminators in it. */
  lemma LeftoverTerminators(c: Scene)
    requires Arrives(c) && c.server.room(c.log) == Some(20)
    ensures Handle(c).message != c.s
  {
    hide Handle, Listed, TroubleOf, AcceptedCommand, EntryText, MESSAGE;
    MessageAccepted(c);
    EntryAt(SetupOf(c), [], Listed(c), 0);
    var es := ResultEntries(c);
    EntryShape(es[0].name, es[0].reply);
    assert |ItemsText(es)| >= |ItemText(es[0])| >= 3;
    MessageRestored(c);
  }

  // ---- The only action has no name. ----

  const NAMELESS := "[{\"A\":[{}]}]}"
  const BROKEN := FRONT + NAMELESS

  const BARE_ALIAS := Obj(28, 38, [Pair(Span(30, 31), Arr(33, 37, [Obj(34, 36, [])]))])
  const BARE_ALIASES := Arr(27, 39, [BARE_ALIAS])

  lemma NamelessStands()
    ensures var s := BROKEN;
            && |s| == 40
            && s[27] == '[' && s[28] == '{' && s[29] == '"' && s[30] == 'A' && s[31] == '"' && s[32] == ':'
            && s[33] == '[' && s[34] == '{' && s[35] == '}' && s[36] == ']' && s[37] == '}' && s[38] == ']'
            && s[39] == '}'
  {
    assert |FRONT| == 27 && |NAMELESS| == 13;
  }

  lemma NamelessParses()
    ensures |BROKEN| == 40 && Value(BROKEN, 40, 27) == Ok(BARE_ALIASES, 39)
  {
    hide Elements, Member, Members, Value, BROKEN;
    NamelessStands();
    ValueStep(BROKEN, 40, 34);
    ElementsStep(BROKEN, 40, 34);
    ValueStep(BROKEN, 40, 33);
    MemberStep(BROKEN, 40, 29);
    MembersStep(BROKEN, 40, 29);
    ValueStep(BROKEN, 40, 28);
    ElementsStep(BROKEN, 40, 28);
    ValueStep(BROKEN, 40, 27);
  }

  /** However much room there is, this message has no call made, no result sent, and is left with a terminator in it. */
  lemma UnreadableAction(c: Scene)
    requires c.s == BROKEN && Count(CommandTree(40, BARE_ALIASES)) <= c.limit && |c.appId| + |c.author.id| < 200
    ensures Handle(c).sites == [] && !ResultsSendable(c)
    ensures WalkStarts(c) ==> Handle(c).message != c.s
  {
    hide AcceptedCommand, Value, Count, Handle, Requests;
    NamelessParses();
    assert |NAMELESS| == 13 && NAMELESS[0] == '[' && NAMELESS[12] == '}';
    CommandAccepted(c, NAMELESS, BARE_ALIASES);
    assert !EndsWell([Obj(34, 36, [])]);
    assert ReachedIn(SetupOf(c), Some(BARE_ALIASES)) == ([], AtAction(Span(30, 31)));
    NoText(SetupOf(c), []);
    MessageTrace(c);
    MessageRestored(c);
  }
}
