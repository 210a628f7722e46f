/** Concrete cases of the handlers on small rosters. */
module Scenarios {
  import opened Options
  import opened Text
  import opened Roster
  import opened Mentions
  import opened Handlers

  const Group := ChatRef("-100", Some("Group"), None)
  const Alice := Sender("1", None, Some("Alice"))

  /** A user with no username but a first name is mentioned by a link labelled with that
      name and pointing at their id. */
  lemma NameLinkForUserWithoutUsername()
    ensures MentionList([("42", User(None, "Ann", "2024-01-01T00:00:00+00:00", Some(true)))], "999")
         == ["[Ann](tg://user?id=42)"]
  {
    var p := ("42", User(None, "Ann", "2024-01-01T00:00:00+00:00", Some(true)));
    assert Targets([p], "999") == [p];
    assert Link("42") == "(tg://user?id=42)";
    assert Token(p.0, p.1) == "[Ann]" + Link("42");
    assert Tokens([p]) == [Token(p.0, p.1)];
    assert "[Ann]" + Link("42") == "[Ann](tg://user?id=42)";
  }

  /** A subscribed sender alone with a never-subscribed user gets the empty-list notice. */
  lemma NobodyToPing()
    ensures EveryoneReply("-100", [("1", User(None, "P1", "t", Some(true))), ("2", User(None, "P2", "t", Some(false)))], "1")
         == Outbound("-100", NoOneText, false)
  {
    var us := [("1", User(None, "P1", "t", Some(true))), ("2", User(None, "P2", "t", Some(false)))];
    assert Targets(us, "1") == [];
  }

  function AliceRecord(flag: bool): User {
    User(None, "Alice", "t1", Some(flag))
  }

  function GroupWithAlice(flag: bool): Document {
    Document(map["-100" := Chat("Group", [("1", AliceRecord(flag))])])
  }

  lemma SubscribeText()
    ensures !Contains(Lower("@Subscribe"), UnsubscribeKeyword) && Contains(Lower("@Subscribe"), SubscribeKeyword)
  {
    var t := Lower("@Subscribe");
    assert forall i | 0 <= i < |t| :: t[i] == "@subscribe"[i];
    assert t == "@subscribe";
    assert IsPrefix(SubscribeKeyword, t);
  }

  lemma EveryoneText()
    ensures !Contains(Lower("@everyone"), UnsubscribeKeyword) && !Contains(Lower("@everyone"), SubscribeKeyword)
    ensures Contains(Lower("@everyone"), EveryoneKeyword)
  {
    assert Lower("@everyone") == "@everyone";
    assert IsPrefix(EveryoneKeyword, "@everyone");
  }

  /** A first message without a keyword registers Alice, opted out, and greets her. */
  lemma FirstMessageRegistersOptedOut()
    ensures var s := KeywordTrigger(Document(map[]), MessageEvent(Some(Group), Some(Alice), Some("hi")), "t1");
      s.doc == GroupWithAlice(false) && s.saves == 1 && s.sent == [Outbound("-100", Welcome(Alice), false)]
  {
    var d0 := Document(map[]);
    var ev := MessageEvent(Some(Group), Some(Alice), Some("hi"));
    CollectUserEffect(d0, Group, Alice, "t1");
    assert NewUser(Alice, "t1") == AliceRecord(false);
    var reg := CollectUser(d0, Some(Group), Some(Alice), "t1");
    assert reg.doc.chats["-100"] == Chat("Group", [("1", AliceRecord(false))]);
    assert reg.doc.chats.Keys == {"-100"};
    assert reg.doc == GroupWithAlice(false);
    assert Lower("hi") == "hi";
    assert Matches("hi") == NoKeyword;
    KeywordTriggerShape(d0, ev, "t1");
  }

  /** Alice, registered and opted out, sends "@Subscribe": she is opted in with one save. */
  lemma SubscribeOptsIn()
    ensures var s := KeywordTrigger(GroupWithAlice(false), MessageEvent(Some(Group), Some(Alice), Some("@Subscribe")), "t2");
      s.saves == 1 && s.sent == [Outbound("-100", SubscribedText, false)]
      && Find(UsersOf(s.doc, "-100"), "1") == Some(AliceRecord(true))
  {
    var d := GroupWithAlice(false);
    var ev := MessageEvent(Some(Group), Some(Alice), Some("@Subscribe"));
    CollectKnownUser(d, Group, Alice, "t2");
    SubscribeText();
    assert Matches("@Subscribe") == SubscribeBranch;
    var r := Subscribe(d, "-100", "1");
    assert Find(UsersOf(d, "-100"), "1") == Some(AliceRecord(false));
    assert r.saves == 1 && r.sent == [Outbound("-100", SubscribedText, false)];
    assert Dispatch(d, ev) == r;
  }

  /** Her own `@everyone` finds nobody else to mention: the sender is never pinged. */
  lemma PingAloneFindsNobody()
    ensures var s := KeywordTrigger(GroupWithAlice(true), MessageEvent(Some(Group), Some(Alice), Some("@everyone")), "t3");
      s.doc == GroupWithAlice(true) && s.saves == 0 && s.sent == [Outbound("-100", NoOneText, false)]
  {
    var d := GroupWithAlice(true);
    var ev := MessageEvent(Some(Group), Some(Alice), Some("@everyone"));
    CollectKnownUser(d, Group, Alice, "t3");
    EveryoneText();
    assert Matches("@everyone") == EveryoneBranch;
    assert Targets(UsersOf(d, "-100"), "1") == [];
    var r := Everyone(d, "-100", "1");
    assert r == Step(d, [Outbound("-100", NoOneText, false)], 0);
    assert Dispatch(d, ev) == r;
  }
}
