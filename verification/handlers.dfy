/** The two update handlers of bot.py, `keyword_trigger` and `handle_member_update`, as
    pure steps from a document to a new document, the messages sent and the saves done. */
module Handlers {
  import opened Options
  import opened Text
  import opened Roster
  import opened Mentions

  const UnsubscribeKeyword := "@unsubscribe"
  const SubscribeKeyword := "@subscribe"
  const EveryoneKeyword := "@everyone"

  const UnsubscribedText := "You have been unsubscribed from @everyone notifications."
  const AlreadyUnsubscribedText := "You are already unsubscribed from @everyone notifications."
  const SubscribedText := "You have been subscribed to @everyone notifications."
  const AlreadySubscribedText := "You are already subscribed to @everyone notifications."

  /** A text message update: the chat, the sender and `update.message.text`, each of which
      the update may lack. The text is absent for an edited message, whose sender is still
      registered before the handler stops, and for a channel post, which has no sender and
      so registers nobody. */
  datatype MessageEvent = MessageEvent(chat: Option<ChatRef>, sender: Option<Sender>, text: Option<string>)

  /** A chat-member update; `change` is `update.chat_member`, absent for other updates. */
  datatype MemberChange = MemberChange(userId: string, status: string)
  datatype MemberEvent = MemberEvent(chatId: string, change: Option<MemberChange>)

  /** An update as the polling loop receives it. `plainText` says whether a message passes
      the filter `filters.TEXT & ~filters.COMMAND` that routes it to `keyword_trigger`: it
      has text and is not a bot command. */
  datatype Event = Message(msg: MessageEvent, plainText: bool) | Member(member: MemberEvent)

  function Last(ms: seq<Outbound>): Outbound
    requires ms != []
  {
    ms[|ms| - 1]
  }

  /** `a` followed by `b`: messages in order, saves added up. */
  function Then(a: Step, b: Step): Step {
    Step(b.doc, a.sent + b.sent, a.saves + b.saves)
  }

  /** Only the record of `uid` in chat `cid` may differ; the chat keeps its title and its
      user ids in their order, and every other chat is untouched. */
  ghost predicate OnlyUserChanged(d: Document, d': Document, cid: string, uid: string) {
    && cid in d.chats && cid in d'.chats
    && d'.chats[cid].title == d.chats[cid].title
    && |UsersOf(d', cid)| == |UsersOf(d, cid)|
    && (forall i | 0 <= i < |UsersOf(d, cid)| :: UsersOf(d', cid)[i].0 == UsersOf(d, cid)[i].0)
    && (forall k | k != uid :: Find(UsersOf(d', cid), k) == Find(UsersOf(d, cid), k))
    && OthersUnchanged(d, d', cid)
  }

  /** Mutating `user_entry` in place: the record of `uid` in `cid` becomes `u`. */
  function Store(d: Document, cid: string, uid: string, u: User): (r: Document)
    requires cid in d.chats && uid in Keys(d.chats[cid].users)
    ensures OnlyUserChanged(d, r, cid, uid)
    ensures Find(UsersOf(r, cid), uid) == Some(u)
    ensures Valid(d) ==> Valid(r)
  {
    var c := d.chats[cid];
    Document(d.chats[cid := c.(users := Replace(c.users, uid, u))])
  }

  /** The `@unsubscribe` branch. A sender whose flag is true or absent is switched off
      with a save; anyone else, including an unknown sender, only gets the notice that
      they already are. */
  function Unsubscribe(d: Document, cid: string, uid: string): (r: Step)
    ensures |r.sent| == 1 && r.sent[0].chatId == cid && !r.sent[0].markdown
    ensures var f := Find(UsersOf(d, cid), uid);
      && (r.saves == 1 <==> f.Some? && Subscribed(f.value))
      && (r.saves == 1 ==>
            && r.sent[0].text == UnsubscribedText
            && OnlyUserChanged(d, r.doc, cid, uid)
            && Find(UsersOf(r.doc, cid), uid) == Some(f.value.(subscribed := Some(false))))
      && (r.saves != 1 ==> r.doc == d && r.saves == 0 && r.sent[0].text == AlreadyUnsubscribedText)
    ensures Valid(d) ==> Valid(r.doc)
  {
    var f := Find(UsersOf(d, cid), uid);
    if f.Some? && Subscribed(f.value) then
      Step(Store(d, cid, uid, f.value.(subscribed := Some(false))), [Outbound(cid, UnsubscribedText, false)], 1)
    else
      Step(d, [Outbound(cid, AlreadyUnsubscribedText, false)], 0)
  }

  /** The `@subscribe` branch, for a sender already registered in the chat. The flag ends
      up exactly true; it is written, with a save, unless it already was exactly true. */
  function Subscribe(d: Document, cid: string, uid: string): (r: Step)
    requires cid in d.chats && uid in Keys(d.chats[cid].users)
    ensures |r.sent| == 1 && r.sent[0].chatId == cid && !r.sent[0].markdown
    ensures var u := Find(UsersOf(d, cid), uid).value;
      && Find(UsersOf(r.doc, cid), uid) == Some(u.(subscribed := Some(true)))
      && (r.saves == 1 <==> u.subscribed != Some(true))
      && (r.saves == 1 ==> r.sent[0].text == SubscribedText && OnlyUserChanged(d, r.doc, cid, uid))
      && (r.saves != 1 ==> r.doc == d && r.saves == 0 && r.sent[0].text == AlreadySubscribedText)
    ensures Valid(d) ==> Valid(r.doc)
  {
    var u := Find(UsersOf(d, cid), uid).value;
    if u.subscribed != Some(true) then
      Step(Store(d, cid, uid, u.(subscribed := Some(true))), [Outbound(cid, SubscribedText, false)], 1)
    else
      assert u.(subscribed := Some(true)) == u;
      Step(d, [Outbound(cid, AlreadySubscribedText, false)], 0)
  }

  /** A second `@unsubscribe` finds the sender already opted out: nothing changes, nothing
      is saved, and the "already" notice is sent. */
  lemma UnsubscribeIdempotent(d: Document, cid: string, uid: string)
    ensures var first := Unsubscribe(d, cid, uid);
            Unsubscribe(first.doc, cid, uid) == Step(first.doc, [Outbound(cid, AlreadyUnsubscribedText, false)], 0)
  {
  }

  /** A second `@subscribe` finds the sender already opted in: nothing changes, nothing is
      saved, and the "already" notice is sent. */
  lemma SubscribeIdempotent(d: Document, cid: string, uid: string)
    requires cid in d.chats && uid in Keys(d.chats[cid].users)
    ensures var first := Subscribe(d, cid, uid);
            && first.doc.chats.Keys == d.chats.Keys
            && Subscribe(first.doc, cid, uid) == Step(first.doc, [Outbound(cid, AlreadySubscribedText, false)], 0)
  {
  }

  /** The `@everyone` branch: one reply, no change and no save. The reply is a Markdown
      ping exactly when someone in the chat other than the sender has not opted out. */
  function Everyone(d: Document, cid: string, uid: string): (r: Step)
    ensures r.doc == d && r.saves == 0 && |r.sent| == 1 && r.sent[0].chatId == cid
    ensures r.sent[0].markdown <==> exists p :: p in UsersOf(d, cid) && p.0 != uid && Subscribed(p.1)
  {
    Step(d, [EveryoneReply(cid, UsersOf(d, cid), uid)], 0)
  }

  /** The update carries everything `keyword_trigger` reads after registration; without
      it the handler raises and the exception is swallowed. */
  predicate Complete(ev: MessageEvent) {
    ev.chat.Some? && ev.sender.Some? && ev.text.Some?
  }

  /** The branch of `keyword_trigger` a message text selects. */
  datatype Branch = UnsubscribeBranch | SubscribeBranch | EveryoneBranch | NoKeyword

  /** Which keyword, if any, the lowercased text contains, the earlier ones taking
      precedence: `@unsubscribe`, then `@subscribe`, then `@everyone`. */
  function Matches(text: string): (m: Branch)
    ensures m == UnsubscribeBranch <==> Contains(Lower(text), UnsubscribeKeyword)
    ensures m == SubscribeBranch <==>
      !Contains(Lower(text), UnsubscribeKeyword) && Contains(Lower(text), SubscribeKeyword)
    ensures m == EveryoneBranch <==>
      !Contains(Lower(text), UnsubscribeKeyword) && !Contains(Lower(text), SubscribeKeyword)
      && Contains(Lower(text), EveryoneKeyword)
  {
    var t := Lower(text);
    if Contains(t, UnsubscribeKeyword) then UnsubscribeBranch
    else if Contains(t, SubscribeKeyword) then SubscribeBranch
    else if Contains(t, EveryoneKeyword) then EveryoneBranch
    else NoKeyword
  }

  /** What `keyword_trigger` does after registration, in the document registration left:
      the branch of the first keyword in the order `@unsubscribe`, `@subscribe`,
      `@everyone`, with exactly one reply, at most one save and at most the sender's own
      record changed; no keyword, or an incomplete update, does nothing at all. */
  function Dispatch(d: Document, ev: MessageEvent): (r: Step)
    requires Complete(ev) ==> ev.chat.value.id in d.chats && ev.sender.value.id in Keys(d.chats[ev.chat.value.id].users)
    ensures |r.sent| <= 1 && r.saves <= 1
    ensures |r.sent| == 1 <==> Complete(ev) && Matches(ev.text.value) != NoKeyword
    ensures |r.sent| == 0 ==> r == Step(d, [], 0)
    ensures Complete(ev) ==> r.doc == d || OnlyUserChanged(d, r.doc, ev.chat.value.id, ev.sender.value.id)
    ensures Valid(d) ==> Valid(r.doc)
  {
    if !Complete(ev) then Step(d, [], 0)
    else
      var cid, uid := ev.chat.value.id, ev.sender.value.id;
      match Matches(ev.text.value)
      case UnsubscribeBranch => Unsubscribe(d, cid, uid)
      case SubscribeBranch => Subscribe(d, cid, uid)
      case EveryoneBranch => Everyone(d, cid, uid)
      case NoKeyword => Step(d, [], 0)
  }

  /** `keyword_trigger`: register the sender, then dispatch on the keywords. */
  function KeywordTrigger(d: Document, ev: MessageEvent, now: string): (r: Step)
    ensures Valid(d) ==> Valid(r.doc)
  {
    var reg := CollectUser(d, ev.chat, ev.sender, now);
    Then(reg, Dispatch(reg.doc, ev))
  }

  /** At most one branch runs: registration's messages come first, followed by exactly one
      reply when the update is complete and names a keyword and by none otherwise; without a
      reply the step is registration alone, and with one at most one more save happens and
      at most the sender's own record changes. */
  lemma KeywordTriggerShape(d: Document, ev: MessageEvent, now: string)
    ensures var reg := CollectUser(d, ev.chat, ev.sender, now);
            var r := KeywordTrigger(d, ev, now);
      && |reg.sent| <= |r.sent| <= |reg.sent| + 1
      && r.sent[..|reg.sent|] == reg.sent
      && reg.saves <= r.saves <= reg.saves + 1
      && (|r.sent| == |reg.sent| + 1 <==> Complete(ev) && Matches(ev.text.value) != NoKeyword)
      && (|r.sent| == |reg.sent| ==> r == reg)
      && (Complete(ev) ==>
            r.doc == reg.doc || OnlyUserChanged(reg.doc, r.doc, ev.chat.value.id, ev.sender.value.id))
  {
    var reg := CollectUser(d, ev.chat, ev.sender, now);
    var b := Dispatch(reg.doc, ev);
    assert (reg.sent + b.sent)[..|reg.sent|] == reg.sent;
    if |b.sent| == 0 {
      assert reg.sent + b.sent == reg.sent;
    }
  }

  /** Keyword matching ignores case: a text and its lowercase select the same branch. */
  lemma {:induction false} MatchesIgnoresCase(text: string)
    ensures Matches(Lower(text)) == Matches(text)
  {
    LowerIdempotent(text);
  }

  /** `@unsubscribe` wins over everything else in the text: afterwards the sender is
      registered and opted out, and the reply is one of the two unsubscribe notices. */
  lemma UnsubscribeTakesPrecedence(d: Document, ev: MessageEvent, now: string)
    requires Complete(ev) && Contains(Lower(ev.text.value), UnsubscribeKeyword)
    ensures var r := KeywordTrigger(d, ev, now);
            var f := Find(UsersOf(r.doc, ev.chat.value.id), ev.sender.value.id);
      && f.Some? && !Subscribed(f.value)
      && Last(r.sent).text in {UnsubscribedText, AlreadyUnsubscribedText}
  {
    var reg := CollectUser(d, ev.chat, ev.sender, now);
    var cid, uid := ev.chat.value.id, ev.sender.value.id;
    assert Matches(ev.text.value) == UnsubscribeBranch;
    var b := Unsubscribe(reg.doc, cid, uid);
    assert Dispatch(reg.doc, ev) == b;
    assert KeywordTrigger(d, ev, now) == Then(reg, b);
  }

  /** `@subscribe` without `@unsubscribe` leaves the sender's flag exactly true, and the
      reply is one of the two subscribe notices. */
  lemma SubscribeComesSecond(d: Document, ev: MessageEvent, now: string)
    requires Complete(ev)
    requires !Contains(Lower(ev.text.value), UnsubscribeKeyword)
    requires Contains(Lower(ev.text.value), SubscribeKeyword)
    ensures var r := KeywordTrigger(d, ev, now);
            var f := Find(UsersOf(r.doc, ev.chat.value.id), ev.sender.value.id);
      && f.Some? && f.value.subscribed == Some(true)
      && Last(r.sent).text in {SubscribedText, AlreadySubscribedText}
  {
    var reg := CollectUser(d, ev.chat, ev.sender, now);
    var cid, uid := ev.chat.value.id, ev.sender.value.id;
    assert Matches(ev.text.value) == SubscribeBranch;
    var b := Subscribe(reg.doc, cid, uid);
    assert Find(UsersOf(b.doc, cid), uid).value.subscribed == Some(true);
    assert b.sent[0].text in {SubscribedText, AlreadySubscribedText};
    assert Dispatch(reg.doc, ev) == b;
    var r := Then(reg, b);
    assert KeywordTrigger(d, ev, now) == r;
    assert r.doc == b.doc && Last(r.sent) == b.sent[0];
  }

  /** `@everyone` alone changes nothing beyond registration and saves nothing more; its
      one reply is the mention list of the chat as registration left it. */
  lemma EveryoneComesLast(d: Document, ev: MessageEvent, now: string)
    requires Complete(ev)
    requires !Contains(Lower(ev.text.value), UnsubscribeKeyword)
    requires !Contains(Lower(ev.text.value), SubscribeKeyword)
    requires Contains(Lower(ev.text.value), EveryoneKeyword)
    ensures var reg := CollectUser(d, ev.chat, ev.sender, now);
            var r := KeywordTrigger(d, ev, now);
      && r.doc == reg.doc && r.saves == reg.saves
      && r.sent == reg.sent + [EveryoneReply(ev.chat.value.id, UsersOf(reg.doc, ev.chat.value.id), ev.sender.value.id)]
  {
  }

  /** For a legacy record without a `subscribed` key, both commands report a change: the
      unsubscribe test reads the missing flag as true, the subscribe test as not true. */
  lemma LegacyRecordChangesEitherWay(d: Document, cid: string, uid: string, u: User)
    requires cid in d.chats && Find(d.chats[cid].users, uid) == Some(u) && u.subscribed.None?
    ensures Unsubscribe(d, cid, uid).sent[0].text == UnsubscribedText
    ensures Subscribe(d, cid, uid).sent[0].text == SubscribedText
  {
  }

  /** A member whose new status is `left` or `kicked` has departed. */
  predicate Departed(status: string) {
    status == "left" || status == "kicked"
  }

  /** `handle_member_update`: a departed member is deleted from that chat, with a save when
      there was a record to delete; nothing else changes and nothing is sent. */
  function HandleMemberUpdate(d: Document, ev: MemberEvent): (r: Step)
    ensures r.sent == []
    ensures var cid := ev.chatId;
      if ev.change.Some? && Departed(ev.change.value.status) && ev.change.value.userId in Keys(UsersOf(d, cid)) then
        var uid := ev.change.value.userId;
        && r.saves == 1
        && cid in d.chats && cid in r.doc.chats
        && r.doc.chats[cid].title == d.chats[cid].title
        && Keys(UsersOf(r.doc, cid)) == Keys(UsersOf(d, cid)) - {uid}
        && (forall k | k != uid :: Find(UsersOf(r.doc, cid), k) == Find(UsersOf(d, cid), k))
        && IsSubseq(UsersOf(r.doc, cid), UsersOf(d, cid))
        && OthersUnchanged(d, r.doc, cid)
      else r == Step(d, [], 0)
    ensures Valid(d) ==> Valid(r.doc)
  {
    if ev.change.None? || !Departed(ev.change.value.status) then Step(d, [], 0)
    else
      var cid, uid := ev.chatId, ev.change.value.userId;
      if uid in Keys(UsersOf(d, cid)) then
        var c := d.chats[cid];
        Step(Document(d.chats[cid := c.(users := Remove(c.users, uid))]), [], 1)
      else Step(d, [], 0)
  }

  /** Right after a departure the member has no record in that chat, so the mention
      targets of that roster exclude them, whoever the sender is. */
  lemma {:induction false} DepartedNeverMentioned(d: Document, ev: MemberEvent, sender: string)
    requires ev.change.Some? && Departed(ev.change.value.status)
    ensures var users := UsersOf(HandleMemberUpdate(d, ev).doc, ev.chatId);
      forall p | p in Targets(users, sender) :: p.0 != ev.change.value.userId
  {
    var uid := ev.change.value.userId;
    var users := UsersOf(HandleMemberUpdate(d, ev).doc, ev.chatId);
    DepartedHasNoRecord(d, ev);
    forall p | p in Targets(users, sender)
      ensures p.0 != uid
    {
      KeysMember(users, p);
    }
  }

  /** A departure leaves no record of the member in that chat. */
  lemma DepartedHasNoRecord(d: Document, ev: MemberEvent)
    requires ev.change.Some? && Departed(ev.change.value.status)
    ensures ev.change.value.userId !in Keys(UsersOf(HandleMemberUpdate(d, ev).doc, ev.chatId))
  {
    if ev.change.value.userId !in Keys(UsersOf(d, ev.chatId)) {
      assert HandleMemberUpdate(d, ev).doc == d;
    }
  }

  /** The next message in that chat, whoever sends it, first registers its sender; the
      roster that registration leaves still gives the departed member no mention, so an
      `@everyone` in that message does not ping them. Only writing again brings them back,
      and then as the sender, whom their own `@everyone` never mentions. */
  lemma {:induction false} NextMessageSkipsDeparted(d: Document, ev: MemberEvent, msg: MessageEvent, now: string)
    requires ev.change.Some? && Departed(ev.change.value.status)
    requires Complete(msg) && msg.chat.value.id == ev.chatId
    ensures var reg := CollectUser(HandleMemberUpdate(d, ev).doc, msg.chat, msg.sender, now);
      forall p | p in Targets(UsersOf(reg.doc, ev.chatId), msg.sender.value.id) :: p.0 != ev.change.value.userId
    ensures var reg := CollectUser(HandleMemberUpdate(d, ev).doc, msg.chat, msg.sender, now);
      ev.change.value.userId in Keys(UsersOf(reg.doc, ev.chatId)) <==> msg.sender.value.id == ev.change.value.userId
  {
    var uid, cid, sid := ev.change.value.userId, ev.chatId, msg.sender.value.id;
    var left := HandleMemberUpdate(d, ev).doc;
    var users := UsersOf(CollectUser(left, msg.chat, msg.sender, now).doc, cid);
    DepartedHasNoRecord(d, ev);
    CollectUserKeys(left, msg.chat.value, msg.sender.value, now);
    forall p | p in Targets(users, sid)
      ensures p.0 != uid
    {
      KeysMember(users, p);
    }
  }

  /** Leaving undoes joining: a user registered by a message and then departing leaves the
      chat's roster exactly as it was before they wrote. */
  lemma LeaveUndoesJoin(d: Document, c: ChatRef, u: Sender, now: string, status: string)
    requires u.id !in Keys(UsersOf(d, c.id)) && Departed(status)
    ensures var joined := CollectUser(d, Some(c), Some(u), now).doc;
            var left := HandleMemberUpdate(joined, MemberEvent(c.id, Some(MemberChange(u.id, status)))).doc;
            UsersOf(left, c.id) == UsersOf(d, c.id)
  {
    var joined := CollectUser(d, Some(c), Some(u), now).doc;
    CollectUserEffect(d, c, u, now);
    RemoveAppended(UsersOf(d, c.id), u.id, NewUser(u, now));
  }

  /** One update, dispatched to the handler whose filter accepts it: a plain text message
      to `keyword_trigger`, a chat-member update to `handle_member_update`. A command or a
      message without text reaches no handler, so nobody is registered or pinged. */
  function Handle(d: Document, e: Event, now: string): (r: Step)
    ensures e.Message? && !e.plainText ==> r == Step(d, [], 0)
    ensures e.Member? ==> r.sent == [] && r.saves <= 1
    ensures e.Message? && e.plainText ==> |r.sent| <= 2 && r.saves <= 2
    ensures Valid(d) ==> Valid(r.doc)
  {
    match e
    case Message(m, plainText) =>
      if plainText then
        KeywordTriggerShape(d, m, now);
        KeywordTrigger(d, m, now)
      else Step(d, [], 0)
    case Member(m) => HandleMemberUpdate(d, m)
  }

  /** The polling loop: updates handled one after another, each with the time it arrived. */
  function Run(d: Document, events: seq<(Event, string)>): (r: Step)
    ensures Valid(d) ==> Valid(r.doc)
    decreases |events|
  {
    if events == [] then Step(d, [], 0)
    else
      var first := Handle(d, events[0].0, events[0].1);
      Then(first, Run(first.doc, events[1..]))
  }
}
