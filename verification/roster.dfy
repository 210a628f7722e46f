/** The persisted roster of bot.py: `{"chats": {chat_id: {"chat_title", "users"}}}`, and the
    registration step `collect_user` that every text message goes through first. */
module Roster {
  import opened Options

  /** One participant of one chat. `subscribed` is `None` for a legacy record that has no
      such key; the source reads that as "subscribed". */
  datatype User = User(username: Option<string>, firstName: string, joinedAt: string, subscribed: Option<bool>)

  /** The `users` object of a chat: user id to record, in insertion order, as a Python
      dict iterates. */
  type Users = seq<(string, User)>

  datatype Chat = Chat(title: string, users: Users)

  /** The whole stored document; the map is the value of its `chats` key. */
  datatype Document = Document(chats: map<string, Chat>)

  /** A message sent back to a chat; `markdown` is `parse_mode="Markdown"`. */
  datatype Outbound = Outbound(chatId: string, text: string, markdown: bool)

  /** What handling one event does: the new document, the messages sent in order, and how
      many times the whole document was written back to disk. */
  datatype Step = Step(doc: Document, sent: seq<Outbound>, saves: nat)

  /** The chat and sender of an update, as far as the handlers read them. */
  datatype ChatRef = ChatRef(id: string, title: Option<string>, username: Option<string>)
  datatype Sender = Sender(id: string, username: Option<string>, firstName: Option<string>)

  function Keys(us: Users): set<string> {
    if us == [] then {} else {us[0].0} + Keys(us[1..])
  }

  /** No user id occurs twice: a list that can stand for a Python dict. */
  predicate UniqueKeys(us: Users) {
    us == [] || (us[0].0 !in Keys(us[1..]) && UniqueKeys(us[1..]))
  }

  predicate Valid(d: Document) {
    forall cid | cid in d.chats :: UniqueKeys(d.chats[cid].users)
  }

  /** The users of a chat, or none when the chat is unknown (`.get(chat_id, {})`). */
  function UsersOf(d: Document, cid: string): (r: Users)
    ensures cid !in d.chats ==> r == []
    ensures Valid(d) ==> UniqueKeys(r)
  {
    if cid in d.chats then d.chats[cid].users else []
  }

  /** `subscribed` read with default `True`. */
  predicate Subscribed(u: User): (b: bool)
    ensures b <==> u.subscribed.None? || u.subscribed.value
  {
    u.subscribed != Some(false)
  }

  /** `a` keeps the order of the elements of `b` that it holds. */
  ghost predicate IsSubseq(a: Users, b: Users)
    decreases |a| + |b|
  {
    if a == [] then true
    else if b == [] then false
    else if a[0] == b[0] then IsSubseq(a[1..], b[1..])
    else IsSubseq(a, b[1..])
  }

  lemma {:induction false} KeysMember(us: Users, p: (string, User))
    requires p in us
    ensures p.0 in Keys(us)
  {
    if us[0] != p {
      KeysMember(us[1..], p);
    }
  }

  lemma {:induction false} KeysAppend(us: Users, p: (string, User))
    ensures Keys(us + [p]) == Keys(us) + {p.0}
    ensures UniqueKeys(us) && p.0 !in Keys(us) ==> UniqueKeys(us + [p])
  {
    if us != [] {
      assert (us + [p])[1..] == us[1..] + [p];
      KeysAppend(us[1..], p);
    }
  }

  /** `users.get(user_id)`. */
  function Find(us: Users, uid: string): (r: Option<User>)
    ensures r.Some? <==> uid in Keys(us)
    ensures r.Some? ==> (uid, r.value) in us
  {
    if us == [] then None
    else if us[0].0 == uid then Some(us[0].1)
    else Find(us[1..], uid)
  }

  /** In a dict-like list, the record stored under a key is the one found. */
  lemma {:induction false} FindMember(us: Users, uid: string, u: User)
    requires UniqueKeys(us) && (uid, u) in us
    ensures Find(us, uid) == Some(u)
  {
    if us[0] != (uid, u) {
      KeysMember(us[1..], (uid, u));
      FindMember(us[1..], uid, u);
    }
  }

  /** Appending a fresh key makes it findable and hides nothing that was there. */
  lemma {:induction false} FindAppend(us: Users, uid: string, u: User, k: string)
    requires uid !in Keys(us)
    ensures Find(us + [(uid, u)], k) == if k == uid then Some(u) else Find(us, k)
  {
    if us != [] {
      assert (us + [(uid, u)])[1..] == us[1..] + [(uid, u)];
      FindAppend(us[1..], uid, u, k);
    }
  }

  /** `users[uid] = u` for a key that is already present: the record changes in place. */
  function Replace(us: Users, uid: string, u: User): (r: Users)
    ensures |r| == |us|
    ensures forall i | 0 <= i < |us| :: r[i].0 == us[i].0
    ensures Keys(r) == Keys(us)
    ensures UniqueKeys(us) ==> UniqueKeys(r)
    ensures uid in Keys(us) ==> Find(r, uid) == Some(u)
    ensures forall k | k != uid :: Find(r, k) == Find(us, k)
  {
    if us == [] then []
    else if us[0].0 == uid then [(uid, u)] + Replace(us[1..], uid, u)
    else [us[0]] + Replace(us[1..], uid, u)
  }

  /** `del users[uid]`: that key goes, every other entry stays, in its order. */
  function Remove(us: Users, uid: string): (r: Users)
    ensures Keys(r) == Keys(us) - {uid}
    ensures UniqueKeys(us) ==> UniqueKeys(r)
    ensures forall k | k != uid :: Find(r, k) == Find(us, k)
    ensures forall p | p in us && p.0 != uid :: p in r
    ensures IsSubseq(r, us)
  {
    if us == [] then []
    else if us[0].0 == uid then Remove(us[1..], uid)
    else [us[0]] + Remove(us[1..], uid)
  }

  /** Removing a key that was just appended gives back the list before the append. */
  lemma {:induction false} RemoveAppended(us: Users, uid: string, u: User)
    requires uid !in Keys(us)
    ensures Remove(us + [(uid, u)], uid) == us
  {
    if us != [] {
      assert (us + [(uid, u)])[1..] == us[1..] + [(uid, u)];
      RemoveAppended(us[1..], uid, u);
    }
  }

  /** Every chat other than `cid` is kept as it was, and no chat appears or disappears
      except possibly `cid`. */
  ghost predicate OthersUnchanged(d: Document, d': Document, cid: string) {
    forall k | k != cid :: (k in d.chats <==> k in d'.chats) && (k in d.chats ==> d'.chats[k] == d.chats[k])
  }

  /** `c.title or c.username or "Private"`. */
  function ChatTitle(c: ChatRef): (t: string)
    ensures t != ""
    ensures Truthy(c.title) ==> t == c.title.value
    ensures !Truthy(c.title) && Truthy(c.username) ==> t == c.username.value
    ensures !Truthy(c.title) && !Truthy(c.username) ==> t == "Private"
  {
    Or(c.title, Or(c.username, "Private"))
  }

  /** The greeting posted to the chat when a user is first registered. */
  function Welcome(u: Sender): (r: string)
    ensures var name := if Truthy(u.firstName) then u.firstName.value
                        else if Truthy(u.username) then u.username.value
                        else u.id;
      |r| > |name| + 5 && r[..|name| + 5] == "Hi " + name + "! "
  {
    var greeting := "Hi " + Or(u.firstName, Or(u.username, u.id)) + "! ";
    var rest := "If you want to receive @everyone notifications in this group, send '@subscribe'.\n"
      + "You can always opt out later with '@unsubscribe'.";
    assert (greeting + rest)[..|greeting|] == greeting;
    greeting + rest
  }

  /** The record of a first-seen user: not subscribed, joined now. */
  function NewUser(u: Sender, now: string): (r: User)
    ensures !Subscribed(r) && r.joinedAt == now && r.username == u.username
    ensures r.firstName == if Truthy(u.firstName) then u.firstName.value else ""
  {
    User(u.username, Or(u.firstName, ""), now, Some(false))
  }

  /** `collect_user`: make sure the chat exists with the latest title, and register the
      sender unless already known. Nothing happens when the update carries no chat or no
      sender. */
  function CollectUser(d: Document, chat: Option<ChatRef>, sender: Option<Sender>, now: string): (r: Step)
    ensures chat.None? || sender.None? ==> r == Step(d, [], 0)
    ensures chat.Some? && sender.Some? ==>
      chat.value.id in r.doc.chats && sender.value.id in Keys(r.doc.chats[chat.value.id].users)
    ensures Valid(d) ==> Valid(r.doc)
  {
    if chat.None? || sender.None? then Step(d, [], 0)
    else
      var c, u := chat.value, sender.value;
      var users := UsersOf(d, c.id);
      if Find(users, u.id).None? then
        var users' := users + [(u.id, NewUser(u, now))];
        KeysAppend(users, (u.id, NewUser(u, now)));
        assert Valid(d) ==> UniqueKeys(users');
        Step(Document(d.chats[c.id := Chat(ChatTitle(c), users')]), [Outbound(c.id, Welcome(u), false)], 1)
      else
        Step(Document(d.chats[c.id := Chat(ChatTitle(c), users)]), [], 0)
  }

  /** What registration does to the chat of the update: it exists with the latest title;
      a first-seen sender is appended as a new record, with one save and the welcome
      message; a known sender's record stays as it was, nothing is sent and nothing saved.
      Every other chat is untouched. */
  lemma CollectUserEffect(d: Document, c: ChatRef, u: Sender, now: string)
    ensures var r := CollectUser(d, Some(c), Some(u), now);
      && r.doc.chats[c.id].title == ChatTitle(c)
      && OthersUnchanged(d, r.doc, c.id)
      && (u.id !in Keys(UsersOf(d, c.id)) ==>
            && UsersOf(r.doc, c.id) == UsersOf(d, c.id) + [(u.id, NewUser(u, now))]
            && r.saves == 1
            && r.sent == [Outbound(c.id, Welcome(u), false)])
      && (u.id in Keys(UsersOf(d, c.id)) ==>
            UsersOf(r.doc, c.id) == UsersOf(d, c.id) && r.saves == 0 && r.sent == [])
  {
    if u.id in Keys(UsersOf(d, c.id)) {
      CollectKnownEffect(d, c, u, now);
    } else {
      CollectNewEffect(d, c, u, now);
    }
  }

  /** Registration adds the sender's id to the chat and no other. */
  lemma CollectUserKeys(d: Document, c: ChatRef, u: Sender, now: string)
    ensures Keys(UsersOf(CollectUser(d, Some(c), Some(u), now).doc, c.id)) == Keys(UsersOf(d, c.id)) + {u.id}
  {
    if u.id in Keys(UsersOf(d, c.id)) {
      CollectKnownEffect(d, c, u, now);
    } else {
      CollectNewEffect(d, c, u, now);
      KeysAppend(UsersOf(d, c.id), (u.id, NewUser(u, now)));
    }
  }

  /** Registration of a first-seen sender, as the document it leaves. */
  lemma CollectNewEffect(d: Document, c: ChatRef, u: Sender, now: string)
    requires u.id !in Keys(UsersOf(d, c.id))
    ensures var r := CollectUser(d, Some(c), Some(u), now);
      && r.doc.chats == d.chats[c.id := Chat(ChatTitle(c), UsersOf(d, c.id) + [(u.id, NewUser(u, now))])]
      && r.saves == 1 && r.sent == [Outbound(c.id, Welcome(u), false)]
  {
    var users := UsersOf(d, c.id);
    assert Find(users, u.id).None?;
    var users' := users + [(u.id, NewUser(u, now))];
    var r := Step(Document(d.chats[c.id := Chat(ChatTitle(c), users')]), [Outbound(c.id, Welcome(u), false)], 1);
    assert CollectUser(d, Some(c), Some(u), now) == r;
  }

  /** Registration of a known sender, as the document it leaves. */
  lemma CollectKnownEffect(d: Document, c: ChatRef, u: Sender, now: string)
    requires u.id in Keys(UsersOf(d, c.id))
    ensures var r := CollectUser(d, Some(c), Some(u), now);
      r.doc.chats == d.chats[c.id := Chat(ChatTitle(c), UsersOf(d, c.id))] && r.saves == 0 && r.sent == []
  {
    assert Find(UsersOf(d, c.id), u.id).Some?;
  }

  /** A known sender in a chat whose title is already current leaves the document as it is. */
  lemma CollectKnownUser(d: Document, c: ChatRef, u: Sender, now: string)
    requires c.id in d.chats && d.chats[c.id].title == ChatTitle(c)
    requires u.id in Keys(d.chats[c.id].users)
    ensures CollectUser(d, Some(c), Some(u), now) == Step(d, [], 0)
  {
    var r := CollectUser(d, Some(c), Some(u), now);
    assert d.chats[c.id] == Chat(ChatTitle(c), UsersOf(d, c.id));
    assert r.doc.chats == d.chats[c.id := Chat(ChatTitle(c), UsersOf(d, c.id))];
    assert r.doc.chats == d.chats;
  }

  /** Registration is idempotent: repeating it, at any later time, changes nothing, sends
      nothing and does not save. In particular `joined_at` is never reset. */
  lemma CollectUserIdempotent(d: Document, chat: Option<ChatRef>, sender: Option<Sender>, now: string, later: string)
    ensures var first := CollectUser(d, chat, sender, now);
            CollectUser(first.doc, chat, sender, later) == Step(first.doc, [], 0)
  {
    if chat.Some? && sender.Some? {
      var first := CollectUser(d, chat, sender, now);
      CollectUserEffect(d, chat.value, sender.value, now);
      CollectKnownUser(first.doc, chat.value, sender.value, later);
    }
  }
}
