/** The `@everyone` branch of `keyword_trigger`: who is mentioned, how each mention is
    rendered, and the reply that carries them. */
module Mentions {
  import opened Options
  import opened Text
  import opened Roster

  const PingHeader := "Pinging everyone:\n"
  const NoOneText := "No one to mention (maybe everyone has unsubscribed)!"

  /** A roster entry is mentioned unless it is the sender or has opted out. */
  predicate Eligible(p: (string, User), sender: string) {
    p.0 != sender && Subscribed(p.1)
  }

  /** The entries the loop over `users.items()` keeps, in roster order. */
  function Targets(us: Users, sender: string): (r: Users)
    ensures forall p :: p in r <==> p in us && Eligible(p, sender)
    ensures IsSubseq(r, us)
  {
    if us == [] then []
    else if Eligible(us[0], sender) then [us[0]] + Targets(us[1..], sender)
    else Targets(us[1..], sender)
  }

  /** The id link Telegram renders as a clickable mention. */
  function Link(uid: string): string {
    "(tg://user?id=" + uid + ")"
  }

  /** The mention of one user: `@username`, else a link labelled with the first name, else
      a link labelled with the id. */
  function Token(uid: string, u: User): (t: string)
    ensures t != []
    ensures t[0] == '@' <==> Truthy(u.username)
    ensures Truthy(u.username) ==> t[1..] == u.username.value
    ensures !Truthy(u.username) ==>
      var n := |t| - |Link(uid)|;
      && 2 <= n && t[0] == '[' && t[n - 1] == ']' && t[n..] == Link(uid)
      && t[1..n - 1] == (if u.firstName != "" then u.firstName else uid)
  {
    if Truthy(u.username) then "@" + u.username.value
    else if u.firstName != "" then "[" + u.firstName + "]" + Link(uid)
    else "[" + uid + "]" + Link(uid)
  }

  function Tokens(ts: Users): (r: seq<string>)
    ensures |r| == |ts|
    ensures forall i | 0 <= i < |ts| :: r[i] == Token(ts[i].0, ts[i].1)
  {
    if ts == [] then [] else [Token(ts[0].0, ts[0].1)] + Tokens(ts[1..])
  }

  /** The `mentions` list built for `sender` in a chat with roster `us`. */
  function MentionList(us: Users, sender: string): seq<string> {
    Tokens(Targets(us, sender))
  }

  /** The reply to `@everyone`: the empty-list notice in plain text, or the header and the
      space-separated mentions in Markdown. */
  function EveryoneReply(cid: string, us: Users, sender: string): (r: Outbound)
    ensures r.chatId == cid
    ensures r.markdown <==> exists p :: p in us && Eligible(p, sender)
    ensures !r.markdown ==> r.text == NoOneText
    ensures r.markdown ==> r.text == PingHeader + Join(" ", MentionList(us, sender))
  {
    var mentions := MentionList(us, sender);
    if |mentions| > 0 then
      assert Targets(us, sender)[0] in Targets(us, sender);
      Outbound(cid, PingHeader + Join(" ", mentions), true)
    else
      assert forall p | p in us :: p !in Targets(us, sender);
      Outbound(cid, NoOneText, false)
  }

  /** Every mention appears in the ping text, so no eligible user is dropped from the
      broadcast and the broadcast is never just the header. */
  lemma PingMentionsEveryTarget(cid: string, us: Users, sender: string, i: nat)
    requires i < |Targets(us, sender)|
    ensures var r := EveryoneReply(cid, us, sender);
            var p := Targets(us, sender)[i];
            r.markdown && Contains(r.text, Token(p.0, p.1)) && r.text != PingHeader
  {
    var ts := Targets(us, sender);
    assert ts[i] in ts;
    var mentions := MentionList(us, sender);
    JoinContainsEach(" ", mentions, i);
    JoinNonEmpty(" ", mentions);
    ContainsInSuffix(PingHeader, Join(" ", mentions), mentions[i]);
  }
}
