# Roster and mention engine of a Telegram "@everyone" bot

This project models the core of `bot.py`. The bot keeps, per group chat, a roster of the
users it has seen and whether each has opted in to `@everyone` pings. Every text message
first registers its sender (`collect_user`). The lowercased text is then searched for
`@unsubscribe`, `@subscribe` and `@everyone`, in that order, and only the first keyword found
is acted on (`keyword_trigger`). Only updates whose message has text and is not a command
reach `keyword_trigger`. Edited messages and channel posts pass that filter too, but the
handler reads `update.message.text`, which both lack, and stops with a swallowed error. An
edited message registers its sender first. A channel post has no sender, so it registers
nobody. A chat-member update whose new status is `left`
or `kicked` is meant to delete that member from that chat (`handle_member_update`); see
"Left out" for how bot.py reads the member's id.

Everything is a pure function. A handler takes the stored document, the update and the
current time. It returns a `Step`: the new document, the messages sent, in order, and the
number of times the document was saved.

- `Options`: `Option`, and Python's truthiness and `or` on strings that may be `None`.
- `Text`: lowercasing, substring containment (`in`) and `" ".join`.
- `Roster`: user records, chats and the document. A chat's users are a list of
  `(id, record)` pairs in insertion order with unique ids, which is how a Python dict
  iterates. Also `collect_user`.
- `Mentions`: who `@everyone` mentions, how each mention is rendered, and the reply text.
- `Handlers`: the two handlers, the subscribe and unsubscribe branches, and the event loop.
- `Persist`: the start-up rule that a missing file, a file that is not valid JSON, or a JSON
  object without a `chats` key gives an empty document.
- `Scenarios`: small concrete cases, each stated as a lemma.

Behaviour worth knowing, all stated in the contracts:
- A known sender's record is never touched by registration: a changed username or first
  name is not picked up, and `joined_at` is never reset. The chat title is refreshed in
  memory on every message, but that change alone is not saved.
- A legacy record with no `subscribed` key counts as subscribed for `@unsubscribe` and for
  mentions. For `@subscribe`, however, only an explicit `true` counts as already
  subscribed. So for such a record both commands report a change
  (`LegacyRecordChangesEitherWay`).
- New users start opted out. The sender is never mentioned by their own `@everyone`.

## Model

| member | source | states |
|---|---|---|
| Text.Lower | bot.py:113 | the lowercased text has the same length, and each character is the lowercase of the original one |
| Text.LowerIdempotent | bot.py:113 | lowering an already lowered text changes nothing |
| Text.Contains | bot.py:120 | the empty keyword is in every text, and a text can only contain a keyword that is no longer than it |
| Text.ContainsIff | bot.py:120 | the keyword test holds exactly when the keyword occurs at some position of the text |
| Text.Join | bot.py:176 | joining nothing gives the empty string; a join starts with its first piece, and with two or more pieces it is at least as long as the first two and a separator |
| Text.JoinContainsEach | bot.py:176 | every mention joined with spaces appears in the joined string |
| Text.JoinNonEmpty | bot.py:176 | joining a list whose first mention is non-empty never gives the empty string |
| Roster.UsersOf | bot.py:116-117 | an unknown chat reads as having no users, and in a document with unique ids the users read have unique ids |
| Roster.Subscribed | bot.py:122 | a record counts as subscribed exactly when its flag is absent or true, as `get("subscribed", True)` reads it |
| Roster.Find | bot.py:86 | the lookup finds a record exactly when the id is in the chat, and that record is stored under the id |
| Roster.Replace | bot.py:145 | writing a record in place keeps every id in its position, makes the id hold the new record and leaves all other records as they were |
| Roster.Remove | bot.py:205 | deleting an id removes exactly that id, keeps every other record, and keeps their order |
| Roster.RemoveAppended | bot.py:89 | deleting an id right after it was appended restores the previous user list |
| Roster.ChatTitle | bot.py:75 | the stored title is the chat title when it is non-empty, else the chat's username when that is non-empty, else "Private"; it is never empty |
| Roster.NewUser | bot.py:89-94 | a first-seen user is stored opted out, joined now, with the update's username, and with its first name or the empty string when there is none |
| Roster.Welcome | bot.py:102-104 | the greeting starts with "Hi " and the first name, else the username, else the id, followed by "! " |
| Roster.CollectUser | bot.py:69-97 | with a chat and a sender, the chat exists afterwards and holds the sender; without them nothing changes; ids stay unique |
| Roster.CollectUserEffect | bot.py:78-97 | the chat title becomes the latest one; a first-seen sender is appended opted out, with `joined_at = now`, one save and the welcome message; a known sender's record is unchanged, with no save and no message; other chats are untouched |
| Roster.CollectNewEffect | bot.py:78-105 | registering a first-seen sender sets the chat's title and appends the new record, with one save and the welcome message |
| Roster.CollectUserKeys | bot.py:86-94 | registration adds the sender's id to the chat's ids and no other id |
| Roster.CollectKnownEffect | bot.py:78-87 | registering a known sender only sets the chat's title: nothing is saved and nothing is sent |
| Roster.CollectKnownUser | bot.py:86-87 | a known sender in a chat whose title is current leaves the document, the messages and the saves unchanged |
| Roster.CollectUserIdempotent | bot.py:86-108 | registering the same sender again, at any later time, changes nothing, sends nothing and saves nothing |
| Mentions.Targets | bot.py:163-167 | a roster entry is mentioned exactly when it is not the sender and its flag is not false; mentions keep roster order |
| Mentions.Token | bot.py:168-173 | a mention starts with `@` exactly when the username is non-empty; otherwise it is a link to the user's own id, labelled with the first name, or with the id when the first name is empty |
| Mentions.Tokens | bot.py:162-174 | there is exactly one mention per mentioned user, in the same order |
| Mentions.EveryoneReply | bot.py:175-187 | the reply is Markdown exactly when someone is eligible; otherwise it is the "No one to mention" notice; if so, it is the header followed by the space-joined mentions |
| Mentions.PingMentionsEveryTarget | bot.py:174-181 | every mentioned user's mention appears in the ping, so the ping is never just the header |
| Handlers.Store | bot.py:123 | changing the sender's record keeps the chat title, the ids and their order, every other record and every other chat |
| Handlers.Unsubscribe | bot.py:120-135 | a change and a save happen exactly when the sender exists with a flag that is true or absent; the flag then becomes false and nothing else changes; otherwise the document is unchanged and the "already unsubscribed" notice is sent |
| Handlers.Subscribe | bot.py:138-157 | afterwards the sender's flag is exactly true; there is a save exactly when it was not exactly true before; otherwise the "already subscribed" notice is sent and nothing changes |
| Handlers.UnsubscribeIdempotent | bot.py:122-134 | a second `@unsubscribe` changes nothing, saves nothing and sends the "already unsubscribed" notice |
| Handlers.SubscribeIdempotent | bot.py:144-156 | a second `@subscribe` changes nothing, saves nothing and sends the "already subscribed" notice |
| Handlers.Everyone | bot.py:160-187 | the `@everyone` branch changes nothing, saves nothing and sends one reply to the chat, which is a Markdown ping exactly when someone other than the sender has not opted out |
| Handlers.Matches | bot.py:113-160 | the branch taken is `@unsubscribe` whenever the lowercased text contains it, else `@subscribe` when it contains that, else `@everyone` when it contains that, else none |
| Handlers.Dispatch | bot.py:113-187 | one reply exactly when the update is complete and names a keyword, and no reply, save or change otherwise; at most one save, and at most the sender's record changes |
| Handlers.KeywordTrigger | bot.py:110-189 | handling a message keeps user ids unique in every chat |
| Handlers.KeywordTriggerShape | bot.py:112-160 | registration's messages come first; at most one branch adds one reply and at most one save; a message with no keyword is registration alone |
| Handlers.MatchesIgnoresCase | bot.py:113 | a text and its lowercase select the same branch |
| Handlers.UnsubscribeTakesPrecedence | bot.py:120-135 | a text containing `@unsubscribe`, whatever else it contains, leaves the sender registered and opted out, with an unsubscribe notice |
| Handlers.SubscribeComesSecond | bot.py:138-157 | a text with `@subscribe` but no `@unsubscribe` leaves the sender's flag exactly true, with a subscribe notice |
| Handlers.EveryoneComesLast | bot.py:160-187 | a text with only `@everyone` changes nothing beyond registration, saves nothing more, and sends the mention reply for the registered roster |
| Handlers.LegacyRecordChangesEitherWay | bot.py:144 | for a record without a `subscribed` key, both `@unsubscribe` and `@subscribe` report a change |
| Handlers.HandleMemberUpdate | bot.py:192-207 | a `left` or `kicked` member present in the chat is deleted from that chat only, with one save, keeping the others in order; any other update changes nothing and saves nothing; nothing is sent |
| Handlers.DepartedNeverMentioned | bot.py:200-206 | right after a departure, the departed id is among no sender's `@everyone` targets in that chat |
| Handlers.DepartedHasNoRecord | bot.py:200-205 | after a `left` or `kicked` update, the chat holds no record of that member, whether or not it held one before |
| Handlers.NextMessageSkipsDeparted | bot.py:112-174 | for the next message in that chat, after its sender is registered, the departed id is not among the `@everyone` targets, whoever the sender is; the departed id is back on the roster exactly when the departed user is that sender |
| Handlers.LeaveUndoesJoin | bot.py:204-205 | a user registered by a message and then departing leaves the chat's user list as it was before |
| Handlers.Handle | bot.py:217-218 | a command or a message without text reaches no handler and changes nothing; a member update sends nothing and saves at most once; a plain text message sends at most two messages and saves at most twice; ids stay unique |
| Handlers.Run | bot.py:217-219 | handling any sequence of updates keeps user ids unique in every chat |
| Persist.Load | bot.py:46-60 | a non-empty document comes only from a parsed file with a `chats` key, and such a file's chats are taken as they are; the loaded document has unique ids in every chat |
| Persist.Save | bot.py:64-66 | the saved file is one that loading accepts exactly when no chat repeats a user id |
| Persist.LoadSaveRoundTrip | bot.py:46-66 | loading a saved document gives back the same document; both meet at the parsed file, so this holds by construction and says nothing about JSON text |
| Persist.StartUpKeepsIdsUnique | bot.py:62 | starting from any loaded file, user ids stay unique in every chat over any sequence of updates |
| Scenarios.NameLinkForUserWithoutUsername | bot.py:170-171 | a user with no username but with the first name "Ann" and id 42 is mentioned as `[Ann](tg://user?id=42)` |
| Scenarios.NobodyToPing | bot.py:183-187 | a subscribed sender alone with a never-subscribed user gets the "No one to mention" notice |
| Scenarios.FirstMessageRegistersOptedOut | bot.py:86-97 | a first message registers the sender opted out, saves once and greets them |
| Scenarios.SubscribeOptsIn | bot.py:138-151 | in a chat whose only user is an opted-out Alice, her message "@Subscribe" opts her in, with one save and the confirmation |
| Scenarios.PingAloneFindsNobody | bot.py:163-165 | the only subscribed user's own `@everyone` gets the "No one to mention" notice |

## Left out

- Telegram transport: `send_message`, `Update`, `ContextTypes`, `ApplicationBuilder` and polling (bot.py:5-6, 209-219). Outbound messages are returned as data, and `Run` stands for the polling loop, one update at a time.
- Handlers.Handle: the filter `filters.TEXT & ~filters.COMMAND` (bot.py:217) is a flag on the event, `plainText`. It is not computed from the message's text and entities.
- Handlers.Handle: every chat-member update is passed to `HandleMemberUpdate`, as the leave cleanup intends. As written, bot.py:218 registers the handler with `chat_member_types="ALL"`. Telegram's library expects one of its integer constants there, so it falls back to accepting only `my_chat_member` updates, for which `update.chat_member` is empty and bot.py:194-195 returns. In addition, `run_polling()` at bot.py:219 does not ask for `chat_member` updates, which Telegram does not send by default. So, as written, the cleanup never runs.
- Handlers.HandleMemberUpdate: the departing id is taken as the changed member's id (`new_chat_member.user.id`). Line bot.py:196 as written reads `update.chat_member.user`, an attribute that Telegram's `ChatMemberUpdated` object does not have. As written, the handler would raise there before deleting or saving anything. The model follows the evident intent.
- A failing `send_message` is not modelled: the model assumes every send succeeds.
- JSON file I/O (bot.py:46-67): a save is counted, not performed. `Persist.Load` works on the outcome of parsing, not on bytes. Only a parsed JSON object is represented; other top-level values behave differently and are not modelled:
  - `null`, a number or a boolean makes the test `"chats" not in data` (bot.py:52) raise `TypeError`. The `except` at bot.py:55 does not catch that, so start-up at bot.py:62 fails.
  - A list or string that contains `"chats"` is returned unchanged. So is an object whose `chats` is not an object, such as `{"chats": []}`. `collect_user` then raises on every message, and the handler swallows the error.
- Logging set-up and the `TELEGRAM_BOT_TOKEN` check (bot.py:8-37, 210-212): neither affects the roster.
- The clock (bot.py:76): `now` is a parameter, the ISO text that `datetime.now(UTC).isoformat()` would give.
- Ids are the decimal strings that `str(c.id)` and `str(u.id)` produce; the integer ids are not modelled.
- Exception handling (bot.py:188-189): only one exception path is modelled. A message update without a chat, a sender or a text raises after registration, and the handler swallows the error. This is modelled as "registration only". An update to `handle_member_update` always carries its chat id.
- Text.Lower: maps only `A`-`Z`, not Python's full Unicode `str.lower()`. The keyword tests still agree with Python on every text. Outside `A`-`Z`, only two characters lowercase to something containing ASCII: U+0130 becomes "i" followed by U+0307, and U+212A (Kelvin sign) becomes "k". No keyword contains "k", and "i" followed by U+0307 cannot complete the "ib" of `@subscribe` or `@unsubscribe`. Python's extra changes touch only non-ASCII positions, so an occurrence found by the ASCII lowering survives Python's lowering too.
- Handlers.KeywordTrigger: its own contract states only that user ids stay unique. What it does is stated by `Dispatch`, `KeywordTriggerShape` and the three precedence lemmas.
- Handlers.Run: states only the uniqueness invariant over any sequence of updates. Per-update behaviour is stated by the handlers.
- Roster.CollectUser: its own contract states that the chat and the sender exist afterwards. The full effect is stated by `CollectUserEffect`.
- Handlers.Subscribe: requires the sender to be registered. The re-registration path at bot.py:140-143 cannot run after the call at bot.py:112, and `KeywordTriggerShape` and `Dispatch` carry that fact.
- User records always have `username`, `first_name` and `joined_at`, and `subscribed` may be absent. An empty stored object `{}`, which Python treats as "not registered", and records missing other keys are not representable.
- Only the behaviour `bot.py` implements is modelled: per-chat rosters, explicit opt-in, and removal on leaving. A global roster or implicit opt-in is not modelled, because `bot.py` has neither.
- Markdown escaping of names in mentions is not done by the bot, and it is not modelled either.
