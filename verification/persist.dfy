/** Start-up loading of `data/user_infos.json`, on the outcome of reading and parsing the
    file rather than on its bytes. */
module Persist {
  import opened Options
  import opened Roster
  import opened Handlers

  /** What reading the file gives: no file, content that is not valid JSON, or a parsed
      JSON object whose `chats` key may be missing. Other top-level JSON values are not
      represented. */
  datatype StoredFile = Missing | Malformed | Parsed(chats: Option<map<string, Chat>>)

  /** A parsed file never holds a user id twice in one chat: `json.load` turns every JSON
      object, and so every `users` object, into a dict. */
  predicate WellFormed(f: StoredFile) {
    f.Parsed? && f.chats.Some? ==> Valid(Document(f.chats.value))
  }

  /** `load_user_infos`: a missing file, a file that is not valid JSON, and a JSON object
      without a `chats` key all start the bot from the empty document; whatever is loaded
      keeps user ids unique. */
  function Load(f: StoredFile): (d: Document)
    requires WellFormed(f)
    ensures d.chats != map[] ==> f.Parsed? && f.chats == Some(d.chats)
    ensures f.Parsed? && f.chats.Some? ==> d.chats == f.chats.value
    ensures Valid(d)
  {
    match f
    case Parsed(Some(chats)) => Document(chats)
    case _ => Document(map[])
  }

  /** `save_user_infos`: the whole document is written under its `chats` key. The file it
      gives is one `json.load` could give back exactly when no chat repeats a user id. */
  function Save(d: Document): (f: StoredFile)
    ensures WellFormed(f) <==> Valid(d)
  {
    Parsed(Some(d.chats))
  }

  /** Loading what was saved gives back the same document. `Save` and `Load` meet at the
      parsed file, so this is the start-up path, not a statement about JSON text. */
  lemma LoadSaveRoundTrip(d: Document)
    requires Valid(d)
    ensures Load(Save(d)) == d
  {
  }

  /** The bot starts from a loaded document, so user ids stay unique in every chat over
      any sequence of updates handled after start-up. */
  lemma StartUpKeepsIdsUnique(f: StoredFile, events: seq<(Event, string)>)
    requires WellFormed(f)
    ensures Valid(Run(Load(f), events).doc)
  {
  }
}
