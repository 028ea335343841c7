/** The two `localStorage` keys the panel keeps and the rules for saving, restoring and
    clearing them. Storage is a map from key to text. JSON serialisation is not modelled:
    a `Codec` stands for `JSON.stringify` / `JSON.parse` of a message list. */
module Persistence {
  import opened Wrappers
  import opened Messages

  const HistoryKey: string := "chatHistory"
  const SessionKey: string := "sessionId"

  type Storage = map<string, string>

  /** `decode` returns `None` when parsing throws. */
  datatype Codec = Codec(encode: seq<Message> -> string, decode: string -> Option<seq<Message>>)

  /** What `JSON.stringify` and `JSON.parse` guarantee each other: the text of a list is
      never empty and parses back to that list. */
  ghost predicate Faithful(codec: Codec) {
    forall h :: codec.encode(h) != "" && codec.decode(codec.encode(h)) == Some(h)
  }

  /** The key is stored with a non-empty value (`localStorage.getItem(key)` is truthy). */
  predicate Present(st: Storage, key: string) {
    key in st && st[key] != ""
  }

  /** The save effect: the history is written only when it is non-empty and the session
      id only when it is set; every other entry is left as it was. */
  function Saved(st: Storage, history: seq<Message>, sessionId: string, codec: Codec): (r: Storage)
    ensures history != [] ==> HistoryKey in r && r[HistoryKey] == codec.encode(history)
    ensures history == [] ==> (HistoryKey in r <==> HistoryKey in st)
    ensures history == [] && HistoryKey in st ==> r[HistoryKey] == st[HistoryKey]
    ensures sessionId != "" ==> SessionKey in r && r[SessionKey] == sessionId
    ensures sessionId == "" ==> (SessionKey in r <==> SessionKey in st)
    ensures sessionId == "" && SessionKey in st ==> r[SessionKey] == st[SessionKey]
    ensures forall k :: k != HistoryKey && k != SessionKey ==> (k in r <==> k in st)
    ensures forall k :: k in r && k != HistoryKey && k != SessionKey ==> r[k] == st[k]
  {
    var withHistory := if history != [] then st[HistoryKey := codec.encode(history)] else st;
    if sessionId != "" then withHistory[SessionKey := sessionId] else withHistory
  }

  /** What the mount effect installs: a history and a session id. */
  datatype Loaded = Loaded(history: seq<Message>, sessionId: string)

  /** Both keys are present and the stored history parses. */
  predicate Restorable(st: Storage, codec: Codec) {
    Present(st, HistoryKey) && Present(st, SessionKey) && codec.decode(st[HistoryKey]).Some?
  }

  /** The mount effect: the stored history and session come back only together and only
      when the history parses; otherwise the history stays empty and a fresh session id
      is installed. */
  function Restored(st: Storage, codec: Codec, freshSession: string): (r: Loaded)
    ensures Restorable(st, codec) ==> r.sessionId == st[SessionKey] && Some(r.history) == codec.decode(st[HistoryKey])
    ensures !Restorable(st, codec) ==> r == Loaded([], freshSession)
    ensures freshSession != "" ==> r.sessionId != ""
  {
    if Present(st, HistoryKey) && Present(st, SessionKey) then
      match codec.decode(st[HistoryKey])
      case Some(history) => Loaded(history, st[SessionKey])
      case None => Loaded([], freshSession)
    else
      Loaded([], freshSession)
  }

  /** `clearHistory`'s two `removeItem` calls. */
  function Cleared(st: Storage): (r: Storage)
    ensures HistoryKey !in r && SessionKey !in r
    ensures forall k :: k != HistoryKey && k != SessionKey ==> (k in r <==> k in st)
    ensures forall k :: k in r ==> r[k] == st[k]
  {
    st - {HistoryKey, SessionKey}
  }

  /** Saving a non-empty conversation and mounting again brings back that history and
      session, whatever fresh id the mount would otherwise have used. */
  lemma SaveThenRestore(st: Storage, history: seq<Message>, sessionId: string, codec: Codec, freshSession: string)
    requires Faithful(codec)
    requires history != [] && sessionId != ""
    ensures Restored(Saved(st, history, sessionId, codec), codec, freshSession) == Loaded(history, sessionId)
  {
  }

  /** An empty history never overwrites the stored one. */
  lemma EmptyHistoryKeepsStored(st: Storage, sessionId: string, codec: Codec, freshSession: string)
    requires Present(st, HistoryKey) && sessionId != ""
    ensures var saved := Saved(st, [], sessionId, codec);
            && saved[HistoryKey] == st[HistoryKey]
            && Restored(saved, codec, freshSession) == Restored(st[SessionKey := sessionId], codec, freshSession)
  {
  }

  /** After the keys are cleared, a save with an empty history and a mount start from a
      fresh session with no history. */
  lemma ClearedRestoresFresh(st: Storage, sessionId: string, codec: Codec, freshSession: string)
    ensures Restored(Saved(Cleared(st), [], sessionId, codec), codec, freshSession) == Loaded([], freshSession)
  {
  }
}
