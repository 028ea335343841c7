/** The chat message record and the one operation on the history that is not an
    append: removing the optimistic user message by its id. */
module Messages {
  import opened Wrappers
  import opened Sequences

  datatype Role = User | Assistant | System

  /** A `ChatMessage`: `modelUsed` and `providerUsed` are only set on replies. */
  datatype Message = Message(
    id: string,
    sessionId: string,
    role: Role,
    content: string,
    timestamp: int,
    modelUsed: Option<string>,
    providerUsed: Option<string>)

  function Ids(history: seq<Message>): set<string> {
    set m | m in history :: m.id
  }

  /** `history.filter(msg => msg.id !== id)`: every message keeps its place unless its
      id is `id`; the messages that stay are exactly those with another id. */
  function RemoveById(history: seq<Message>, id: string): (r: seq<Message>)
    ensures forall m :: m in r <==> m in history && m.id != id
    ensures id !in Ids(r)
    ensures |r| <= |history|
  {
    Filter(history, (m: Message) => m.id != id)
  }

  /** The rollback keeps the order of the messages it keeps. */
  lemma RemoveByIdDistributes(a: seq<Message>, b: seq<Message>, id: string)
    ensures RemoveById(a + b, id) == RemoveById(a, id) + RemoveById(b, id)
  {
    FilterDistributes(a, b, (m: Message) => m.id != id);
  }

  /** Filtering by an id no message carries changes nothing. */
  lemma {:induction false} RemoveAbsentId(history: seq<Message>, id: string)
    requires id !in Ids(history)
    ensures RemoveById(history, id) == history
  {
    if history != [] {
      assert history[0] in history;
      assert Ids(history[1..]) <= Ids(history) by {
        forall x | x in Ids(history[1..]) ensures x in Ids(history) {
          var m :| m in history[1..] && m.id == x;
          assert m in history;
        }
      }
      RemoveAbsentId(history[1..], id);
    }
  }

  /** Rolling back a message appended with a fresh id gives back the history it was
      appended to. */
  lemma RemoveAppended(history: seq<Message>, m: Message)
    requires m.id !in Ids(history)
    ensures RemoveById(history + [m], m.id) == history
  {
    RemoveByIdDistributes(history, [m], m.id);
    RemoveAbsentId(history, m.id);
  }
}
