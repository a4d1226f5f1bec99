/** The conversation history kept in the session under "chat_history": how
    `get_llm_response` rebuilds chat messages from it before calling the
    chain, and how it records the exchange once the chain has answered. */
module ChatHistory {
  import KeywordSearch

  datatype Option<T> = None | Some(value: T)

  /** A stored turn: a (role, content) pair. */
  type Entry = (string, string)

  /** The chat messages handed to the chain. */
  datatype Message = HumanMessage(content: string) | AIMessage(content: string)

  const UserRole: string := "user"
  const AssistantRole: string := "assistant"

  /** One stored turn as a chat message: only the role "user" is human;
      every other role, known or not, is read as the AI's. */
  function ToMessage(e: Entry): Message
  {
    if e.0 == UserRole then HumanMessage(e.1) else AIMessage(e.1)
  }

  /** The messages rebuilt from a stored history, one per entry. */
  function Rebuild(raw: seq<Entry>): seq<Message>
  {
    if raw == [] then [] else Rebuild(raw[..|raw| - 1]) + [ToMessage(raw[|raw| - 1])]
  }

  /** Rebuilding keeps length and order, and entry i becomes a human
      message exactly when its role is "user", carrying the same content. */
  lemma {:induction false} RebuildAt(raw: seq<Entry>, i: nat)
    requires i < |raw|
    ensures |Rebuild(raw)| == |raw|
    ensures Rebuild(raw)[i].content == raw[i].1
    ensures Rebuild(raw)[i].HumanMessage? <==> raw[i].0 == UserRole
    decreases |raw|
  {
    RebuildLength(raw);
    if i < |raw| - 1 {
      RebuildAt(raw[..|raw| - 1], i);
    }
  }

  lemma {:induction false} RebuildLength(raw: seq<Entry>)
    ensures |Rebuild(raw)| == |raw|
    decreases |raw|
  {
    if raw != [] {
      RebuildLength(raw[..|raw| - 1]);
    }
  }

  /** Rebuilding a history extended at its end extends the messages the same way. */
  lemma {:induction false} RebuildAppend(raw: seq<Entry>, more: seq<Entry>)
    ensures Rebuild(raw + more) == Rebuild(raw) + Rebuild(more)
    decreases |more|
  {
    if more == [] {
      assert raw + more == raw;
    } else {
      var init := more[..|more| - 1];
      assert (raw + more)[..|raw + more| - 1] == raw + init;
      RebuildAppend(raw, init);
    }
  }

  /** The stored form of a message: the inverse of `ToMessage` on known roles. */
  function ToEntry(m: Message): Entry
  {
    match m
    case HumanMessage(c) => (UserRole, c)
    case AIMessage(c) => (AssistantRole, c)
  }

  function ToEntries(ms: seq<Message>): seq<Entry>
  {
    if ms == [] then [] else ToEntries(ms[..|ms| - 1]) + [ToEntry(ms[|ms| - 1])]
  }

  /** Every stored role is one that this code writes. */
  predicate KnownRoles(raw: seq<Entry>) {
    forall i :: 0 <= i < |raw| ==> raw[i].0 == UserRole || raw[i].0 == AssistantRole
  }

  /** With known roles, rebuilding loses nothing: the stored history can be
      recovered from the messages. */
  lemma {:induction false} RebuildRoundTrip(raw: seq<Entry>)
    requires KnownRoles(raw)
    ensures ToEntries(Rebuild(raw)) == raw
    decreases |raw|
  {
    if raw != [] {
      var init := raw[..|raw| - 1];
      assert KnownRoles(init) by {
        forall i | 0 <= i < |init| ensures init[i].0 == UserRole || init[i].0 == AssistantRole {
          assert init[i] == raw[i];
        }
      }
      RebuildRoundTrip(init);
      var ms := Rebuild(raw);
      assert ms[..|ms| - 1] == Rebuild(init);
      assert raw == init + [raw[|raw| - 1]];
    }
  }

  /** A history of completed exchanges: user and assistant turns alternate,
      starting with the user, so the length is even. */
  predicate Alternating(raw: seq<Entry>) {
    |raw| % 2 == 0 &&
    forall i :: 0 <= i < |raw| ==> raw[i].0 == (if i % 2 == 0 then UserRole else AssistantRole)
  }

  /** The two entries recorded for one answered question. */
  function Exchange(chatMessage: string, answer: string): seq<Entry> {
    [(UserRole, chatMessage), (AssistantRole, answer)]
  }

  /** Recording an exchange keeps a history alternating. */
  lemma ExchangeKeepsAlternating(raw: seq<Entry>, chatMessage: string, answer: string)
    requires Alternating(raw)
    ensures Alternating(raw + Exchange(chatMessage, answer))
  {
  }

  /** The next rebuild sees the recorded exchange as a human message
      followed by an AI message, after the earlier messages. */
  lemma RebuildAfterExchange(raw: seq<Entry>, chatMessage: string, answer: string)
    ensures Rebuild(raw + Exchange(chatMessage, answer)) ==
      Rebuild(raw) + [HumanMessage(chatMessage), AIMessage(answer)]
  {
    RebuildAppend(raw, Exchange(chatMessage, answer));
    var e := Exchange(chatMessage, answer);
    assert e[..1] == [(UserRole, chatMessage)];
    assert e[..1][..0] == [];
    assert Rebuild(e[..1]) == [HumanMessage(chatMessage)];
    assert Rebuild(e) == [HumanMessage(chatMessage), AIMessage(answer)];
  }

  /** A single user turn with no answer after it breaks the alternation:
      the history is left with odd length. */
  lemma UserTurnAloneBreaksAlternating(raw: seq<Entry>, chatMessage: string)
    requires Alternating(raw)
    ensures !Alternating(raw + [(UserRole, chatMessage)])
  {
  }

  /** The dictionary the retrieval chain returns: its "answer" entry, which
      may be missing, and its "context" documents. */
  datatype LlmResponse = LlmResponse(answer: Option<string>, context: seq<KeywordSearch.Document>)

  /** How the chain call ended: with a response, or by raising (the exception
      is re-raised out of `get_llm_response`). */
  datatype ChainOutcome = Returned(response: LlmResponse) | Raised(error: string)

  /** Why `get_llm_response` raised: the chain raised, or the response had
      no "answer" entry (a `KeyError` at utils.py:276). */
  datatype Error = ChainError(message: string) | MissingAnswer

  /** What `get_llm_response` produces: the whole response, or an exception. */
  datatype Result = Ok(response: LlmResponse) | Err(error: Error)

  /** The per-user session state that this code reads and writes. */
  class Session {
    /** The "chat_history" key: `None` while it is absent from the session. */
    var chatHistory: Option<seq<Entry>>

    constructor ()
      ensures chatHistory == None
    {
      chatHistory := None;
    }

    /** `session_state.get("chat_history", [])`. */
    function RawHistory(): seq<Entry>
      reads this
    {
      match chatHistory
      case None => []
      case Some(h) => h
    }

    /** `get_chat_history_from_session`: one message per stored entry, in order. */
    method GetChatHistoryFromSession() returns (hist: seq<Message>)
      ensures hist == Rebuild(RawHistory())
      ensures |hist| == |RawHistory()|
      ensures forall i :: 0 <= i < |hist| ==>
        hist[i] == (if RawHistory()[i].0 == UserRole then HumanMessage(RawHistory()[i].1)
                    else AIMessage(RawHistory()[i].1))
    {
      var rawHist := RawHistory();
      hist := [];
      var i := 0;
      while i < |rawHist|
        invariant 0 <= i <= |rawHist|
        invariant hist == Rebuild(rawHist[..i])
      {
        var (role, content) := rawHist[i];
        assert rawHist[..i + 1][..i] == rawHist[..i];
        if role == UserRole {
          hist := hist + [HumanMessage(content)];
        } else {
          hist := hist + [AIMessage(content)];
        }
        i := i + 1;
      }
      assert rawHist[..i] == rawHist;
      RebuildLength(rawHist);
      forall k | 0 <= k < |hist|
        ensures hist[k] == (if rawHist[k].0 == UserRole then HumanMessage(rawHist[k].1)
                            else AIMessage(rawHist[k].1))
      {
        RebuildAt(rawHist, k);
      }
    }

    /** utils.py:273-275: create the history if absent, then append the
        user's question. */
    method AppendUserTurn(chatMessage: string)
      modifies this
      ensures chatHistory == Some(old(RawHistory()) + [(UserRole, chatMessage)])
    {
      if chatHistory.None? {
        chatHistory := Some([]);
      }
      chatHistory := Some(chatHistory.value + [(UserRole, chatMessage)]);
    }

    /** utils.py:276: append the assistant's answer to an existing history. */
    method AppendAssistantTurn(answer: string)
      requires chatHistory.Some?
      modifies this
      ensures chatHistory == Some(old(chatHistory.value) + [(AssistantRole, answer)])
    {
      chatHistory := Some(chatHistory.value + [(AssistantRole, answer)]);
    }

    /** The tail of `get_llm_response`: create the history if absent, then
        append the user's question and the chain's answer. */
    method AppendExchange(chatMessage: string, answer: string)
      modifies this
      ensures chatHistory == Some(old(RawHistory()) + Exchange(chatMessage, answer))
      ensures RawHistory()[..|old(RawHistory())|] == old(RawHistory())
      ensures Alternating(old(RawHistory())) ==> Alternating(RawHistory())
    {
      AppendUserTurn(chatMessage);
      AppendAssistantTurn(answer);
      assert old(RawHistory()) + [(UserRole, chatMessage)] + [(AssistantRole, answer)]
        == old(RawHistory()) + Exchange(chatMessage, answer);
      if Alternating(old(RawHistory())) {
        ExchangeKeepsAlternating(old(RawHistory()), chatMessage, answer);
      }
    }

    /** `get_llm_response` from the chain call on. A raised exception leaves
        the history as it was. A returned response is recorded and returned
        whole; the user turn is stored before `response["answer"]` is read,
        so a response without an answer leaves only the user turn behind. */
    method RecordLlmResponse(chatMessage: string, outcome: ChainOutcome) returns (result: Result)
      modifies this
      ensures outcome.Raised? ==>
        result == Err(ChainError(outcome.error)) && chatHistory == old(chatHistory)
      ensures outcome.Returned? && outcome.response.answer.Some? ==>
        (result == Ok(outcome.response) &&
         chatHistory == Some(old(RawHistory()) + Exchange(chatMessage, outcome.response.answer.value)))
      ensures outcome.Returned? && outcome.response.answer.None? ==>
        (result == Err(MissingAnswer) &&
         chatHistory == Some(old(RawHistory()) + [(UserRole, chatMessage)]))
    {
      match outcome
      case Raised(e) =>
        result := Err(ChainError(e));
      case Returned(response) =>
        AppendUserTurn(chatMessage);
        match response.answer
        case None =>
          result := Err(MissingAnswer);
        case Some(a) =>
          AppendAssistantTurn(a);
          assert old(RawHistory()) + [(UserRole, chatMessage)] + [(AssistantRole, a)]
            == old(RawHistory()) + Exchange(chatMessage, a);
          result := Ok(response);
    }
  }
}
