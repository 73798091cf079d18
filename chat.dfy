/** The chat session's conversation store: an ordered list of role-tagged
    messages that a user turn and a successful reply extend and a reset clears,
    and its conversion into the model-facing history handed to the chat model
    together with the newest user input.

    The chat model itself is not modelled: it is a function from the current
    input and the prior history to an optional reply, `None` standing for a
    call that raised. */
module Chat {
  import opened Options

  const UserRole: string := "user"
  const AssistantRole: string := "assistant"

  /** One stored message; the role is free text, as in the session's list of dictionaries. */
  datatype Message = Message(role: string, content: string)

  /** A message as the chat model receives it. */
  datatype ModelMessage = Human(content: string) | AI(content: string)

  /** The chat model: current input and prior history to a reply, `None` when the call raised. */
  type Generator = (string, seq<ModelMessage>) -> Option<string>

  /** The model-facing form of a stored message; messages of any other role have none. */
  function ToModel(m: Message): Option<ModelMessage> {
    if m.role == UserRole then Some(Human(m.content))
    else if m.role == AssistantRole then Some(AI(m.content))
    else None
  }

  /** What a stored message contributes to the history: its model-facing form, or nothing. */
  function Contribution(m: Message): seq<ModelMessage> {
    match ToModel(m)
    case Some(h) => [h]
    case None => []
  }

  /** The model-facing history of a list of messages, in their order. */
  function Convert(ms: seq<Message>): (h: seq<ModelMessage>)
    ensures |h| <= |ms|
    decreases |ms|
  {
    if ms == [] then [] else Convert(ms[..|ms| - 1]) + Contribution(ms[|ms| - 1])
  }

  /** All messages but the newest; nothing when there are none. */
  function PriorMessages(ms: seq<Message>): (p: seq<Message>)
    ensures |ms| == 0 ==> p == []
    ensures |ms| > 0 ==> p + [ms[|ms| - 1]] == ms
  {
    if |ms| == 0 then [] else ms[..|ms| - 1]
  }

  /** Converting a concatenation converts each part in turn. */
  lemma {:induction false} ConvertAppend(a: seq<Message>, b: seq<Message>)
    ensures Convert(a + b) == Convert(a) + Convert(b)
    decreases |b|
  {
    if b == [] {
      assert a + b == a;
    } else {
      var b' := b[..|b| - 1];
      ConvertAppend(a, b');
      assert (a + b)[..|a + b| - 1] == a + b';
    }
  }

  /** The history of the messages before the newest one is the whole history
      with exactly the newest message's contribution removed. */
  lemma PriorHistory(ms: seq<Message>)
    requires |ms| > 0
    ensures Convert(ms) == Convert(PriorMessages(ms)) + Contribution(ms[|ms| - 1])
  {
  }

  /** Where message `i` lands in the history: after everything that its predecessors contribute. */
  function Position(ms: seq<Message>, i: nat): nat
    requires i <= |ms|
  {
    |Convert(ms[..i])|
  }

  /** A user or assistant message appears in the history, with its content, at its position. */
  lemma ConvertAt(ms: seq<Message>, i: nat)
    requires i < |ms| && ToModel(ms[i]).Some?
    ensures Position(ms, i) < |Convert(ms)|
    ensures Convert(ms)[Position(ms, i)] == ToModel(ms[i]).value
    ensures Convert(ms)[Position(ms, i)].content == ms[i].content
  {
    assert ms == ms[..i] + [ms[i]] + ms[i + 1..];
    ConvertAppend(ms[..i], [ms[i]]);
    ConvertAppend(ms[..i] + [ms[i]], ms[i + 1..]);
    assert Convert([ms[i]]) == Contribution(ms[i]) by {
      assert [ms[i]][..0] == [];
    }
  }

  /** Of two user or assistant messages, the earlier one comes earlier in the history. */
  lemma ConvertKeepsOrder(ms: seq<Message>, i: nat, j: nat)
    requires i < j < |ms| && ToModel(ms[i]).Some?
    ensures Position(ms, i) < Position(ms, j)
  {
    assert ms[..j] == ms[..i] + [ms[i]] + ms[i + 1..j];
    ConvertAppend(ms[..i], [ms[i]]);
    ConvertAppend(ms[..i] + [ms[i]], ms[i + 1..j]);
    assert Convert([ms[i]]) == Contribution(ms[i]) by {
      assert [ms[i]][..0] == [];
    }
  }

  /** Every history entry comes from some stored message, with the same content. */
  lemma {:induction false} ConvertInventsNothing(ms: seq<Message>, k: nat)
    requires k < |Convert(ms)|
    ensures exists i :: 0 <= i < |ms| && ToModel(ms[i]) == Some(Convert(ms)[k])
    decreases |ms|
  {
    var prior := ms[..|ms| - 1];
    if k < |Convert(prior)| {
      ConvertInventsNothing(prior, k);
      var i :| 0 <= i < |prior| && ToModel(prior[i]) == Some(Convert(prior)[k]);
      assert ms[i] == prior[i];
    } else {
      assert ToModel(ms[|ms| - 1]) == Some(Convert(ms)[k]);
    }
  }

  /** When every message is a user or assistant message, the history has one
      entry per message, each the model-facing form of the message at the same index. */
  lemma {:induction false} ConvertChatOnly(ms: seq<Message>)
    requires forall i :: 0 <= i < |ms| ==> ms[i].role == UserRole || ms[i].role == AssistantRole
    ensures |Convert(ms)| == |ms|
    ensures forall i :: 0 <= i < |ms| ==> Some(Convert(ms)[i]) == ToModel(ms[i])
    decreases |ms|
  {
    if ms != [] {
      ConvertChatOnly(ms[..|ms| - 1]);
    }
  }

  /** The example conversation: user "a", assistant "b", then the newest user "c". */
  lemma HistoryExample()
    ensures Convert(PriorMessages([Message(UserRole, "a"), Message(AssistantRole, "b"), Message(UserRole, "c")]))
         == [Human("a"), AI("b")]
  {
  }

  /** The conversation held by one chat session. */
  class Conversation {
    /** The stored messages, oldest first. */
    var messages: seq<Message>

    /** A session starts with no messages. */
    constructor ()
      ensures messages == []
    {
      messages := [];
    }

    /** Clears the conversation. */
    method Reset()
      modifies this
      ensures messages == []
    {
      messages := [];
    }

    /** Records the user's input as one new user message at the end. */
    method AddUserMessage(input: string)
      modifies this
      ensures messages == old(messages) + [Message(UserRole, input)]
    {
      messages := messages + [Message(UserRole, input)];
    }

    /** Records a generated reply as one new assistant message at the end. */
    method AddAssistantMessage(reply: string)
      modifies this
      ensures messages == old(messages) + [Message(AssistantRole, reply)]
    {
      messages := messages + [Message(AssistantRole, reply)];
    }

    /** Builds the model-facing history from every message but the newest,
        in order, dropping messages of other roles; the stored list is left as it is. */
    method ChatHistory() returns (history: seq<ModelMessage>)
      ensures history == Convert(PriorMessages(messages))
      ensures |messages| > 0 ==> |history| < |messages|
    {
      var prior := PriorMessages(messages);
      history := [];
      var i := 0;
      while i < |prior|
        invariant 0 <= i <= |prior|
        invariant history == Convert(prior[..i])
      {
        var msg := prior[i];
        assert prior[..i + 1][..i] == prior[..i];
        if msg.role == UserRole {
          history := history + [Human(msg.content)];
        } else if msg.role == AssistantRole {
          history := history + [AI(msg.content)];
        }
        i := i + 1;
      }
      assert prior[..i] == prior;
    }

    /** One user turn: an empty input starts no turn and changes nothing;
        otherwise record the input, build the history of everything before
        it, ask the model, and record the reply if there is one. The model
        never sees the newest message in the history. */
    method Turn(input: string, generate: Generator) returns (reply: Option<string>)
      modifies this
      ensures input == "" ==> reply.None? && messages == old(messages)
      ensures input != "" ==> reply == generate(input, Convert(old(messages)))
      ensures input != "" ==>
        messages == old(messages) + [Message(UserRole, input)]
                    + (if reply.Some? then [Message(AssistantRole, reply.value)] else [])
    {
      if input == "" {
        return None;
      }
      AddUserMessage(input);
      var history := ChatHistory();
      assert PriorMessages(messages) == old(messages);
      reply := generate(input, history);
      if reply.Some? {
        AddAssistantMessage(reply.value);
      }
    }
  }
}
