/**
 * The chat panel's message list: a submit appends the user's message and
 * an agent placeholder, each agent update rewrites the latest agent
 * message, and a new session empties the list.
 */
module ChatInterface {
  import opened Wrappers
  import opened Text
  import MockAgent

  /**
   * A chat message. `text` is None where the panel stores null; `results`
   * and `finalAnswer` are None where the message has no such field.
   */
  datatype Message = Message(
    id: int,
    text: Option<string>,
    timestamp: string,
    isUser: bool,
    results: Option<map<string, MockAgent.ToolStatus>>,
    finalAnswer: Option<string>)

  const THINKING: string := "Thinking..."
  const PROCESSING: string := "Processing your request..."

  /** JavaScript truthiness of an optional string: present and not empty. */
  predicate Truthy(s: Option<string>) {
    s.Some? && s.value != ""
  }

  /** The index of the latest message that is not the user's, if any. */
  function LastAgentIndex(messages: seq<Message>): (r: Option<nat>)
    ensures r.Some? ==> r.value < |messages| && !messages[r.value].isUser
    ensures r.Some? ==> forall k :: r.value < k < |messages| ==> messages[k].isUser
    ensures r.None? ==> forall k :: 0 <= k < |messages| ==> messages[k].isUser
  {
    if messages == [] then None
    else if !messages[|messages| - 1].isUser then Some(|messages| - 1)
    else LastAgentIndex(messages[..|messages| - 1])
  }

  /** The agent message rewritten by an update: the text depends on whether the answer is in. */
  function Updated(m: Message, update: MockAgent.Update, time: string): Message {
    m.(text := if Truthy(update.finalAnswer) then None else Some(PROCESSING),
       results := Some(update.results),
       finalAnswer := update.finalAnswer,
       timestamp := time)
  }

  /** The list after an agent update: only the latest agent message changes. */
  function ReplaceLastAgent(messages: seq<Message>, update: MockAgent.Update, time: string): (r: seq<Message>)
    ensures |r| == |messages|
  {
    match LastAgentIndex(messages)
    case None => messages
    case Some(i) => messages[i := Updated(messages[i], update, time)]
  }

  /** With no agent message in the list, an update leaves it as it is. */
  lemma NoAgentNoChange(messages: seq<Message>, update: MockAgent.Update, time: string)
    requires forall k :: 0 <= k < |messages| ==> messages[k].isUser
    ensures ReplaceLastAgent(messages, update, time) == messages
  {}

  /**
   * Otherwise exactly the latest non-user message is rewritten: it keeps its
   * id and stays an agent message, takes the update's results and answer,
   * and its text is null once the answer is in, else the progress note.
   */
  lemma ReplacesOnlyLastAgent(messages: seq<Message>, update: MockAgent.Update, time: string, i: nat)
    requires i < |messages| && !messages[i].isUser
    requires forall k :: i < k < |messages| ==> messages[k].isUser
    ensures var r := ReplaceLastAgent(messages, update, time);
      && (forall k :: 0 <= k < |messages| && k != i ==> r[k] == messages[k])
      && r[i].id == messages[i].id && !r[i].isUser
      && r[i].results == Some(update.results) && r[i].finalAnswer == update.finalAnswer
      && r[i].text == (if Truthy(update.finalAnswer) then None else Some(PROCESSING))
  {
    LastAgentAt(messages, i);
  }

  /** The latest agent message is the one with only user messages after it. */
  lemma LastAgentAt(messages: seq<Message>, i: nat)
    requires i < |messages| && !messages[i].isUser
    requires forall k :: i < k < |messages| ==> messages[k].isUser
    ensures LastAgentIndex(messages) == Some(i)
  {}

  /** Updates do not pile up: a second update overwrites the first one entirely. */
  lemma LaterUpdateWins(messages: seq<Message>, u1: MockAgent.Update, t1: string, u2: MockAgent.Update, t2: string)
    ensures ReplaceLastAgent(ReplaceLastAgent(messages, u1, t1), u2, t2) == ReplaceLastAgent(messages, u2, t2)
  {
    var once := ReplaceLastAgent(messages, u1, t1);
    match LastAgentIndex(messages)
    case None =>
    case Some(i) =>
      ReplacesOnlyLastAgent(messages, u1, t1, i);
      LastAgentAt(once, i);
  }

  /** The user's message for a submitted text. */
  function UserMessage(id: int, text: string, time: string): Message {
    Message(id, Some(text), time, true, None, None)
  }

  /** The agent placeholder put in after it. */
  function Placeholder(id: int, time: string): Message {
    Message(id, Some(THINKING), time, false, Some(map[]), None)
  }

  /** The updates of a submitted query land on the placeholder that submit put in. */
  lemma UpdateHitsPlaceholder(messages: seq<Message>, user: Message, placeholderId: int, time: string,
                              update: MockAgent.Update, later: string)
    requires user.isUser
    ensures ReplaceLastAgent(messages + [user, Placeholder(placeholderId, time)], update, later)
      == messages + [user, Updated(Placeholder(placeholderId, time), update, later)]
  {
    var before := messages + [user, Placeholder(placeholderId, time)];
    assert LastAgentIndex(before) == Some(|before| - 1);
  }

  /** The chat panel's state: the message list and the text in the input field. */
  class ChatState {
    var messages: seq<Message>
    var inputValue: string

    constructor()
      ensures messages == [] && inputValue == ""
    {
      messages := [];
      inputValue := "";
    }

    /** Typing into the field. */
    method SetInput(value: string)
      modifies this
      ensures inputValue == value && messages == old(messages)
    {
      inputValue := value;
    }

    /**
     * `handleSubmit`. The clock is read twice: `now` and `time` for the
     * user's message, `nowAgain` and `timeAgain` for the placeholder. The
     * result is the text handed to `onSendMessage`, if the submit goes through.
     */
    method HandleSubmit(isProcessing: bool, now: int, time: string, nowAgain: int, timeAgain: string)
      returns (sent: Option<string>)
      modifies this
      ensures Blank(old(inputValue), IsJsSpace) || isProcessing ==>
        sent == None && messages == old(messages) && inputValue == old(inputValue)
      ensures !Blank(old(inputValue), IsJsSpace) && !isProcessing ==>
        && sent == Some(old(inputValue))
        && messages == old(messages) + [UserMessage(now, old(inputValue), time), Placeholder(nowAgain + 1, timeAgain)]
        && inputValue == ""
    {
      if JsTrim(inputValue) == "" || isProcessing {
        return None;
      }
      var newUserMessage := Message(now, Some(inputValue), time, true, None, None);
      messages := messages + [newUserMessage];
      var agentPlaceholder := Message(nowAgain + 1, Some(THINKING), timeAgain, false, Some(map[]), None);
      messages := messages + [agentPlaceholder];
      sent := Some(inputValue);
      inputValue := "";
    }

    /** The update callback handed to `onSendMessage`, at displayed time `time`. */
    method OnUpdate(update: MockAgent.Update, time: string)
      modifies this
      ensures messages == ReplaceLastAgent(old(messages), update, time)
      ensures inputValue == old(inputValue)
    {
      var lastAgentIndex := LastAgentIndex(messages);
      if lastAgentIndex.None? {
        return;
      }
      var actualIndex := lastAgentIndex.value;
      var updatedMessages := messages;
      updatedMessages := updatedMessages[actualIndex := Updated(updatedMessages[actualIndex], update, time)];
      messages := updatedMessages;
    }

    /** `handleNewSession`: the list is emptied; the input field keeps its text. */
    method HandleNewSession()
      modifies this
      ensures messages == [] && inputValue == old(inputValue)
    {
      messages := [];
    }
  }
}
