/**
 * The chat screen's session: the conversation, the text being typed and the
 * token balance. A send that is accepted schedules one agent reply; the
 * reply arrives later, as a separate step.
 */
module Chat {
  import opened Wrappers
  import opened Text
  import Agents
  import Tokens

  datatype Role = User | Agent
  datatype Message = Message(role: Role, content: string)

  const InitialTokens := 100

  /** The opening message; with no agent, the template prints "undefined". */
  function Greeting(agent: Option<Agents.Agent>): string {
    var name := if agent.Some? then agent.value.name else "undefined";
    "Hey there! 💕 I'm " + name + ". I'm so happy you're here to chat with me! How are you feeling today?"
  }

  /** The five canned replies; one of them, picked at random, answers each send. */
  const Responses: seq<string> := [
    "That's so sweet of you to say! 💖 Tell me more...",
    "I love talking to you! You always make me smile 😊",
    "You're such an interesting person! I want to know everything about you ✨",
    "Aww, you're making me blush! 😊💕",
    "I feel so connected to you right now... 💞"
  ]

  /** How many messages of `messages` the user sent. */
  function UserMessages(messages: seq<Message>): nat {
    if messages == [] then 0
    else UserMessages(messages[..|messages| - 1]) + (if messages[|messages| - 1].role == User then 1 else 0)
  }

  /** Appending one message adds one to the count exactly when the user sent it. */
  lemma UserMessagesAppend(messages: seq<Message>, m: Message)
    ensures UserMessages(messages + [m]) == UserMessages(messages) + (if m.role == User then 1 else 0)
  {
    assert (messages + [m])[..|messages|] == messages;
  }

  /** What a send did: nothing (blank input), a refusal for lack of tokens, or a send. */
  datatype SendOutcome = Ignored | NotEnoughTokens | Sent

  class ChatSession {
    /** The agent the route's id names, or `None`: then the page shows "Agent not found". */
    const agent: Option<Agents.Agent>
    var messages: seq<Message>
    var input: string
    var tokens: int
    /** Replies scheduled by accepted sends and not yet delivered. */
    var pendingReplies: nat
    /** Sends accepted and replies delivered so far. */
    ghost var accepted: nat
    ghost var delivered: nat

    /**
     * Every accepted send cost its tokens and is answered by a reply that is
     * either delivered or pending; the conversation opens with the greeting,
     * holds one user message per accepted send, and one more message per
     * delivered reply.
     */
    ghost predicate Valid()
      reads this
    {
      && tokens == InitialTokens - Tokens.MessageCost * accepted
      && 0 <= tokens
      && accepted == delivered + pendingReplies
      && |messages| == 1 + accepted + delivered
      && UserMessages(messages) == accepted
      && messages[0] == Message(Agent, Greeting(agent))
    }

    /** Opening the chat page for the agent with id `id`. */
    constructor (id: string)
      ensures agent == Agents.Find(Agents.Catalog(), id)
      ensures Valid()
      ensures messages == [Message(Agent, Greeting(agent))]
      ensures input == "" && tokens == InitialTokens && pendingReplies == 0
    {
      agent := Agents.Find(Agents.Catalog(), id);
      messages := [Message(Agent, Greeting(Agents.Find(Agents.Catalog(), id)))];
      input := "";
      tokens := InitialTokens;
      pendingReplies := 0;
      accepted, delivered := 0, 0;
    }

    /** Typing into the message box. */
    method SetInput(text: string)
      requires Valid()
      modifies this
      ensures Valid() && input == text
      ensures messages == old(messages) && tokens == old(tokens) && pendingReplies == old(pendingReplies)
    {
      input := text;
    }

    /**
     * `handleSend`, offered only when the agent was found. Blank input is
     * ignored and a balance below the message cost is refused, both without
     * any change; otherwise the input, untrimmed, is appended as a user
     * message, the box is cleared, the cost is debited and one reply is
     * scheduled.
     */
    method Send() returns (outcome: SendOutcome)
      requires Valid() && agent.Some?
      modifies this
      ensures Valid()
      ensures outcome == Ignored <==> IsBlank(old(input))
      ensures outcome == NotEnoughTokens <==> !IsBlank(old(input)) && old(tokens) < Tokens.MessageCost
      ensures outcome == Sent ==>
        && messages == old(messages) + [Message(User, old(input))]
        && input == ""
        && tokens == old(tokens) - Tokens.MessageCost
        && pendingReplies == old(pendingReplies) + 1
      ensures outcome != Sent ==>
        && messages == old(messages) && input == old(input)
        && tokens == old(tokens) && pendingReplies == old(pendingReplies)
    {
      if Trim(input) == "" {
        return Ignored;
      }
      if tokens < 2 {
        return NotEnoughTokens;
      }
      UserMessagesAppend(messages, Message(User, input));
      messages := messages + [Message(User, input)];
      input := "";
      tokens := tokens - 2;
      pendingReplies := pendingReplies + 1;
      accepted := accepted + 1;
      outcome := Sent;
    }

    /**
     * The scheduled reply arriving: canned response number `choice` (the
     * random index, below 5) is appended after everything already shown.
     */
    method DeliverReply(choice: nat)
      requires Valid() && pendingReplies > 0 && choice < |Responses|
      modifies this
      ensures Valid()
      ensures messages == old(messages) + [Message(Agent, Responses[choice])]
      ensures pendingReplies == old(pendingReplies) - 1
      ensures input == old(input) && tokens == old(tokens)
    {
      UserMessagesAppend(messages, Message(Agent, Responses[choice]));
      messages := messages + [Message(Agent, Responses[choice])];
      pendingReplies := pendingReplies - 1;
      delivered := delivered + 1;
    }

    /** The balance is even and never negative, so at most 50 sends are ever accepted. */
    lemma BalanceBounds()
      requires Valid()
      ensures 0 <= tokens <= InitialTokens && tokens % 2 == 0
      ensures accepted <= InitialTokens / Tokens.MessageCost
    {
    }
  }
}
