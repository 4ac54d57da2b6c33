/**
 * The floating support chat (`src/components/chat/ChatBot.tsx`): an append-only message log
 * that ignores blank input and answers every message with one canned reply. The one-second
 * timer that delivers a reply is modelled as an explicit step, `DeliverReply`, which is only
 * possible while a reply is pending.
 */
module ChatBot {
  import Text

  datatype Message = Message(text: string, isUser: bool)

  const Greeting := Message("Hello! How can I help you today?", false)
  const CannedReply := Message("Thank you for your message. Our team will get back to you soon.", false)

  function UserCount(log: seq<Message>): (n: nat)
    ensures n <= |log|
  {
    if log == [] then 0 else UserCount(log[..|log| - 1]) + (if log[|log| - 1].isUser then 1 else 0)
  }

  /** What a send does to the log: a blank input (one whose trim is empty) adds nothing,
      any other input is appended as the user's message, untrimmed. */
  function AfterSend(log: seq<Message>, input: string): (r: seq<Message>)
    ensures log <= r && |r| <= |log| + 1
    ensures |r| == |log| + 1 <==> Text.Trim(input) != []
    ensures |r| == |log| + 1 ==> r[|log|] == Message(input, true)
  {
    if Text.Trim(input) == [] then log else log + [Message(input, true)]
  }

  /** Appending one message adds one to the user count exactly when it is the user's. */
  lemma UserCountAppend(log: seq<Message>, m: Message)
    ensures UserCount(log + [m]) == UserCount(log) + (if m.isUser then 1 else 0)
  {
    assert (log + [m])[..|log|] == log;
  }

  class ChatWidget {
    var isOpen: bool
    var messages: seq<Message>
    var input: string
    /** Replies scheduled by a send and not yet delivered. */
    var pending: nat

    /** The greeting stays first, every user message has visible text, and each user
        message is answered by exactly one reply, delivered or still pending. */
    ghost predicate Valid()
      reads this
    {
      && |messages| >= 1 && messages[0] == Greeting
      && (forall i :: 0 <= i < |messages| && messages[i].isUser ==> Text.Trim(messages[i].text) != [])
      && (forall i :: 1 <= i < |messages| && !messages[i].isUser ==> messages[i] == CannedReply)
      && UserCount(messages) == (|messages| - 1 - UserCount(messages)) + pending
    }

    constructor ()
      ensures Valid()
      ensures !isOpen && messages == [Greeting] && input == "" && pending == 0
    {
      isOpen := false;
      messages := [Greeting];
      input := "";
      pending := 0;
      assert UserCount([Greeting]) == UserCount([]) + 0;
    }

    method Open()
      modifies this
      ensures old(Valid()) ==> Valid()
      ensures isOpen && messages == old(messages) && input == old(input) && pending == old(pending)
    {
      isOpen := true;
    }

    method Close()
      modifies this
      ensures old(Valid()) ==> Valid()
      ensures !isOpen && messages == old(messages) && input == old(input) && pending == old(pending)
    {
      isOpen := false;
    }

    /** Typing into the input box. */
    method SetInput(value: string)
      modifies this
      ensures old(Valid()) ==> Valid()
      ensures input == value && isOpen == old(isOpen) && messages == old(messages) && pending == old(pending)
    {
      input := value;
    }

    /** The Send button or the Enter key. */
    method HandleSend()
      requires Valid()
      modifies this
      ensures Valid()
      ensures messages == AfterSend(old(messages), old(input))
      ensures Text.Trim(old(input)) == [] ==> input == old(input) && pending == old(pending)
      ensures Text.Trim(old(input)) != [] ==> input == "" && pending == old(pending) + 1
      ensures isOpen == old(isOpen)
    {
      if Text.Trim(input) == [] {
        return;
      }
      PostInput();
    }

    /** The non-blank branch of a send: the input, untrimmed, becomes the user's message, the
        box is cleared and one reply is scheduled. */
    method PostInput()
      requires Valid() && Text.Trim(input) != []
      modifies this
      ensures Valid()
      ensures messages == old(messages) + [Message(old(input), true)]
      ensures input == "" && pending == old(pending) + 1 && isOpen == old(isOpen)
    {
      var m := Message(input, true);
      UserCountAppend(messages, m);
      messages := messages + [m];
      pending := pending + 1;
      input := "";
    }

    /** The timer of an earlier send fires: the canned reply is appended, whatever was asked. */
    method DeliverReply()
      requires Valid() && pending > 0
      modifies this
      ensures Valid()
      ensures messages == old(messages) + [CannedReply] && pending == old(pending) - 1
      ensures input == old(input) && isOpen == old(isOpen)
    {
      UserCountAppend(messages, CannedReply);
      messages := messages + [CannedReply];
      pending := pending - 1;
    }
  }

  /** Sending a blank line changes nothing; sending text then waiting yields the greeting,
      the text and the canned reply. */
  method SendScenario(blank: string, text: string)
    requires Text.AllSpace(blank) && Text.Trim(text) != []
  {
    var chat := new ChatWidget();
    chat.Open();
    chat.SetInput(blank);
    Text.TrimEmptyIff(blank);
    chat.HandleSend();
    assert chat.messages == [Greeting] && chat.pending == 0;
    chat.SetInput(text);
    chat.HandleSend();
    assert chat.messages == [Greeting] + [Message(text, true)];
    chat.DeliverReply();
    assert chat.messages == [Greeting] + [Message(text, true)] + [CannedReply];
    assert chat.input == "" && chat.pending == 0;
  }
}
