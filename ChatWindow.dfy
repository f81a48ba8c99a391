/** The chat window of the assistant: the list of messages shown, the text
    being typed, and `sendMessage`, which posts the trimmed input as a user
    message and later appends the assistant's reply to it. */
module ChatWindow {
  import opened Text
  import opened Wrappers
  import opened Patterns
  import opened Chatbot

  datatype Sender = User | Ai

  /** A chat message; its id is the length of the list when it was made. */
  datatype Message = Message(id: string, sender: Sender, content: string)

  const AiName := "Peacey"

  /** The greeting the assistant's context provides. */
  const Greeting := "Hi, I'm " + AiName + " – your EternalpEASE assistant! How can I help you today?"

  /** The message the window starts with. */
  const Seed := Message("0", Ai, Greeting)

  /** A reply that has been scheduled but has not arrived yet: the id it will
      carry and the question it answers, both fixed when the user sent. */
  datatype PendingReply = PendingReply(id: string, question: string)


  /** The two messages of one exchange about the trimmed question `q`, the
      first of them placed at `n`: the question, then its reply. */
  function Turn(n: nat, q: string, reply: string -> string): seq<Message> {
    [Message(Numeral(n), User, q), Message(Numeral(n + 1), Ai, reply(q))]
  }

  /** A question as the window posts it: non-empty and trimmed. */
  predicate Posted(q: string) {
    q != [] && Trim(q) == q
  }

  /** A conversation held one exchange at a time, `reply` answering each
      question: the greeting, followed by turns of a posted question and
      its reply, each message carrying its place as id. */
  predicate Transcript(ms: seq<Message>, reply: string -> string)
    decreases |ms|
  {
    if |ms| < 3 then ms == [Seed]
    else
      var n := |ms| - 2;
      Transcript(ms[..n], reply) && Posted(ms[n].content) && ms[n..] == Turn(n, ms[n].content, reply)
  }

  /** The transcript after one exchange about `text`: unchanged when `text`
      is only whitespace, else followed by the trimmed text and its reply. */
  function Exchange(ms: seq<Message>, text: string, reply: string -> string): seq<Message> {
    var q := Trim(text);
    if q == [] then ms else ms + Turn(|ms|, q, reply)
  }

  /** The opening transcript is one. */
  lemma SeedTranscript(reply: string -> string)
    ensures Transcript([Seed], reply)
  {
  }

  /** An exchange keeps a transcript a transcript, and adds two messages
      exactly when the text is not all whitespace. */
  lemma ExchangeKeepsTranscript(ms: seq<Message>, text: string, reply: string -> string)
    requires Transcript(ms, reply)
    ensures Transcript(Exchange(ms, text, reply), reply)
    ensures |Exchange(ms, text, reply)| == if AllWhitespace(text) then |ms| else |ms| + 2
  {
    TrimEmptyIff(text);
    var q := Trim(text);
    if q != [] {
      TrimIdempotent(text);
      var r := ms + Turn(|ms|, q, reply);
      assert r[..|ms|] == ms && r[|ms|..] == Turn(|ms|, q, reply);
    }
  }

  /** Parity two steps on. */
  lemma ParityStep(n: nat)
    requires n % 2 == 1
    ensures (n + 1) % 2 == 0 && (n + 2) % 2 == 1
  {
  }

  /** A transcript has odd length: the greeting and whole turns. */
  lemma {:induction false} TranscriptOdd(ms: seq<Message>, reply: string -> string)
    requires Transcript(ms, reply)
    ensures |ms| % 2 == 1
    decreases |ms|
  {
    if |ms| >= 3 {
      TranscriptOdd(ms[..|ms| - 2], reply);
      ParityStep(|ms| - 2);
    }
  }

  /** What a transcript holds at each place `i`: id `i`; the assistant at
      even places and the user at odd ones; a posted question at odd
      places, and at later even places the reply to the question before. */
  predicate InPlace(ms: seq<Message>, reply: string -> string, i: nat)
    requires i < |ms|
  {
    && ms[i].id == Numeral(i)
    && (ms[i].sender == Ai <==> i % 2 == 0)
    && (i % 2 == 1 ==> Posted(ms[i].content))
    && (0 < i && i % 2 == 0 ==> ms[i].content == reply(ms[i - 1].content))
  }

  /** The two messages of the last turn are in place. */
  lemma LastTurnInPlace(ms: seq<Message>, reply: string -> string, i: nat)
    requires |ms| >= 3 && (|ms| - 2) % 2 == 1
    requires Posted(ms[|ms| - 2].content)
    requires ms[|ms| - 2..] == Turn(|ms| - 2, ms[|ms| - 2].content, reply)
    requires |ms| - 2 <= i < |ms|
    ensures InPlace(ms, reply, i)
  {
    var n := |ms| - 2;
    var t := Turn(n, ms[n].content, reply);
    assert ms[n] == t[0] && ms[n + 1] == t[1];
    ParityStep(n);
  }

  /** A place in place stays so when messages are appended. */
  lemma InPlaceKept(ms: seq<Message>, more: seq<Message>, reply: string -> string, i: nat)
    requires i < |ms| && InPlace(ms, reply, i)
    ensures InPlace(ms + more, reply, i)
  {
    assert (ms + more)[i] == ms[i];
    if 0 < i {
      assert (ms + more)[i - 1] == ms[i - 1];
    }
  }

  /** Every message of a transcript is in place. */
  lemma {:induction false} TranscriptInPlace(ms: seq<Message>, reply: string -> string, i: nat)
    requires Transcript(ms, reply) && i < |ms|
    ensures InPlace(ms, reply, i)
    decreases |ms|
  {
    if |ms| >= 3 {
      var n := |ms| - 2;
      if i < n {
        TranscriptInPlace(ms[..n], reply, i);
        InPlaceKept(ms[..n], ms[n..], reply, i);
        assert ms[..n] + ms[n..] == ms;
      } else {
        TranscriptOdd(ms[..n], reply);
        LastTurnInPlace(ms, reply, i);
      }
    }
  }

  /** In a transcript no two messages share an id. */
  lemma TranscriptIdsDistinct(ms: seq<Message>, reply: string -> string, i: nat, j: nat)
    requires Transcript(ms, reply) && i < j < |ms|
    ensures ms[i].id != ms[j].id
  {
    TranscriptInPlace(ms, reply, i);
    TranscriptInPlace(ms, reply, j);
    if ms[i].id == ms[j].id {
      NumeralInjective(i, j);
    }
  }

  /** Appending two messages one after the other appends the pair. */
  lemma AppendTwo(ms: seq<Message>, first: Message, second: Message)
    ensures ms + [first] + [second] == ms + [first, second]
  {
  }

  /** The window's state; `reply` is the assistant's reply function. */
  class Chat {
    var messages: seq<Message>
    var input: string
    const reply: string -> string

    /** A window opens with the greeting and an empty input, and answers with
        the assistant's rule table. */
    constructor ()
      ensures messages == [Seed] && input == [] && reply == DemoAiResponse
    {
      messages := [Seed];
      input := [];
      reply := DemoAiResponse;
    }

    /** The message a pending reply becomes when it arrives. */
    function Arrived(p: PendingReply): (m: Message)
      ensures m.sender == Ai && m.id == p.id
      ensures m.content == reply(p.question)
    {
      Message(p.id, Ai, reply(p.question))
    }

    /** Typing replaces the input text and leaves the messages alone. */
    method ChangeInput(text: string)
      modifies this
      ensures input == text && messages == old(messages)
    {
      input := text;
    }

    /** `sendMessage`: whitespace-only input changes nothing; otherwise the
        trimmed input is posted as a user message whose id is the list's
        length, the input is cleared, and a reply is scheduled with the next
        id, answering the trimmed text. */
    method SendMessage() returns (pending: Option<PendingReply>)
      modifies this
      ensures AllWhitespace(old(input)) ==>
                pending.None? && messages == old(messages) && input == old(input)
      ensures !AllWhitespace(old(input)) ==>
                && messages == old(messages) + [Message(Numeral(|old(messages)|), User, Trim(old(input)))]
                && input == []
                && pending == Some(PendingReply(Numeral(|old(messages)| + 1), Trim(old(input))))
    {
      TrimEmptyIff(input);
      var q := Trim(input);
      if q == [] {
        return None;
      }
      var n := |messages|;
      messages := messages + [Message(Numeral(n), User, q)];
      input := [];
      pending := Some(PendingReply(Numeral(n + 1), q));
    }

    /** The scheduled reply arrives and is appended as one assistant message. */
    method ReplyArrives(p: PendingReply)
      modifies this
      ensures messages == old(messages) + [Arrived(p)] && input == old(input)
    {
      messages := messages + [Arrived(p)];
    }

    /** Typing `text`, sending it and receiving the reply before anything
        else happens is one exchange, and keeps the transcript a transcript. */
    method Converse(text: string)
      requires Transcript(messages, reply)
      modifies this
      ensures messages == Exchange(old(messages), text, reply) && Transcript(messages, reply)
      ensures input == if AllWhitespace(text) then text else []
    {
      var before, q := messages, Trim(text);
      ghost var after := Exchange(before, text, reply);
      TrimEmptyIff(text);
      ExchangeKeepsTranscript(before, text, reply);
      ChangeInput(text);
      var pending := SendMessage();
      if pending.Some? {
        ReplyArrives(pending.value);
        AppendTwo(before, Message(Numeral(|before|), User, q), Arrived(pending.value));
      }
      assert messages == after;
    }
  }
}
