/** The conversation store of the chat front-end (store/conversationStore.js):
    the transcript, the pending input, the loading flag and the history window
    that is sent back to the server with each question.

    The store is an object whose setters overwrite one field each; it is modelled
    as a class with those four fields. Beside it, the pure part of the model:
    a `Snapshot` of the four fields, the store's mutators as values (`StoreCall`)
    and their effect on a snapshot (`Apply`, `ApplyAll`). The page's handlers are
    sequences of store calls, so their specifications are written with these. */
module Conversation {

  /** The `type` field of a transcript entry. */
  datatype Role = UserMessage | ApiMessage

  /** One transcript entry, the record `{message, type}`. */
  datatype Message = Message(message: string, role: Role)

  /** One entry of the history window: a `[question, answer]` pair. */
  type Exchange = (string, string)

  const GreetingText: string := "Hi there! How can I help?"

  /** The entry every fresh store starts its transcript with. */
  const Greeting: Message := Message(GreetingText, ApiMessage)

  /** The four observable fields of a store at one moment. */
  datatype Snapshot = Snapshot(
    userInput: string,
    history: seq<Exchange>,
    loading: bool,
    messages: seq<Message>)

  /** The field values a freshly constructed store holds. */
  function Initial(): Snapshot {
    Snapshot("", [], false, [Greeting])
  }

  /** A call of one of the store's mutators, with its argument. */
  datatype StoreCall =
    | SetUserInput(input: string)
    | SetLoading(flag: bool)
    | SetMessages(entries: seq<Message>)
    | AddMessage(entry: Message)
    | SetHistory(exchanges: seq<Exchange>)

  /** The effect of one mutator call. Every call is total: there is no
      precondition and no failure path. Each call changes its own field and
      nothing else; `AddMessage` only appends, so among the mutators only
      `SetMessages` can remove or alter an existing transcript entry. */
  function Apply(s: Snapshot, c: StoreCall): (r: Snapshot)
    ensures c.SetUserInput? ==> r.userInput == c.input
    ensures c.SetLoading? ==> r.loading == c.flag
    ensures c.SetHistory? ==> r.history == c.exchanges
    ensures c.SetMessages? ==> r.messages == c.entries
    ensures c.AddMessage? ==>
      |r.messages| == |s.messages| + 1 &&
      r.messages[..|s.messages|] == s.messages &&
      r.messages[|s.messages|] == c.entry
    ensures !c.SetMessages? && !c.AddMessage? ==> r.messages == s.messages
    ensures !c.SetUserInput? ==> r.userInput == s.userInput
    ensures !c.SetLoading? ==> r.loading == s.loading
    ensures !c.SetHistory? ==> r.history == s.history
  {
    match c
    case SetUserInput(input) => s.(userInput := input)
    case SetLoading(flag) => s.(loading := flag)
    case SetMessages(entries) => s.(messages := entries)
    case AddMessage(entry) => s.(messages := s.messages + [entry])
    case SetHistory(exchanges) => s.(history := exchanges)
  }

  /** No call in `calls` replaces the transcript wholesale. */
  predicate OnlyAppends(calls: seq<StoreCall>) {
    forall i | 0 <= i < |calls| :: !calls[i].SetMessages?
  }

  /** The entries that the `AddMessage` calls of `calls` append, in order. */
  function Appended(calls: seq<StoreCall>): seq<Message>
    decreases |calls|
  {
    if calls == [] then []
    else
      var last := calls[|calls| - 1];
      Appended(calls[..|calls| - 1]) + (if last.AddMessage? then [last.entry] else [])
  }

  /** The effect of a sequence of mutator calls made one after the other.
      When none of them is `SetMessages`, the old transcript survives as a
      prefix and grows by exactly the appended entries; in particular the
      greeting at index 0 stays where it is. */
  function ApplyAll(s: Snapshot, calls: seq<StoreCall>): (r: Snapshot)
    decreases |calls|
    ensures OnlyAppends(calls) ==> r.messages == s.messages + Appended(calls)
  {
    if calls == [] then s
    else
      var init := calls[..|calls| - 1];
      assert OnlyAppends(calls) ==> OnlyAppends(init) by {
        if OnlyAppends(calls) {
          forall i | 0 <= i < |init| ensures !init[i].SetMessages? {
            assert init[i] == calls[i];
          }
        }
      }
      Apply(ApplyAll(s, init), calls[|calls| - 1])
  }

  /** One more call after `calls` acts on the state `calls` left behind. */
  lemma ApplyAllSnoc(s: Snapshot, calls: seq<StoreCall>, c: StoreCall)
    ensures ApplyAll(s, calls + [c]) == Apply(ApplyAll(s, calls), c)
  {
    assert (calls + [c])[..|calls|] == calls;
  }

  /** Making the calls of `a` and then those of `b` is making the calls of
      `a + b`. */
  lemma {:induction false} ApplyAllConcat(s: Snapshot, a: seq<StoreCall>, b: seq<StoreCall>)
    ensures ApplyAll(s, a + b) == ApplyAll(ApplyAll(s, a), b)
    decreases |b|
  {
    if b == [] {
      assert a + b == a;
    } else {
      var init := b[..|b| - 1];
      assert (a + b)[..|a + b| - 1] == a + init;
      assert (a + b)[|a + b| - 1] == b[|b| - 1];
      ApplyAllConcat(s, a, init);
    }
  }

  /** A sequence of calls without `SetMessages` keeps every existing
      transcript entry, the greeting at index 0 included. */
  lemma AppendOnlyKeepsTranscript(s: Snapshot, calls: seq<StoreCall>, i: nat)
    requires OnlyAppends(calls)
    requires i < |s.messages|
    ensures i < |ApplyAll(s, calls).messages|
    ensures ApplyAll(s, calls).messages[i] == s.messages[i]
  {
  }

  /** `SetMessages` on its own can remove the greeting: the only mutator that can. */
  lemma SetMessagesCanDropGreeting(s: Snapshot)
    requires s.messages == [Greeting]
    ensures ApplyAll(s, [StoreCall.SetMessages([])]).messages == []
    ensures !OnlyAppends([StoreCall.SetMessages([])])
  {
    assert [StoreCall.SetMessages([])][..0] == [];
  }

  /** `a` and `b` agree on every field except the history window. */
  predicate SameButHistory(a: Snapshot, b: Snapshot) {
    a.messages == b.messages && a.loading == b.loading && a.userInput == b.userInput
  }

  /** The mutators never read the history window: the same calls from two
      states that differ only there lead to states that differ only there. */
  lemma {:induction false} ApplyAllIgnoresHistory(a: Snapshot, b: Snapshot, calls: seq<StoreCall>)
    requires SameButHistory(a, b)
    ensures SameButHistory(ApplyAll(a, calls), ApplyAll(b, calls))
    decreases |calls|
  {
    if calls != [] {
      ApplyAllIgnoresHistory(a, b, calls[..|calls| - 1]);
    }
  }

  /** The store object. Its setters overwrite one field each; `AddMessage`
      pushes onto the transcript in place. */
  class ConversationStore {
    var userInput: string
    var history: seq<Exchange>
    var loading: bool
    var messages: seq<Message>

    /** The current values of the four fields. */
    function State(): Snapshot
      reads this
    {
      Snapshot(userInput, history, loading, messages)
    }

    /** A fresh store: empty input, empty history, not loading, and a
        transcript holding only the greeting. */
    constructor ()
      ensures userInput == "" && history == [] && !loading
      ensures messages == [Greeting]
      ensures messages[0] == Message("Hi there! How can I help?", ApiMessage)
      ensures State() == Initial()
    {
      userInput := "";
      history := [];
      loading := false;
      messages := [Greeting];
    }

    method SetUserInput(input: string)
      modifies this
      ensures userInput == input
      ensures history == old(history) && loading == old(loading) && messages == old(messages)
      ensures State() == Apply(old(State()), StoreCall.SetUserInput(input))
    {
      userInput := input;
    }

    method SetLoading(flag: bool)
      modifies this
      ensures loading == flag
      ensures userInput == old(userInput) && history == old(history) && messages == old(messages)
      ensures State() == Apply(old(State()), StoreCall.SetLoading(flag))
    {
      loading := flag;
    }

    /** Replaces the whole transcript, the greeting included. */
    method SetMessages(entries: seq<Message>)
      modifies this
      ensures messages == entries
      ensures userInput == old(userInput) && history == old(history) && loading == old(loading)
      ensures State() == Apply(old(State()), StoreCall.SetMessages(entries))
    {
      messages := entries;
    }

    /** Appends one entry: the transcript grows by one, every earlier entry
        is kept, and `entry` is the last one. */
    method AddMessage(entry: Message)
      modifies this
      ensures |messages| == |old(messages)| + 1
      ensures messages[..|old(messages)|] == old(messages)
      ensures messages[|messages| - 1] == entry
      ensures userInput == old(userInput) && history == old(history) && loading == old(loading)
      ensures State() == Apply(old(State()), StoreCall.AddMessage(entry))
    {
      messages := messages + [entry];
    }

    method SetHistory(exchanges: seq<Exchange>)
      modifies this
      ensures history == exchanges
      ensures userInput == old(userInput) && loading == old(loading) && messages == old(messages)
      ensures State() == Apply(old(State()), StoreCall.SetHistory(exchanges))
    {
      history := exchanges;
    }
  }
}
