/** The round-trip logic of the chat page (pages/index.js): the handlers that
    submit a question, record the server's answer or an apology, decide what a
    key press does, and keep the history window in step with the transcript.

    The page's network request is not performed: its outcome is a parameter
    (`Outcome`), and the request the page would send is returned
    (`ChatRequest`). The handlers act on the store object, as the page's
    closures do. */
module ChatPage {
  import opened Conversation

  datatype Option<T> = None | Some(value: T)

  const ApologyText: string := "Oops! There seems to be an error. Please try again."

  /** The fixed entry the error handler appends. */
  const Apology: Message := Message(ApologyText, ApiMessage)

  /** The `result.error` value that the page treats like a failed response. */
  const Unauthorized: string := "Unauthorized"

  // ---------------------------------------------------------------------------
  // Blank input: the page's `userInput.trim() === ''` test
  // ---------------------------------------------------------------------------

  /** The code points that ECMAScript's `String.prototype.trim` strips:
      the WhiteSpace characters (tab, vertical tab, form feed, the byte order
      mark and every space separator) and the LineTerminator characters. */
  predicate IsWhitespace(c: char) {
    var n := c as int;
    n == 0x09 || n == 0x0A || n == 0x0B || n == 0x0C || n == 0x0D ||
    n == 0x20 || n == 0xA0 || n == 0x1680 || (0x2000 <= n <= 0x200A) ||
    n == 0x2028 || n == 0x2029 || n == 0x202F || n == 0x205F ||
    n == 0x3000 || n == 0xFEFF
  }

  /** `s` without its leading whitespace. */
  function TrimStart(s: string): string {
    if s != [] && IsWhitespace(s[0]) then TrimStart(s[1..]) else s
  }

  /** `s` without its trailing whitespace. */
  function TrimEnd(s: string): string {
    if s != [] && IsWhitespace(s[|s| - 1]) then TrimEnd(s[..|s| - 1]) else s
  }

  /** `userInput.trim()`. */
  function Trim(s: string): string {
    TrimEnd(TrimStart(s))
  }

  predicate IsBlank(s: string) {
    Trim(s) == ""
  }

  /** `TrimStart` keeps a suffix of `s` that does not start with whitespace,
      and everything it cuts off is whitespace. */
  lemma {:induction false} TrimStartCutsWhitespace(s: string)
    ensures |TrimStart(s)| <= |s| && TrimStart(s) == s[|s| - |TrimStart(s)|..]
    ensures TrimStart(s) == [] || !IsWhitespace(TrimStart(s)[0])
    ensures forall i | 0 <= i < |s| - |TrimStart(s)| :: IsWhitespace(s[i])
  {
    if s != [] && IsWhitespace(s[0]) {
      TrimStartCutsWhitespace(s[1..]);
      forall i | 0 <= i < |s| - |TrimStart(s)| ensures IsWhitespace(s[i]) {
        if i > 0 {
          assert s[i] == s[1..][i - 1];
        }
      }
    }
  }

  /** `TrimEnd` keeps a prefix of `s` that does not end with whitespace, and
      everything it cuts off is whitespace. */
  lemma {:induction false} TrimEndCutsWhitespace(s: string)
    ensures |TrimEnd(s)| <= |s| && TrimEnd(s) == s[..|TrimEnd(s)|]
    ensures TrimEnd(s) == [] || !IsWhitespace(TrimEnd(s)[|TrimEnd(s)| - 1])
    ensures forall i | |TrimEnd(s)| <= i < |s| :: IsWhitespace(s[i])
  {
    if s != [] && IsWhitespace(s[|s| - 1]) {
      TrimEndCutsWhitespace(s[..|s| - 1]);
      forall i | |TrimEnd(s)| <= i < |s| ensures IsWhitespace(s[i]) {
        if i < |s| - 1 {
          assert s[i] == s[..|s| - 1][i];
        }
      }
    }
  }

  /** Input is blank exactly when every character of it is whitespace; the
      empty string is blank. */
  lemma BlankIffAllWhitespace(s: string)
    ensures IsBlank(s) <==> forall i | 0 <= i < |s| :: IsWhitespace(s[i])
  {
    var t := TrimStart(s);
    TrimStartCutsWhitespace(s);
    TrimEndCutsWhitespace(t);
    if t != [] {
      assert !IsWhitespace(t[0]);
      assert TrimEnd(t) != [];
      assert !IsWhitespace(s[|s| - |t|]);
    }
  }

  // ---------------------------------------------------------------------------
  // The server's answer and the request the page sends
  // ---------------------------------------------------------------------------

  /** What the page's single request produces, in the order the code looks at it. */
  datatype Outcome =
      /** `fetch` itself rejects (no response at all); nothing catches it. */
    | NetworkFailure
      /** A response arrives with `ok` false. */
    | NotOk
      /** A response arrives with `ok` true but reading its body rejects or the
          body has no `result`; nothing catches it. */
    | MalformedBody
      /** A response arrives with `ok` true and its body parses; `error` and
          `success` are the fields of `data.result`. */
    | Ok(error: string, success: string)

  /** The JSON body of the POST the page sends. */
  datatype ChatRequest = ChatRequest(question: string, history: seq<Exchange>)

  /** The outcomes that the page reports with the apology. */
  predicate Refused(o: Outcome) {
    o.NotOk? || (o.Ok? && o.error == Unauthorized)
  }

  /** The outcomes after which the handler runs to its end and clears `loading`. */
  predicate Completes(o: Outcome) {
    o.NotOk? || o.Ok?
  }

  /** The entry a completed round trip shows as the answer. */
  function Answer(o: Outcome): Message
    requires Completes(o)
  {
    if Refused(o) then Apology else Message(o.success, ApiMessage)
  }

  /** The request a submission would send from state `s`: none for blank
      input, otherwise the current input as the question and the current
      history window. */
  function Request(s: Snapshot): Option<ChatRequest> {
    if IsBlank(s.userInput) then None else Some(ChatRequest(s.userInput, s.history))
  }

  // ---------------------------------------------------------------------------
  // The handlers as sequences of store calls
  // ---------------------------------------------------------------------------

  /** The store calls of the error handler, in order. */
  const ErrorCalls: seq<StoreCall> :=
    [StoreCall.AddMessage(Apology), StoreCall.SetLoading(false), StoreCall.SetUserInput("")]

  /** The store calls the submit handler makes from state `s` when the request
      ends in `o`, in order. The `Unauthorized` branch clears the input twice:
      once before reading the body and once more in the error handler. */
  function SubmitCalls(s: Snapshot, o: Outcome): seq<StoreCall> {
    if IsBlank(s.userInput) then []
    else
      var start := [StoreCall.SetLoading(true), StoreCall.AddMessage(Message(s.userInput, UserMessage))];
      match o
      case NetworkFailure => start
      case NotOk => start + ErrorCalls
      case MalformedBody => start + [StoreCall.SetUserInput("")]
      case Ok(error, success) =>
        if error == Unauthorized then start + [StoreCall.SetUserInput("")] + ErrorCalls
        else start + [StoreCall.SetUserInput(""), StoreCall.AddMessage(Message(success, ApiMessage)),
                      StoreCall.SetLoading(false)]
  }

  /** The state after the submit handler has run to its end with outcome `o`. */
  function Submit(s: Snapshot, o: Outcome): Snapshot {
    ApplyAll(s, SubmitCalls(s, o))
  }

  /** The first two calls of a submission: `loading` is set and the user's
      entry appended; nothing else changes. */
  lemma StartEffect(s: Snapshot)
    ensures ApplyAll(s, [StoreCall.SetLoading(true), StoreCall.AddMessage(Message(s.userInput, UserMessage))])
         == s.(loading := true, messages := s.messages + [Message(s.userInput, UserMessage)])
  {
    var c0 := StoreCall.SetLoading(true);
    var c1 := StoreCall.AddMessage(Message(s.userInput, UserMessage));
    assert [c0, c1] == [c0] + [c1];
    assert [c0] == [] + [c0];
    ApplyAllSnoc(s, [], c0);
    var s1 := s.(loading := true);
    assert ApplyAll(s, [c0]) == s1;
    ApplyAllSnoc(s, [c0], c1);
    assert ApplyAll(s, [c0, c1]) == s1.(messages := s.messages + [Message(s.userInput, UserMessage)]);
  }

  /** The error handler's calls: the apology is appended, `loading` cleared
      and the input cleared; the history window is left alone. */
  lemma ErrorEffect(s: Snapshot)
    ensures ApplyAll(s, ErrorCalls)
         == s.(messages := s.messages + [Apology], loading := false, userInput := "")
  {
    var c0 := StoreCall.AddMessage(Apology);
    var c1 := StoreCall.SetLoading(false);
    var c2 := StoreCall.SetUserInput("");
    assert ErrorCalls == [c0, c1] + [c2];
    assert [c0, c1] == [c0] + [c1];
    assert [c0] == [] + [c0];
    ApplyAllSnoc(s, [], c0);
    var s1 := s.(messages := s.messages + [Apology]);
    assert ApplyAll(s, [c0]) == s1;
    ApplyAllSnoc(s, [c0], c1);
    var s2 := s1.(loading := false);
    assert ApplyAll(s, [c0, c1]) == s2;
    ApplyAllSnoc(s, [c0, c1], c2);
    assert ApplyAll(s, ErrorCalls) == s2.(userInput := "");
  }

  /** Submitting blank input changes nothing and sends nothing. */
  lemma SubmitBlank(s: Snapshot, o: Outcome)
    requires IsBlank(s.userInput)
    ensures Submit(s, o) == s
    ensures Request(s) == None
  {
  }

  /** A refused request (not ok, or ok with `Unauthorized`): the transcript
      ends with the user's entry followed by the apology, having grown by
      exactly two; `loading` is cleared, the input is cleared and the
      history window is unchanged. */
  lemma SubmitRefused(s: Snapshot, o: Outcome)
    requires !IsBlank(s.userInput) && Refused(o)
    ensures var r := Submit(s, o);
      r.messages == s.messages + [Message(s.userInput, UserMessage), Apology] &&
      |r.messages| == |s.messages| + 2 &&
      !r.loading && r.userInput == "" && r.history == s.history
  {
    var user := Message(s.userInput, UserMessage);
    var start := [StoreCall.SetLoading(true), StoreCall.AddMessage(user)];
    var started := s.(loading := true, messages := s.messages + [user]);
    StartEffect(s);
    if o.NotOk? {
      ApplyAllConcat(s, start, ErrorCalls);
      ErrorEffect(started);
    } else {
      var clear := start + [StoreCall.SetUserInput("")];
      ApplyAllConcat(s, clear, ErrorCalls);
      ApplyAllSnoc(s, start, StoreCall.SetUserInput(""));
      ErrorEffect(started.(userInput := ""));
    }
  }

  /** An accepted request: the input is cleared and the transcript ends with
      the user's entry followed by the server's answer, having grown by
      exactly two; `loading` is cleared and the history window is unchanged. */
  lemma SubmitAnswered(s: Snapshot, o: Outcome)
    requires !IsBlank(s.userInput) && o.Ok? && o.error != Unauthorized
    ensures var r := Submit(s, o);
      r.messages == s.messages + [Message(s.userInput, UserMessage), Message(o.success, ApiMessage)] &&
      |r.messages| == |s.messages| + 2 &&
      !r.loading && r.userInput == "" && r.history == s.history
  {
    var c0 := StoreCall.SetLoading(true);
    var c1 := StoreCall.AddMessage(Message(s.userInput, UserMessage));
    var c2 := StoreCall.SetUserInput("");
    var c3 := StoreCall.AddMessage(Message(o.success, ApiMessage));
    var c4 := StoreCall.SetLoading(false);
    assert SubmitCalls(s, o) == [c0, c1, c2, c3, c4];
    StartEffect(s);
    ApplyAllSnoc(s, [c0, c1], c2);
    assert [c0, c1] + [c2] == [c0, c1, c2];
    ApplyAllSnoc(s, [c0, c1, c2], c3);
    assert [c0, c1, c2] + [c3] == [c0, c1, c2, c3];
    ApplyAllSnoc(s, [c0, c1, c2, c3], c4);
    assert [c0, c1, c2, c3] + [c4] == [c0, c1, c2, c3, c4];
  }

  /** A request that rejects (no response, or a body that cannot be read):
      nothing after the rejection runs, so the transcript ends with the
      user's entry alone and `loading` stays set, which keeps the page
      disabled. The input is cleared only when a response had arrived. */
  lemma SubmitUnanswered(s: Snapshot, o: Outcome)
    requires !IsBlank(s.userInput) && (o.NetworkFailure? || o.MalformedBody?)
    ensures var r := Submit(s, o);
      r.messages == s.messages + [Message(s.userInput, UserMessage)] &&
      r.loading && r.history == s.history &&
      r.userInput == (if o.NetworkFailure? then s.userInput else "")
  {
    var user := Message(s.userInput, UserMessage);
    var start := [StoreCall.SetLoading(true), StoreCall.AddMessage(user)];
    StartEffect(s);
    if o.MalformedBody? {
      ApplyAllSnoc(s, start, StoreCall.SetUserInput(""));
    }
  }

  /** Whatever the outcome, the submit handler never replaces the transcript:
      every entry it had, the greeting at index 0 included, stays in place. */
  lemma SubmitKeepsTranscript(s: Snapshot, o: Outcome)
    ensures OnlyAppends(SubmitCalls(s, o))
    ensures |Submit(s, o).messages| >= |s.messages|
    ensures forall i | 0 <= i < |s.messages| :: Submit(s, o).messages[i] == s.messages[i]
  {
    var calls := SubmitCalls(s, o);
    assert OnlyAppends(ErrorCalls);
    assert OnlyAppends(calls);
    forall i | 0 <= i < |s.messages| ensures Submit(s, o).messages[i] == s.messages[i] {
      AppendOnlyKeepsTranscript(s, calls, i);
    }
  }

  // ---------------------------------------------------------------------------
  // Key presses
  // ---------------------------------------------------------------------------

  /** What a key press in the text area leads to. `Submits` also suppresses
      the key's default, since the submit handler does that first. */
  datatype KeyAction = Submits | PreventsDefault | Ignores

  /** The key handler's decision. Enter without shift submits non-empty input;
      Enter on empty input is only suppressed; shift+Enter on non-empty input
      and every other key are left to the browser. Only the empty string
      counts as empty here: whitespace-only input is submitted. */
  function OnKeyDown(key: string, shiftKey: bool, userInput: string): (a: KeyAction)
    ensures a == Submits <==> key == "Enter" && !shiftKey && userInput != ""
    ensures a == PreventsDefault <==> key == "Enter" && userInput == ""
    ensures a == Ignores <==> key != "Enter" || (shiftKey && userInput != "")
  {
    if key == "Enter" && userInput != "" then
      if !shiftKey && userInput != "" then Submits else Ignores
    else if key == "Enter" then PreventsDefault
    else Ignores
  }

  /** Enter on whitespace-only input reaches the submit handler, which then
      leaves the whole store as it was. */
  lemma WhitespaceEnterChangesNothing(s: Snapshot, o: Outcome)
    requires s.userInput != ""
    requires forall i | 0 <= i < |s.userInput| :: IsWhitespace(s.userInput[i])
    ensures OnKeyDown("Enter", false, s.userInput) == Submits
    ensures Submit(s, o) == s
    ensures Request(s) == None
  {
    BlankIffAllWhitespace(s.userInput);
  }

  // ---------------------------------------------------------------------------
  // The history window
  // ---------------------------------------------------------------------------

  /** The history the sync effect leaves behind: with three entries or more,
      the single pair of the last two entries' texts; otherwise unchanged. */
  function SyncedHistory(messages: seq<Message>, history: seq<Exchange>): seq<Exchange> {
    if |messages| >= 3 then
      [(messages[|messages| - 2].message, messages[|messages| - 1].message)]
    else history
  }

  /** After a completed round trip on a transcript that holds at least the
      greeting, the sync puts exactly the question just asked and the answer
      just shown into the history window. */
  lemma HistoryAfterRoundTrip(s: Snapshot, o: Outcome)
    requires |s.messages| >= 1
    requires !IsBlank(s.userInput) && Completes(o)
    ensures var r := Submit(s, o);
      SyncedHistory(r.messages, r.history) == [(s.userInput, Answer(o).message)]
  {
    if Refused(o) {
      SubmitRefused(s, o);
    } else {
      SubmitAnswered(s, o);
    }
  }

  // ---------------------------------------------------------------------------
  // Sessions: many round trips in a row
  // ---------------------------------------------------------------------------

  /** One round as the design intends it: type `question`, submit, receive
      `o`, and let the sync effect run. The code as written does not run the
      sync again after the page is mounted; `RoundAsWritten` is that round. */
  function Round(s: Snapshot, question: string, o: Outcome): Snapshot {
    var typed := Apply(s, StoreCall.SetUserInput(question));
    var answered := Submit(typed, o);
    answered.(history := SyncedHistory(answered.messages, answered.history))
  }

  /** One completed round on a transcript that holds at least the greeting:
      the question and its answer are appended, `loading` and the input end
      cleared, and the history window holds that question and answer. */
  lemma RoundEffect(s: Snapshot, question: string, o: Outcome)
    requires |s.messages| >= 1
    requires !IsBlank(question) && Completes(o)
    ensures var r := Round(s, question, o);
      r.messages == s.messages + RoundEntries(question, o) &&
      |RoundEntries(question, o)| == 2 &&
      !r.loading && r.userInput == "" && r.history == [(question, Answer(o).message)]
  {
    var typed := Apply(s, StoreCall.SetUserInput(question));
    if Refused(o) {
      SubmitRefused(typed, o);
    } else {
      SubmitAnswered(typed, o);
    }
    HistoryAfterRoundTrip(typed, o);
  }

  /** The rounds of `rounds`, one after the other. */
  function Session(s: Snapshot, rounds: seq<(string, Outcome)>): Snapshot
    decreases |rounds|
  {
    if rounds == [] then s
    else
      var last := rounds[|rounds| - 1];
      Round(Session(s, rounds[..|rounds| - 1]), last.0, last.1)
  }

  /** The entries one round with a non-blank question adds: the question,
      then its answer when the round completes. */
  function RoundEntries(question: string, o: Outcome): seq<Message> {
    [Message(question, UserMessage)] + (if Completes(o) then [Answer(o)] else [])
  }

  /** The entries a sequence of rounds with non-blank questions adds. */
  function Exchanges(rounds: seq<(string, Outcome)>): seq<Message>
    decreases |rounds|
  {
    if rounds == [] then []
    else
      var last := rounds[|rounds| - 1];
      Exchanges(rounds[..|rounds| - 1]) + RoundEntries(last.0, last.1)
  }

  /** Over any number of completed round trips with non-blank questions, the
      transcript keeps all it had (the greeting first) and grows by exactly
      two entries per round, a question followed by its answer; `loading` is
      false again after each round, so the page accepts the next one; and the
      history window holds the latest question and answer. */
  lemma {:induction false} SessionTranscript(s: Snapshot, rounds: seq<(string, Outcome)>)
    requires |s.messages| >= 1 && !s.loading
    requires forall i | 0 <= i < |rounds| :: !IsBlank(rounds[i].0) && Completes(rounds[i].1)
    ensures Session(s, rounds).messages == s.messages + Exchanges(rounds)
    ensures |Session(s, rounds).messages| == |s.messages| + 2 * |rounds|
    ensures !Session(s, rounds).loading
    ensures rounds != [] ==>
      Session(s, rounds).userInput == "" &&
      Session(s, rounds).history == [(rounds[|rounds| - 1].0, Answer(rounds[|rounds| - 1].1).message)]
    decreases |rounds|
  {
    if rounds != [] {
      var init := rounds[..|rounds| - 1];
      var last := rounds[|rounds| - 1];
      forall i | 0 <= i < |init|
        ensures !IsBlank(init[i].0) && Completes(init[i].1)
      {
        assert init[i] == rounds[i];
      }
      SessionTranscript(s, init);
      SessionStep(s, rounds);
    }
  }

  /** The inductive step of `SessionTranscript`: what the last round adds to
      the state the earlier rounds left. */
  lemma SessionStep(s: Snapshot, rounds: seq<(string, Outcome)>)
    requires rounds != []
    requires !IsBlank(rounds[|rounds| - 1].0) && Completes(rounds[|rounds| - 1].1)
    requires var before := Session(s, rounds[..|rounds| - 1]);
      |before.messages| >= 1 &&
      before.messages == s.messages + Exchanges(rounds[..|rounds| - 1])
    ensures Session(s, rounds).messages == s.messages + Exchanges(rounds)
    ensures !Session(s, rounds).loading && Session(s, rounds).userInput == ""
    ensures Session(s, rounds).history == [(rounds[|rounds| - 1].0, Answer(rounds[|rounds| - 1].1).message)]
  {
    var init := rounds[..|rounds| - 1];
    var last := rounds[|rounds| - 1];
    var before := Session(s, init);
    var r := Session(s, rounds);
    assert r == Round(before, last.0, last.1);
    RoundEffect(before, last.0, last.1);
    var step := RoundEntries(last.0, last.1);
    assert Exchanges(rounds) == Exchanges(init) + step;
    calc {
      r.messages;
      before.messages + step;
      (s.messages + Exchanges(init)) + step;
      s.messages + (Exchanges(init) + step);
      s.messages + Exchanges(rounds);
    }
  }


  // ---------------------------------------------------------------------------
  // The history window as the code runs it
  // ---------------------------------------------------------------------------

  /** The submit handler never calls `setHistory`: whatever the outcome, it
      leaves the history window it found. */
  lemma SubmitKeepsHistory(s: Snapshot, o: Outcome)
    ensures Submit(s, o).history == s.history
  {
    if IsBlank(s.userInput) {
      SubmitBlank(s, o);
    } else if Refused(o) {
      SubmitRefused(s, o);
    } else if o.Ok? {
      SubmitAnswered(s, o);
    } else {
      SubmitUnanswered(s, o);
    }
  }

  /** One round as the page's code runs it: type `question`, submit, receive
      `o`. The sync effect does not run again: its dependency is the transcript
      array, and `addMessage` pushes onto that same array, so the dependency
      never changes after the page is mounted. */
  function RoundAsWritten(s: Snapshot, question: string, o: Outcome): Snapshot {
    Submit(Apply(s, StoreCall.SetUserInput(question)), o)
  }

  /** The rounds of `rounds` as the code runs them, one after the other. */
  function SessionAsWritten(s: Snapshot, rounds: seq<(string, Outcome)>): Snapshot
    decreases |rounds|
  {
    if rounds == [] then s
    else
      var last := rounds[|rounds| - 1];
      RoundAsWritten(SessionAsWritten(s, rounds[..|rounds| - 1]), last.0, last.1)
  }

  /** As the code runs, no number of rounds changes the history window. */
  lemma {:induction false} StaleHistory(s: Snapshot, rounds: seq<(string, Outcome)>)
    ensures SessionAsWritten(s, rounds).history == s.history
    decreases |rounds|
  {
    if rounds != [] {
      var init := rounds[..|rounds| - 1];
      var last := rounds[|rounds| - 1];
      StaleHistory(s, init);
      SubmitKeepsHistory(Apply(SessionAsWritten(s, init), StoreCall.SetUserInput(last.0)), last.1);
    }
  }

  /** From a fresh store, as the code runs, the history window stays empty and
      every question is sent with an empty history, whatever came before. */
  lemma HistoryNeverSent(rounds: seq<(string, Outcome)>, question: string)
    requires !IsBlank(question)
    ensures SessionAsWritten(Initial(), rounds).history == []
    ensures Request(Apply(SessionAsWritten(Initial(), rounds), StoreCall.SetUserInput(question)))
         == Some(ChatRequest(question, []))
  {
    StaleHistory(Initial(), rounds);
  }

  /** Ask "a", be answered "b", then ask "c": the code sends "c" with an empty
      history, where a sync after each round would have sent the pair
      ("a", "b"). */
  lemma StaleHistoryExample()
    ensures Request(Apply(RoundAsWritten(Initial(), "a", Ok("", "b")), StoreCall.SetUserInput("c")))
         == Some(ChatRequest("c", []))
    ensures Request(Apply(Round(Initial(), "a", Ok("", "b")), StoreCall.SetUserInput("c")))
         == Some(ChatRequest("c", [("a", "b")]))
  {
    assert TrimStart("a") == "a" && TrimEnd("a") == "a";
    assert TrimStart("c") == "c" && TrimEnd("c") == "c";
    assert [("a", Ok("", "b"))][..0] == [];
    HistoryNeverSent([("a", Ok("", "b"))], "c");
    RoundEffect(Initial(), "a", Ok("", "b"));
  }

  /** Whether the sync runs after each round or not, the transcript, `loading`
      and the input evolve alike: only the history window differs. */
  lemma {:induction false} AsWrittenAgrees(s: Snapshot, rounds: seq<(string, Outcome)>)
    ensures SameButHistory(SessionAsWritten(s, rounds), Session(s, rounds))
    decreases |rounds|
  {
    if rounds != [] {
      var init := rounds[..|rounds| - 1];
      var last := rounds[|rounds| - 1];
      AsWrittenAgrees(s, init);
      var a := Apply(SessionAsWritten(s, init), StoreCall.SetUserInput(last.0));
      var b := Apply(Session(s, init), StoreCall.SetUserInput(last.0));
      assert SubmitCalls(a, last.1) == SubmitCalls(b, last.1);
      ApplyAllIgnoresHistory(a, b, SubmitCalls(a, last.1));
    }
  }

  /** As the code runs, over any number of completed round trips with
      non-blank questions, the transcript keeps all it had and grows by
      exactly two entries per round, a question followed by its answer, and
      `loading` is false again after each round. */
  lemma SessionTranscriptAsWritten(s: Snapshot, rounds: seq<(string, Outcome)>)
    requires |s.messages| >= 1 && !s.loading
    requires forall i | 0 <= i < |rounds| :: !IsBlank(rounds[i].0) && Completes(rounds[i].1)
    ensures SessionAsWritten(s, rounds).messages == s.messages + Exchanges(rounds)
    ensures |SessionAsWritten(s, rounds).messages| == |s.messages| + 2 * |rounds|
    ensures !SessionAsWritten(s, rounds).loading
    ensures rounds != [] ==> SessionAsWritten(s, rounds).userInput == ""
  {
    SessionTranscript(s, rounds);
    AsWrittenAgrees(s, rounds);
  }

  /** From a fresh store, any number of completed round trips keeps the
      greeting first and adds exactly two entries per round, both as the code
      runs and with a sync after each round. */
  lemma GreetingStaysFirst(rounds: seq<(string, Outcome)>)
    requires forall i | 0 <= i < |rounds| :: !IsBlank(rounds[i].0) && Completes(rounds[i].1)
    ensures |SessionAsWritten(Initial(), rounds).messages| == 1 + 2 * |rounds|
    ensures SessionAsWritten(Initial(), rounds).messages[0] == Greeting
    ensures |Session(Initial(), rounds).messages| == 1 + 2 * |rounds|
    ensures Session(Initial(), rounds).messages[0] == Greeting
  {
    SessionTranscript(Initial(), rounds);
    AsWrittenAgrees(Initial(), rounds);
  }

  // ---------------------------------------------------------------------------
  // Rejected requests, as the design intends them
  // ---------------------------------------------------------------------------

  /** The submit handler's calls when a rejected request or body read is
      reported like a refused one: the apology is appended and the flags are
      reset. The other outcomes make the calls of `SubmitCalls`. */
  function SubmitCallsCaught(s: Snapshot, o: Outcome): seq<StoreCall> {
    if IsBlank(s.userInput) then []
    else
      var start := [StoreCall.SetLoading(true), StoreCall.AddMessage(Message(s.userInput, UserMessage))];
      match o
      case NetworkFailure => start + ErrorCalls
      case MalformedBody => start + [StoreCall.SetUserInput("")] + ErrorCalls
      case _ => SubmitCalls(s, o)
  }

  /** The state after the submit handler with rejections caught. */
  function SubmitCaught(s: Snapshot, o: Outcome): Snapshot {
    ApplyAll(s, SubmitCallsCaught(s, o))
  }

  /** With rejections caught, every submission of non-blank input settles:
      the question and then an answer or the apology are appended, `loading`
      and the input are cleared, and the page accepts the next question. */
  lemma CaughtSubmitSettles(s: Snapshot, o: Outcome)
    requires !IsBlank(s.userInput)
    ensures var r := SubmitCaught(s, o);
      r.messages == s.messages + [Message(s.userInput, UserMessage),
                                  if o.Ok? && o.error != Unauthorized then Message(o.success, ApiMessage) else Apology] &&
      !r.loading && r.userInput == "" && r.history == s.history
  {
    match o
    case NetworkFailure =>
      assert SubmitCallsCaught(s, o) == SubmitCalls(s, NotOk);
      SubmitRefused(s, NotOk);
    case MalformedBody =>
      assert SubmitCallsCaught(s, o) == SubmitCalls(s, Ok(Unauthorized, ""));
      SubmitRefused(s, Ok(Unauthorized, ""));
    case NotOk =>
      SubmitRefused(s, o);
    case Ok(error, _) =>
      if error == Unauthorized {
        SubmitRefused(s, o);
      } else {
        SubmitAnswered(s, o);
      }
  }

  // ---------------------------------------------------------------------------
  // The handlers, acting on the store
  // ---------------------------------------------------------------------------

  /** Appends the apology, clears `loading` and clears the input. */
  method HandleError(store: ConversationStore)
    modifies store
    ensures store.messages == old(store.messages) + [Apology]
    ensures !store.loading && store.userInput == ""
    ensures store.history == old(store.history)
    ensures store.State() == ApplyAll(old(store.State()), ErrorCalls)
  {
    ghost var s0 := store.State();
    store.AddMessage(Apology);
    store.SetLoading(false);
    store.SetUserInput("");
    ErrorEffect(s0);
  }

  /** The submit handler, run to its end with the request's outcome `o`.
      Blank input returns at once. Otherwise `loading` is set and the user's
      entry appended before the request is sent; `sent` is that request. */
  method HandleSubmit(store: ConversationStore, o: Outcome) returns (sent: Option<ChatRequest>)
    modifies store
    ensures sent == Request(old(store.State()))
    ensures store.State() == Submit(old(store.State()), o)
  {
    ghost var s0 := store.State();
    if Trim(store.userInput) == "" {
      SubmitBlank(s0, o);
      return None;
    }
    store.SetLoading(true);
    store.AddMessage(Message(store.userInput, UserMessage));
    sent := Some(ChatRequest(store.userInput, store.history));

    if o.NetworkFailure? {
      SubmitUnanswered(s0, o);
      return;
    }
    if o.NotOk? {
      HandleError(store);
      SubmitRefused(s0, o);
      return;
    }

    store.SetUserInput("");

    if o.MalformedBody? {
      SubmitUnanswered(s0, o);
      return;
    }
    if o.error == Unauthorized {
      HandleError(store);
      SubmitRefused(s0, o);
      return;
    }

    store.AddMessage(Message(o.success, ApiMessage));
    store.SetLoading(false);
    SubmitAnswered(s0, o);
  }

  /** The key handler of the text area. The text area is disabled while
      `loading` is set, so no key reaches it then. */
  method HandleEnter(store: ConversationStore, key: string, shiftKey: bool, o: Outcome)
    returns (action: KeyAction, sent: Option<ChatRequest>)
    requires !store.loading
    modifies store
    ensures action == OnKeyDown(key, shiftKey, old(store.userInput))
    ensures action == Submits ==>
      store.State() == Submit(old(store.State()), o) && sent == Request(old(store.State()))
    ensures action != Submits ==> store.State() == old(store.State()) && sent == None
  {
    if key == "Enter" && store.userInput != "" {
      if !shiftKey && store.userInput != "" {
        action := Submits;
        sent := HandleSubmit(store, o);
      } else {
        action, sent := Ignores, None;
      }
    } else if key == "Enter" {
      action, sent := PreventsDefault, None;
    } else {
      action, sent := Ignores, None;
    }
  }

  /** Submitting the form with the send button. The button is disabled while
      `loading` is set, so a second submission cannot start before the first
      has cleared it. */
  method SubmitForm(store: ConversationStore, o: Outcome) returns (sent: Option<ChatRequest>)
    requires !store.loading
    modifies store
    ensures sent == Request(old(store.State()))
    ensures store.State() == Submit(old(store.State()), o)
  {
    sent := HandleSubmit(store, o);
  }

  /** Editing the text area stores its new value as the input. */
  method ChangeInput(store: ConversationStore, value: string)
    requires !store.loading
    modifies store
    ensures store.State() == old(store.State()).(userInput := value)
  {
    store.SetUserInput(value);
  }

  /** The effect that keeps the history window in step with the transcript:
      with at least three entries it becomes the single pair of the texts of
      the last two; with fewer it is left untouched. Nothing else changes. */
  method SyncHistory(store: ConversationStore)
    modifies store
    ensures |old(store.messages)| >= 3 ==>
      store.history == [(old(store.messages)[|old(store.messages)| - 2].message,
                         old(store.messages)[|old(store.messages)| - 1].message)]
    ensures |old(store.messages)| < 3 ==> store.history == old(store.history)
    ensures store.userInput == old(store.userInput) && store.loading == old(store.loading)
    ensures store.messages == old(store.messages)
    ensures store.State() == old(store.State()).(history := SyncedHistory(old(store.messages), old(store.history)))
  {
    var n := |store.messages|;
    if n >= 3 {
      store.SetHistory([(store.messages[n - 2].message, store.messages[n - 1].message)]);
    }
  }
}
