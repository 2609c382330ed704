/**
 * The send state machine of the AgriTech chat widget and its small pure helpers.
 *
 * One call of the send handler is split at its suspension points: `BeginSend`
 * (validation and the optimistic user entry), `OnChunk` and `OnDone` (the
 * stream callback for a chunk that is not done and for the done signal),
 * `OnResolved` (the `finally` after the service call returned) and `OnError`
 * (the `catch` and the `finally` after it threw). The locals that the callback
 * closes over live in a `PendingSend` object, one per accepted send.
 */
module Chatbot {
  import opened Results
  import opened JsString

  datatype Sender = User | Ai

  datatype Status = Sending | Sent | Errored

  /** One entry of the message log; AI entries carry no status. */
  datatype Message = Message(text: string, sender: Sender, timestamp: int, status: Option<Status>)

  /** The banner shown above the input; the three validation errors are translated texts. */
  datatype ChatError = EmptyMessage | LimitExceeded | CooldownActive | ServiceFailure(description: string)

  /** One entry of the conversation history handed to the AI service. */
  datatype HistoryEntry = HistoryEntry(role: string, content: string)

  /** What the send handler passes to the AI service. */
  datatype AiRequest = AiRequest(prompt: string, language: string, location: Option<string>, history: seq<HistoryEntry>)

  /** The AI entry appended when the service call throws. */
  const Apology := "I apologize, but I'm having trouble responding right now. Please try again."

  /** The banner text when the thrown value is not an `Error`. */
  const UnknownFailure := "An error occurred"

  /** The default `characterLimit` and `cooldownDuration` (seconds) of the widget. */
  const DefaultCharacterLimit := 100
  const DefaultCooldownDuration := 15

  // ---------------------------------------------------------------------------
  // Validation

  /**
   * The guard of the send handler. The checks run in a fixed order: blank
   * input first, then the length limit, then the cooldown measured in
   * milliseconds since the last accepted send. `None` means the send goes ahead.
   */
  function Validate(input: string, characterLimit: int, cooldownDuration: int, lastMessageTime: int, now: int)
    : (r: Option<ChatError>)
    ensures r == Some(EmptyMessage) <==> IsBlank(input)
    ensures r == Some(LimitExceeded) <==> !IsBlank(input) && JsLength(input) > characterLimit
    ensures r == Some(CooldownActive) <==>
              !IsBlank(input) && JsLength(input) <= characterLimit
              && now - lastMessageTime < cooldownDuration * 1000
    ensures r.None? <==>
              !IsBlank(input) && JsLength(input) <= characterLimit
              && now - lastMessageTime >= cooldownDuration * 1000
  {
    if Trim(input) == "" then Some(EmptyMessage)
    else if JsLength(input) > characterLimit then Some(LimitExceeded)
    else if now - lastMessageTime < cooldownDuration * 1000 then Some(CooldownActive)
    else None
  }

  /** Whether the send button is disabled. */
  predicate SendDisabled(isLoading: bool, cooldown: int, input: string, characterLimit: int) {
    isLoading || cooldown > 0 || JsLength(input) > characterLimit
  }

  /**
   * A click on an enabled send button is never refused for length; the button
   * is enabled only while nothing is loading and no cooldown is running.
   */
  lemma EnabledSendPassesLengthCheck(isLoading: bool, cooldown: int, input: string, characterLimit: int,
                                     cooldownDuration: int, lastMessageTime: int, now: int)
    requires !SendDisabled(isLoading, cooldown, input, characterLimit)
    ensures Validate(input, characterLimit, cooldownDuration, lastMessageTime, now) != Some(LimitExceeded)
    ensures !isLoading && cooldown <= 0
  {
  }

  /**
   * With the default settings, a non-blank message of at most 100 characters
   * from the Basic Multilingual Plane, sent 15 seconds or more after the last
   * accepted one, goes ahead.
   */
  lemma {:induction false} DefaultSettingsAccept(input: string, lastMessageTime: int, now: int)
    requires !IsBlank(input) && |input| <= 100
    requires forall i :: 0 <= i < |input| ==> input[i] as int < 0x10000
    requires now - lastMessageTime >= 15000
    ensures Validate(input, DefaultCharacterLimit, DefaultCooldownDuration, lastMessageTime, now) == None
  {
    JsLengthOfBmp(input);
  }

  // ---------------------------------------------------------------------------
  // The message log

  /** The role under which an entry is sent to the AI service. */
  function RoleOf(sender: Sender): string {
    if sender == User then "user" else "assistant"
  }

  /** The history mapping: same length and order, role by sender, content equal to the text. */
  function PreviousMessages(messages: seq<Message>): (r: seq<HistoryEntry>)
    ensures |r| == |messages|
    ensures forall i :: 0 <= i < |r| ==>
              r[i].content == messages[i].text
              && (r[i].role == "user" <==> messages[i].sender == User)
              && (r[i].role == "assistant" <==> messages[i].sender == Ai)
  {
    if messages == [] then []
    else [HistoryEntry(RoleOf(messages[0].sender), messages[0].text)] + PreviousMessages(messages[1..])
  }

  /** The history of a log extended by some entries is the history of the log extended by theirs. */
  lemma {:induction false} PreviousMessagesAppend(a: seq<Message>, b: seq<Message>)
    ensures PreviousMessages(a + b) == PreviousMessages(a) + PreviousMessages(b)
  {
    if a == [] {
      assert a + b == b;
    } else {
      assert (a + b)[0] == a[0] && (a + b)[1..] == a[1..] + b;
      PreviousMessagesAppend(a[1..], b);
    }
  }

  /** `slice(0, -1)`: every entry but the last; the empty log stays empty. */
  function DropLast(log: seq<Message>): (r: seq<Message>)
    ensures log == [] ==> r == []
    ensures log != [] ==> r + [log[|log| - 1]] == log
  {
    if log == [] then [] else log[..|log| - 1]
  }

  /** The log after the stream finished or failed: the last entry replaced by the user entry and one AI entry. */
  function Reconcile(log: seq<Message>, userEntry: Message, aiEntry: Message): (r: seq<Message>)
    ensures |r| == (if log == [] then 2 else |log| + 1)
    ensures r[|r| - 2] == userEntry && r[|r| - 1] == aiEntry
    ensures r[..|r| - 2] == DropLast(log)
  {
    DropLast(log) + [userEntry, aiEntry]
  }

  /** The entry that an accepted send appends. */
  function SendingEntry(prompt: string, sentAt: int): Message {
    Message(prompt, User, sentAt, Some(Sending))
  }

  /**
   * With nothing in between, reconciling after an accepted send turns `L + [sending]`
   * into `L` followed by exactly the two final entries.
   */
  lemma ReconcileAfterSend(log: seq<Message>, prompt: string, sentAt: int, userEntry: Message, aiEntry: Message)
    ensures Reconcile(log + [SendingEntry(prompt, sentAt)], userEntry, aiEntry) == log + [userEntry, aiEntry]
  {
    assert DropLast(log + [SendingEntry(prompt, sentAt)]) == log;
  }

  /** After a clear during streaming the log holds only the two final entries. */
  lemma ReconcileAfterClear(userEntry: Message, aiEntry: Message)
    ensures Reconcile([], userEntry, aiEntry) == [userEntry, aiEntry]
  {
  }

  /**
   * Reconciliation replaces the latest entry, whoever appended it: when a second
   * send was accepted while the first was still streaming, the first one's
   * completion removes the second one's user entry.
   */
  lemma OverlappingSendsReplaceLatest(log: seq<Message>, first: Message, second: Message, userEntry: Message, aiEntry: Message)
    ensures Reconcile(log + [first, second], userEntry, aiEntry) == log + [first, userEntry, aiEntry]
  {
    assert DropLast(log + [first, second]) == log + [first];
  }

  // ---------------------------------------------------------------------------
  // Streaming

  /** The in-order concatenation of the chunks received. */
  function Concat(chunks: seq<string>): string {
    if chunks == [] then "" else chunks[0] + Concat(chunks[1..])
  }

  /** Receiving one more chunk appends its text. */
  lemma {:induction false} ConcatSnoc(chunks: seq<string>, text: string)
    ensures Concat(chunks + [text]) == Concat(chunks) + text
  {
    if chunks == [] {
      assert [text][1..] == [];
    } else {
      assert (chunks + [text])[0] == chunks[0] && (chunks + [text])[1..] == chunks[1..] + [text];
      ConcatSnoc(chunks[1..], text);
    }
  }

  /** Splitting the chunk sequence anywhere splits the text at the same place. */
  lemma {:induction false} ConcatAppend(a: seq<string>, b: seq<string>)
    ensures Concat(a + b) == Concat(a) + Concat(b)
  {
    if a == [] {
      assert a + b == b;
    } else {
      assert (a + b)[0] == a[0] && (a + b)[1..] == a[1..] + b;
      ConcatAppend(a[1..], b);
    }
  }

  // ---------------------------------------------------------------------------
  // Cooldown and input colour

  /** One tick of the cooldown timer: `max(0, c - 1)`. */
  function CountDown(c: int): (r: int)
    ensures r >= 0
    ensures c >= 0 ==> r <= c
    ensures c > 0 ==> r < c
  {
    if c - 1 > 0 then c - 1 else 0
  }

  /** The cooldown after `k` ticks of the timer, which runs only while the cooldown is positive. */
  function AfterTicks(c: int, k: nat): int {
    if k == 0 || c <= 0 then c else AfterTicks(CountDown(c), k - 1)
  }

  /** A cooldown of `c` seconds is over after `c` ticks. */
  lemma {:induction false} CooldownExpires(c: nat)
    ensures AfterTicks(c, c) == 0
  {
    if c > 0 {
      assert CountDown(c) == c - 1;
      CooldownExpires(c - 1);
    }
  }

  datatype InputColor = Calm | Warning | Danger

  /**
   * The colour of the remaining-characters counter. The source compares the
   * ratio `length / characterLimit` with 0.8 and 1; for a positive limit that is
   * `5 * length < 4 * limit` and `length < limit`. A zero limit gives NaN or
   * Infinity, below neither bound; a negative one gives a ratio that is not positive.
   */
  function ColorFor(input: string, characterLimit: int): (c: InputColor)
    ensures characterLimit > 0 ==> (c == Danger <==> JsLength(input) >= characterLimit)
    ensures characterLimit > 0 ==> (c == Calm <==> JsLength(input) * 5 < characterLimit * 4)
    ensures characterLimit == 0 ==> c == Danger
    ensures characterLimit < 0 ==> c == Calm
  {
    var n := JsLength(input);
    if characterLimit > 0 then
      if 5 * n < 4 * characterLimit then Calm
      else if n < characterLimit then Warning
      else Danger
    else if characterLimit == 0 then Danger
    else Calm
  }

  /**
   * For a positive limit the colour is the one the ratio `length / limit`
   * selects: calm below 0.8, red from 1 on, amber in between.
   */
  lemma ColorForMatchesRatio(input: string, characterLimit: int)
    requires characterLimit > 0
    ensures var ratio := JsLength(input) as real / characterLimit as real;
            && (ColorFor(input, characterLimit) == Calm <==> ratio < 0.8)
            && (ColorFor(input, characterLimit) == Warning <==> 0.8 <= ratio < 1.0)
            && (ColorFor(input, characterLimit) == Danger <==> ratio >= 1.0)
  {
    RatioThresholds(JsLength(input), characterLimit);
  }

  /** The ratio tests against 0.8 and 1 as integer comparisons. */
  lemma RatioThresholds(n: int, l: int)
    requires l > 0
    ensures n as real / l as real < 0.8 <==> 5 * n < 4 * l
    ensures n as real / l as real < 1.0 <==> n < l
  {
    var ratio := n as real / l as real;
    DivTimes(n as real, l as real);
    ScaleLess(ratio, 0.8, l as real);
    ScaleLess(ratio, 1.0, l as real);
  }

  /** Dividing by a non-zero number and multiplying back gives the number. */
  lemma DivTimes(n: real, l: real)
    requires l != 0.0
    ensures (n / l) * l == n
  {
  }

  /** Multiplying both sides by a positive number keeps a strict order. */
  lemma ScaleLess(a: real, b: real, l: real)
    requires l > 0.0
    ensures a < b <==> a * l < b * l
  {
    assert b * l - a * l == (b - a) * l;
    if a < b {
      assert (b - a) * l > 0.0;
    } else {
      assert (a - b) * l >= 0.0;
    }
  }

  // ---------------------------------------------------------------------------
  // Links and code blocks in AI replies

  /** A link is followed inside the app when its target starts with a slash. */
  function IsInternalLink(href: string): (r: bool)
    ensures r <==> |href| > 0 && href[0] == '/'
  {
    StartsWith(href, "/")
  }

  datatype LinkAction = Navigate(path: string) | OpenInNewTab(href: string, target: string, rel: string)

  /** What a click on a link does: route inside the app, or open a new tab without an opener. */
  function FollowLink(href: string): (r: LinkAction)
    ensures r.Navigate? <==> |href| > 0 && href[0] == '/'
    ensures r.Navigate? ==> r.path == href
    ensures r.OpenInNewTab? ==> r == OpenInNewTab(href, "_blank", "noopener noreferrer")
  {
    if IsInternalLink(href) then Navigate(href) else OpenInNewTab(href, "_blank", "noopener noreferrer")
  }

  /** The characters `\w` matches. */
  predicate IsWordChar(c: char) {
    'a' <= c <= 'z' || 'A' <= c <= 'Z' || '0' <= c <= '9' || c == '_'
  }

  predicate IsWord(w: string) {
    w != [] && forall i :: 0 <= i < |w| ==> IsWordChar(w[i])
  }

  /** The longest prefix of word characters (the greedy `(\w+)`). */
  function WordPrefix(s: string): (w: string)
    ensures |w| <= |s| && w == s[..|w|]
    ensures forall i :: 0 <= i < |w| ==> IsWordChar(w[i])
    ensures |w| == |s| || !IsWordChar(s[|w|])
  {
    if s != [] && IsWordChar(s[0]) then [s[0]] + WordPrefix(s[1..]) else []
  }

  const LanguageTag := "language-"

  /** A match of `language-(\w+)` starts at index `i` of `s`. */
  predicate TagAt(s: string, i: int) {
    OccursAt(s, LanguageTag, i) && i + |LanguageTag| < |s| && IsWordChar(s[i + |LanguageTag|])
  }

  /** `/language-(\w+)/.exec(s)`: the captured language of the leftmost match. */
  function FindLanguage(s: string): (r: Option<string>)
    ensures r.Some? ==> IsWord(r.value) && Includes(s, LanguageTag + r.value)
    decreases |s|
  {
    if |s| <= |LanguageTag| then None
    else if StartsWith(s, LanguageTag) && IsWordChar(s[|LanguageTag|]) then
      var w := WordPrefix(s[|LanguageTag|..]);
      assert (LanguageTag + w) == s[..|LanguageTag + w|];
      Some(w)
    else FindLanguage(s[1..])
  }

  /** `i` is the index of the leftmost match of `language-(\w+)` in `s`. */
  predicate LeftmostTagAt(s: string, i: int) {
    TagAt(s, i) && forall j :: 0 <= j < i ==> !TagAt(s, j)
  }

  /** The leftmost-match semantics of the search, and `None` exactly when nothing matches. */
  lemma {:induction false} FindLanguageIsLeftmostMatch(s: string)
    ensures FindLanguage(s).None? <==> forall i :: !TagAt(s, i)
    ensures FindLanguage(s).Some? ==>
              exists i :: LeftmostTagAt(s, i) && FindLanguage(s).value == WordPrefix(s[i + |LanguageTag|..])
    decreases |s|
  {
    if |s| <= |LanguageTag| {
      assert forall i :: !TagAt(s, i);
    } else if StartsWith(s, LanguageTag) && IsWordChar(s[|LanguageTag|]) {
      assert LeftmostTagAt(s, 0);
    } else {
      assert !TagAt(s, 0);
      FindLanguageIsLeftmostMatch(s[1..]);
      if FindLanguage(s[1..]).Some? {
        var i :| LeftmostTagAt(s[1..], i) && FindLanguage(s[1..]).value == WordPrefix(s[1..][i + |LanguageTag|..]);
        assert s[1..][i + |LanguageTag|..] == s[i + 1 + |LanguageTag|..];
        LeftmostShift(s, i);
      } else {
        forall i ensures !TagAt(s, i) {
          if i > 0 { TagShift(s, i - 1); }
        }
      }
    }
  }

  /** Matches in the tail of `s` are the matches in `s` one index further on. */
  lemma TagShift(s: string, j: int)
    requires s != [] && 0 <= j
    ensures TagAt(s[1..], j) <==> TagAt(s, j + 1)
  {
    OccursShift(s, LanguageTag, j);
  }

  /** Without a match at index 0, the leftmost match of the tail is the leftmost match of `s`, shifted. */
  lemma LeftmostShift(s: string, i: int)
    requires s != [] && !TagAt(s, 0) && 0 <= i
    requires LeftmostTagAt(s[1..], i)
    ensures LeftmostTagAt(s, i + 1)
  {
    TagShift(s, i);
    forall j | 0 <= j < i + 1 ensures !TagAt(s, j) {
      if j > 0 { TagShift(s, j - 1); }
    }
  }

  /** A class name `language-<word>` yields exactly that word. */
  lemma LanguageOfTag(w: string)
    requires IsWord(w)
    ensures FindLanguage(LanguageTag + w) == Some(w)
  {
    var s := LanguageTag + w;
    assert StartsWith(s, LanguageTag) && s[|LanguageTag|..] == w;
    assert IsWordChar(w[0]);
    var p := WordPrefix(w);
    assert |p| == |w| && p == w;
  }

  /** The language of a code block: the class name, `''` when it is absent, searched for a tag. */
  function CodeLanguage(className: Option<string>): (r: Option<string>)
    ensures className.None? ==> r.None?
    ensures r.Some? ==> IsWord(r.value)
  {
    FindLanguage(className.GetOr(""))
  }

  /** The text of a highlighted block: one trailing newline removed (`replace(/\n$/, '')`). */
  function HighlightedText(code: string): (r: string)
    ensures |code| > 0 && code[|code| - 1] == '\n' ==> r + "\n" == code
    ensures !(|code| > 0 && code[|code| - 1] == '\n') ==> r == code
  {
    if |code| > 0 && code[|code| - 1] == '\n' then code[..|code| - 1] else code
  }

  // ---------------------------------------------------------------------------
  // The widget state

  /** The locals of one accepted send, closed over by its stream callback. */
  class PendingSend {
    const prompt: string
    const sentAt: int
    const request: AiRequest
    var accumulated: string
    ghost var chunks: seq<string>

    ghost predicate Valid()
      reads this
    {
      accumulated == Concat(chunks)
    }

    constructor (prompt: string, sentAt: int, request: AiRequest)
      ensures this.prompt == prompt && this.sentAt == sentAt && this.request == request
      ensures chunks == [] && Valid()
    {
      this.prompt := prompt;
      this.sentAt := sentAt;
      this.request := request;
      accumulated := "";
      chunks := [];
    }
  }

  class AgriTechChatbot {
    const characterLimit: int
    const cooldownDuration: int
    const language: string
    const userLocation: Option<string>

    var messages: seq<Message>
    var input: string
    var isLoading: bool
    var error: Option<ChatError>
    var cooldown: int
    var lastMessageTime: int
    var currentStreamingMessage: string

    constructor (characterLimit: int, cooldownDuration: int, language: string, userLocation: Option<string>)
      ensures this.characterLimit == characterLimit && this.cooldownDuration == cooldownDuration
      ensures this.language == language && this.userLocation == userLocation
      ensures messages == [] && input == "" && !isLoading && error == None
      ensures cooldown == 0 && lastMessageTime == 0 && currentStreamingMessage == ""
    {
      this.characterLimit := characterLimit;
      this.cooldownDuration := cooldownDuration;
      this.language := language;
      this.userLocation := userLocation;
      messages := [];
      input := "";
      isLoading := false;
      error := None;
      cooldown := 0;
      lastMessageTime := 0;
      currentStreamingMessage := "";
    }

    /** Typing: a value within the limit replaces the input and clears the banner; a longer one is refused. */
    method InputChange(newInput: string)
      modifies this`input, this`error
      ensures JsLength(newInput) <= characterLimit ==> input == newInput && error == None
      ensures JsLength(newInput) > characterLimit ==> input == old(input) && error == Some(LimitExceeded)
      ensures JsLength(input) <= characterLimit || input == old(input)
    {
      if JsLength(newInput) <= characterLimit {
        input := newInput;
        error := None;
      } else {
        error := Some(LimitExceeded);
      }
    }

    /** A quick action or a suggested question fills the input without a length check. */
    method QuickAction(action: string)
      modifies this`input
      ensures input == action
    {
      input := action;
    }

    /** One second of the cooldown timer, which is only scheduled while the cooldown is positive. */
    method Tick()
      modifies this`cooldown
      ensures cooldown == (if old(cooldown) > 0 then CountDown(old(cooldown)) else old(cooldown))
      ensures cooldown <= old(cooldown)
      ensures old(cooldown) >= 0 ==> cooldown >= 0
    {
      if cooldown > 0 {
        cooldown := CountDown(cooldown);
      }
    }

    /**
     * The synchronous part of the send handler. A refused send only sets the
     * banner. An accepted one goes on as `Accept` says.
     */
    method BeginSend(now: int) returns (send: PendingSend?)
      modifies this`messages, this`input, this`isLoading, this`error, this`cooldown, this`lastMessageTime
      ensures var verdict := Validate(old(input), characterLimit, cooldownDuration, old(lastMessageTime), now);
              if verdict.Some? then
                && send == null && error == verdict
                && messages == old(messages) && input == old(input) && isLoading == old(isLoading)
                && cooldown == old(cooldown) && lastMessageTime == old(lastMessageTime)
              else
                && send != null && fresh(send) && send.Valid() && send.chunks == []
                && send.prompt == old(input) && send.sentAt == now
                && send.request == AiRequest(old(input), language, userLocation, PreviousMessages(old(messages)))
                && isLoading && error == None
                && messages == old(messages) + [SendingEntry(old(input), now)]
                && input == "" && lastMessageTime == now && cooldown == cooldownDuration
    {
      var verdict := Validate(input, characterLimit, cooldownDuration, lastMessageTime, now);
      if verdict.Some? {
        error := verdict;
        return null;
      }
      send := Accept(now);
    }

    /**
     * An accepted send: clears the banner, starts loading, appends the
     * untrimmed input as a sending user entry, clears the input, records the
     * time, restarts the cooldown and issues the request with the history of
     * the log as it was before the append.
     */
    method Accept(now: int) returns (send: PendingSend)
      modifies this`messages, this`input, this`isLoading, this`error, this`cooldown, this`lastMessageTime
      ensures fresh(send) && send.Valid() && send.chunks == []
      ensures send.prompt == old(input) && send.sentAt == now
      ensures send.request == AiRequest(old(input), language, userLocation, PreviousMessages(old(messages)))
      ensures isLoading && error == None
      ensures messages == old(messages) + [SendingEntry(old(input), now)]
      ensures input == "" && lastMessageTime == now && cooldown == cooldownDuration
    {
      var userMessage := input;
      var request := AiRequest(userMessage, language, userLocation, PreviousMessages(messages));
      send := new PendingSend(userMessage, now, request);
      isLoading := true;
      error := None;
      messages := messages + [SendingEntry(userMessage, now)];
      input := "";
      lastMessageTime := now;
      cooldown := cooldownDuration;
    }

    /** The stream callback for a chunk that is not done: the running text grows by the chunk and is shown. */
    method OnChunk(send: PendingSend, text: string)
      requires send.Valid()
      modifies this`currentStreamingMessage, send
      ensures send.Valid() && send.chunks == old(send.chunks) + [text]
      ensures send.accumulated == old(send.accumulated) + text
      ensures currentStreamingMessage == Concat(send.chunks)
    {
      ConcatSnoc(send.chunks, text);
      send.accumulated := send.accumulated + text;
      send.chunks := send.chunks + [text];
      currentStreamingMessage := send.accumulated;
    }

    /** The stream callback for the done signal: the last entry becomes the sent user entry plus the reply. */
    method OnDone(send: PendingSend, now: int)
      requires send.Valid()
      modifies this`messages, this`currentStreamingMessage
      ensures messages == Reconcile(old(messages), Message(send.prompt, User, send.sentAt, Some(Sent)),
                                    Message(Concat(send.chunks), Ai, now, None))
      ensures currentStreamingMessage == ""
    {
      messages := DropLast(messages)
                  + [Message(send.prompt, User, send.sentAt, Some(Sent)), Message(send.accumulated, Ai, now, None)];
      currentStreamingMessage := "";
    }

    /** The service call returned: loading ends. */
    method OnResolved()
      modifies this`isLoading
      ensures !isLoading
    {
      isLoading := false;
    }

    /**
     * The service call threw: the banner shows the error's message (or a generic
     * text for a value that is not an `Error`), the last entry becomes the
     * errored user entry plus the apology, and loading ends. The streaming text
     * is left as it was.
     */
    method OnError(send: PendingSend, now: int, errorMessage: Option<string>)
      modifies this`messages, this`error, this`isLoading
      ensures error == Some(ServiceFailure(errorMessage.GetOr(UnknownFailure)))
      ensures messages == Reconcile(old(messages), Message(send.prompt, User, send.sentAt, Some(Errored)),
                                    Message(Apology, Ai, now, None))
      ensures !isLoading
    {
      error := Some(ServiceFailure(errorMessage.GetOr(UnknownFailure)));
      messages := DropLast(messages)
                  + [Message(send.prompt, User, send.sentAt, Some(Errored)), Message(Apology, Ai, now, None)];
      isLoading := false;
    }

    /** The clear button: the log and the banner are emptied; nothing else changes. */
    method Clear()
      modifies this`messages, this`error
      ensures messages == [] && error == None
    {
      messages := [];
      error := None;
    }
  }
}
