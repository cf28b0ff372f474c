/**
 * The pure core of the `/api/generate` request handler: validating the
 * scenario text, assembling the chat messages sent to the completion
 * service, and the output-token budget derived from the prompt's length.
 *
 * The completion calls themselves, the Markdown rendering of the reply and
 * the HTTP plumbing are outside this model; `Ready` below is the point at
 * which the handler would send its completion request.
 */
module Handler {
  import opened Wrappers
  import opened Strings

  /** A field of the JSON request body, when present. */
  datatype Json = JNull | JStr(s: string) | JOther   // JOther: a number, boolean, list or object

  datatype Role = System | User | Assistant

  datatype Message = Message(role: Role, content: string)

  /** One earlier exchange of the conversation. A field that is missing,
      null or another falsy value (`0`, `False`, an empty list) is `None`:
      the handler skips it just as it skips an empty string. */
  datatype Turn = Turn(user: Option<string>, assistant: Option<string>)

  /** How the handler's preparation ends. */
  datatype Outcome =
    | ServerError(status: int)                   // an exception, caught and reported
    | BadRequest(status: int, error: string)     // the client sent no scenario text
    | Ready(messages: seq<Message>, maxTokens: int, needsTitle: bool)

  const MissingScenario := "Missing 'scenario' text"

  /** `data.get(key, "").strip()`: the stripped text, or `None` when the
      field is present but not a string, so that `.strip()` raises. The text
      is empty exactly when the field is absent or holds only whitespace. */
  function StrippedField(field: Option<Json>): (r: Option<string>)
    ensures r.None? <==> field.Some? && !field.value.JStr?
    ensures r == Some("") <==>
      field.None? || (field.value.JStr? && forall i :: 0 <= i < |field.value.s| ==> IsSpace(field.value.s[i]))
  {
    match field
    case None => Some("")
    case Some(JStr(s)) => StripEmptyIff(s); Some(Strip(s))
    case Some(_) => None
  }

  // ---------------------------------------------------------------------
  // Message assembly
  // ---------------------------------------------------------------------

  /** What one earlier exchange adds to the conversation: its user message,
      then its assistant message, each only when it is a non-empty string. */
  function Contribution(turn: Turn): (ms: seq<Message>)
    ensures |ms| == (if Truthy(turn.user) then 1 else 0) + (if Truthy(turn.assistant) then 1 else 0)
    ensures Truthy(turn.user) ==> ms[0] == Message(User, turn.user.value)
    ensures Truthy(turn.assistant) ==> ms[|ms| - 1] == Message(Assistant, turn.assistant.value)
  {
    (if Truthy(turn.user) then [Message(User, turn.user.value)] else [])
    + (if Truthy(turn.assistant) then [Message(Assistant, turn.assistant.value)] else [])
  }

  /** The history flattened into messages, in conversation order. */
  function Flatten(history: seq<Turn>): (ms: seq<Message>)
    ensures forall i :: 0 <= i < |ms| ==> ms[i].role != System && ms[i].content != ""
  {
    if history == [] then []
    else Flatten(history[..|history| - 1]) + Contribution(history[|history| - 1])
  }

  /** The number of non-empty user and assistant fields in the history. */
  function TruthyFields(history: seq<Turn>): nat {
    if history == [] then 0
    else
      var t := history[0];
      (if Truthy(t.user) then 1 else 0) + (if Truthy(t.assistant) then 1 else 0) + TruthyFields(history[1..])
  }

  /** Flattening respects concatenation: the turns of a longer history
      contribute their messages after those of the earlier turns. */
  lemma {:induction false} FlattenAppend(h1: seq<Turn>, h2: seq<Turn>)
    ensures Flatten(h1 + h2) == Flatten(h1) + Flatten(h2)
    decreases |h2|
  {
    if h2 == [] {
      assert h1 + h2 == h1;
    } else {
      var h2' := h2[..|h2| - 1];
      assert (h1 + h2)[..|h1 + h2| - 1] == h1 + h2';
      assert (h1 + h2)[|h1 + h2| - 1] == h2[|h2| - 1];
      FlattenAppend(h1, h2');
    }
  }

  /** Each non-empty user or assistant field yields exactly one message. */
  lemma {:induction false} FlattenLength(history: seq<Turn>)
    ensures |Flatten(history)| == TruthyFields(history)
    decreases |history|
  {
    if history != [] {
      var rest := history[1..];
      assert history == [history[0]] + rest;
      FlattenAppend([history[0]], rest);
      assert [history[0]][..0] == [];
      FlattenLength(rest);
    }
  }

  /** The message list: the system instruction, the flattened history, and
      the new scenario as the last user message. */
  method BuildMessages(systemPrompt: string, history: seq<Turn>, scenario: string) returns (messages: seq<Message>)
    ensures messages == [Message(System, systemPrompt)] + Flatten(history) + [Message(User, scenario)]
  {
    messages := [Message(System, systemPrompt)];
    for i := 0 to |history|
      invariant messages == [Message(System, systemPrompt)] + Flatten(history[..i])
    {
      var turn := history[i];
      if Truthy(turn.user) {
        messages := messages + [Message(User, turn.user.value)];
      }
      if Truthy(turn.assistant) {
        messages := messages + [Message(Assistant, turn.assistant.value)];
      }
      assert history[..i + 1][..i] == history[..i];
    }
    assert history[..|history|] == history;
    messages := messages + [Message(User, scenario)];
  }

  /** The assembled list opens with the only system message, ends with the
      scenario as a user message, and holds two messages more than the
      history has non-empty fields. */
  lemma MessagesShape(systemPrompt: string, history: seq<Turn>, scenario: string)
    ensures var ms := [Message(System, systemPrompt)] + Flatten(history) + [Message(User, scenario)];
      && ms[0] == Message(System, systemPrompt)
      && (forall i :: 0 < i < |ms| ==> ms[i].role != System)
      && ms[|ms| - 1] == Message(User, scenario)
      && |ms| == 2 + TruthyFields(history)
  {
    FlattenLength(history);
    var ms := [Message(System, systemPrompt)] + Flatten(history) + [Message(User, scenario)];
    forall i | 0 < i < |ms| ensures ms[i].role != System {
      if i < |ms| - 1 {
        assert ms[i] == Flatten(history)[i - 1];
      }
    }
  }

  // ---------------------------------------------------------------------
  // Output-token budget
  // ---------------------------------------------------------------------

  /** The total number of characters over all message contents: at least
      the length of each one, and 0 only when every content is empty. */
  function PromptLength(messages: seq<Message>): (n: nat)
    ensures forall i :: 0 <= i < |messages| ==> |messages[i].content| <= n
    ensures n == 0 <==> forall i :: 0 <= i < |messages| ==> messages[i].content == ""
  {
    if messages == [] then 0
    else
      var rest := PromptLength(messages[1..]);
      assert forall i :: 1 <= i < |messages| ==> messages[i] == messages[1..][i - 1];
      |messages[0].content| + rest
  }

  lemma {:induction false} PromptLengthAppend(a: seq<Message>, b: seq<Message>)
    ensures PromptLength(a + b) == PromptLength(a) + PromptLength(b)
    decreases |a|
  {
    if a != [] {
      assert (a + b)[1..] == a[1..] + b;
      PromptLengthAppend(a[1..], b);
    } else {
      assert a + b == b;
    }
  }

  /** The prompt length counts the system instruction, every history message
      and the scenario. */
  lemma PromptLengthOfMessages(systemPrompt: string, history: seq<Turn>, scenario: string)
    ensures PromptLength([Message(System, systemPrompt)] + Flatten(history) + [Message(User, scenario)])
      == |systemPrompt| + PromptLength(Flatten(history)) + |scenario|
  {
    var sys, flat, last := [Message(System, systemPrompt)], Flatten(history), [Message(User, scenario)];
    PromptLengthAppend(sys + flat, last);
    PromptLengthAppend(sys, flat);
    assert PromptLength(last) == |scenario| by {
      assert last[1..] == [];
    }
    assert PromptLength(sys) == |systemPrompt| by {
      assert sys[1..] == [];
    }
  }

  /** `max(1200, min(4000, 6000 - int(prompt_length / 2)))`: the budget
      shrinks by one token per two prompt characters, and stays within
      [1200, 4000]; it is 4000 up to 4001 characters and 1200 from 9600. */
  function MaxOutputTokens(promptLength: nat): (t: int)
    ensures 1200 <= t <= 4000
    ensures t == 4000 <==> promptLength <= 4001
    ensures t == 1200 <==> promptLength >= 9600
    ensures 4001 < promptLength < 9600 ==> t + promptLength / 2 == 6000
  {
    var raw := 6000 - promptLength / 2;
    if raw > 4000 then 4000 else if raw < 1200 then 1200 else raw
  }

  /** A longer prompt never gets a larger budget. */
  lemma MaxOutputTokensAntitone(a: nat, b: nat)
    requires a <= b
    ensures MaxOutputTokens(a) >= MaxOutputTokens(b)
  {
  }

  // ---------------------------------------------------------------------
  // The handler, up to the completion request
  // ---------------------------------------------------------------------

  /** Validates the request and prepares the completion request. A scenario
      that is missing or only whitespace is a client error (400), found before
      any message is built; a scenario or title that is not a string makes
      `.strip()` raise, which the handler reports as a server error (500).
      `systemPrompt` is the system instruction, which embeds the current time. */
  method PrepareCompletion(systemPrompt: string, scenario: Option<Json>, history: seq<Turn>, title: Option<Json>)
    returns (out: Outcome)
    ensures out.ServerError? <==> StrippedField(scenario).None? || StrippedField(title).None?
    ensures out.ServerError? ==> out.status == 500
    ensures out.BadRequest? <==> StrippedField(scenario) == Some("") && StrippedField(title).Some?
    ensures out.BadRequest? ==> out == BadRequest(400, MissingScenario)
    ensures out.Ready? ==>
      && StrippedField(scenario).Some? && StrippedField(title).Some?
      && var text := StrippedField(scenario).value;
      && text != ""
      && (scenario.Some? ==> text == Strip(scenario.value.s))
      && out.messages == [Message(System, systemPrompt)] + Flatten(history) + [Message(User, text)]
      && out.maxTokens == MaxOutputTokens(PromptLength(out.messages))
      && out.needsTitle == (StrippedField(title).value == "")
  {
    var text := StrippedField(scenario);
    if text.None? {
      return ServerError(500);
    }
    var heading := StrippedField(title);
    if heading.None? {
      return ServerError(500);
    }
    if text.value == "" {
      return BadRequest(400, MissingScenario);
    }
    var messages := BuildMessages(systemPrompt, history, text.value);
    var budget := MaxOutputTokens(PromptLength(messages));
    out := Ready(messages, budget, heading.value == "");
  }
}
