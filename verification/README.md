# Financial scenario narratives, modelled in Dafny

This project models the deterministic core of a small financial
narrative generator. It covers two parts.

- **The scenario helpers** (`utils.py`, module `Scenarios` in `scenarios.dfy`):
  - the value normaliser that turns an override such as `1200`, `"+10%"` or
    `"-5 %"` into an absolute figure relative to the baseline;
  - the metrics calculator, which derives profit, margin and next-period
    revenue;
  - the template narrative used when no language-model text is available;
  - the batch evaluator, which returns the baseline first and then one scored,
    narrated result per scenario.
- **The pure parts of the `/api/generate` handler** (`app.py`, module
  `Handler` in `handler.dfy`):
  - validating the scenario text;
  - flattening the conversation history into chat messages behind the system
    instruction;
  - the output-token budget, clamped to [1200, 4000] and shrinking with the
    prompt's length.

Two further modules hold shared pieces. `strings.dfy` (module `Strings`)
models Python's `str.strip()`, with its exact whitespace set, plus
`rstrip('%')` and truthiness of an optional string. `wrappers.dfy` (module
`Wrappers`) holds `Option`.

Conventions:

- A dictionary is a `map<Key, Value>`. `Get` models `.get`, which gives `Null`
  for an absent key.
- A number is a `real`.
- Python's `float(...)` on a string is the parameter `parse`.
- The text a language model returned is an input: one `Option<string>` per
  scenario, `None` when there was no answer.
- The system instruction is a parameter, because it embeds the current time.
- The template narrative is kept as its sequence of sentences, each with its
  numeric payload, rather than as formatted text.

Only an absent, empty or whitespace-only scenario is answered with the
client error 400 (app.py:31, 35-36). A `null` or other non-string `scenario`
or `title` makes `.strip()` raise inside the `try` (app.py:31, 33), and the
handler answers 500 (app.py:122-125). `Handler.PrepareCompletion` follows
this order.

## Model

| member | source | states |
|---|---|---|
| Strings.RStrip | utils.py:41 | `rstrip(chars)`: the result is a prefix of the input, every removed character is one to drop, and the result does not end in one |
| Strings.LStrip | app.py:31 | the left half of `strip()`: the result is a suffix of the input, every removed character is one to drop, and the result does not start with one |
| Strings.Strip | app.py:31 | the result neither starts nor ends with Python whitespace |
| Strings.StripSlice | app.py:31 | the result of `strip()` is a slice of the input with only whitespace before and after it |
| Strings.StripUnique | app.py:31 | any slice of the input cut at whitespace on both sides whose own ends are not whitespace is `strip()` of the input, so the two facts above determine `strip()` completely |
| Strings.TrimmedUnique | app.py:31 | two such slices of one string are equal |
| Strings.Truthy | utils.py:118 | an optional string is falsy exactly when it is `None` or `""`, the test behind `ai_text or ...` and `if msg.get(...)` (app.py:71, 73) |
| Strings.StripEmptyIff | app.py:35-36 | a string strips to the empty string exactly when all its characters are whitespace, so exactly those scenarios are rejected |
| Strings.RStripRun | utils.py:41 | stripping a trailing run of dropped characters gives back exactly the prefix before that run |
| Strings.StripTrimmed | utils.py:38 | a string without whitespace at either end is unchanged by strip |
| Scenarios.PercentBody | utils.py:41 | the number part of a percentage is a prefix of the text, everything after it is `%`, and it does not itself end in `%` |
| Scenarios.Normalize | utils.py:30-48 | an absent value, a list or dictionary keeps the base; a number is taken as it is |
| Scenarios.PercentCase | utils.py:38-42 | a string whose stripped text ends in `%` and whose number part (before the trailing `%` signs) parses to `p` gives `base * (1 + p/100)` |
| Scenarios.PercentOverride | utils.py:38-42 | a string that strips to `d` followed by one or more `%`, where `d` does not end in `%` and parses to `p`, gives `base * (1 + p/100)`: `"+10%"` and `"+10%%"` agree |
| Scenarios.ZeroPercentKeepsBase | utils.py:39-42 | a percentage that parses to zero keeps the base |
| Scenarios.UnparseablePercentKeepsBase | utils.py:39-44 | a string ending in `%` whose number part does not parse keeps the base, whatever the whole text would parse to |
| Scenarios.PlainUnparseableKeepsBase | utils.py:39-48 | a string whose stripped text does not end in `%` and whose value as given does not parse keeps the base, whatever its stripped text would parse to |
| Scenarios.UnparseableKeepsBase | utils.py:39-48 | a string that parses neither as a percentage nor as a number falls back to the base and never fails |
| Scenarios.NumericStringIsAbsolute | utils.py:45-46 | a numeric string not ending in `%` is taken as its number, whatever the base |
| Scenarios.Score | utils.py:57-59 | profit + cost = revenue; margin × revenue = profit, or margin 0 when revenue is 0; next revenue − revenue = revenue × growth / 100 |
| Scenarios.ComputeMetrics | utils.py:51-60 | the result holds every key of the input plus profit, margin and revenue_next; other fields are unchanged; absent figures count as 0 |
| Scenarios.EmptyRecordScoresZero | utils.py:52-58 | a record without figures scores zero profit, zero margin and zero next revenue, with no division by zero |
| Scenarios.TemplateNarrative | utils.py:63-89 | the result has the template shape: summary first and projection last; higher, lower or matches by the sign of the revenue difference; the percentage is relative to the baseline revenue, or 0 when that is 0; a fourth sentence exactly when the margin is below 5% or above 20% |
| Scenarios.TemplateFacts | utils.py:68-88 | exactly one sentence compares revenue; the low-margin note appears iff margin < 0.05 and the strong-margin note iff margin > 0.20; never both; 3 sentences when 0.05 ≤ margin ≤ 0.20 |
| Scenarios.TemplateShapeUnique | utils.py:63-89 | the template shape determines the narrative completely |
| Scenarios.BaselineMetrics | utils.py:102-109 | the baseline's metrics carry its revenue, cost and growth, and their profit, margin and next revenue are those `ComputeMetrics` adds to the three-field dictionary |
| Scenarios.ScoreScenario | utils.py:93-108 | the name is the raw name, or "Scenario" when absent; each figure is the baseline's figure normalised by the raw override (so an absent or null one is the baseline's, a numeric one is taken as it is), and profit, margin and next revenue are scored from those figures |
| Scenarios.Fields | utils.py:108-119 | a scored scenario's dictionary has exactly the keys name, revenue, cost, growth, profit, margin, revenue_next and narrative |
| Scenarios.GenerateNarrative | utils.py:92-119 | the result is the scored scenario; its narrative is the model's text when non-empty, else a template narrative against the baseline's metrics |
| Scenarios.BaselineEntry | utils.py:123-124 | the baseline entry is the baseline with profit, margin and next revenue scored from its figures (absent ones as 0), named "Baseline", narrative "Baseline scenario.", and other fields unchanged |
| Scenarios.RunScenarios | utils.py:122-127 | one more result than scenarios; the baseline entry comes first; result i+1 is the evaluation of scenario i, in input order |
| Scenarios.NoOverridesMatchBaseline | utils.py:93-109 | a scenario with no overrides reproduces the baseline's metrics, and its narrative says revenue matches the baseline |
| Scenarios.WorkedExample | utils.py:92-109 | baseline 1000/800/10 with revenue "+10%" gives revenue 1100, profit 300, margin 300/1100 and next revenue 1210 |
| Handler.StrippedField | app.py:31-33 | `.strip()` fails exactly on a present non-string field; the stripped text is empty exactly when the field is absent or only whitespace |
| Handler.Contribution | app.py:71-74 | one turn adds its user message and then its assistant message, each only when non-empty |
| Handler.Flatten | app.py:70-74 | the flattened history holds no system message and no empty content |
| Handler.FlattenAppend | app.py:70-74 | flattening two histories one after the other gives the concatenation of their flattenings, so order is kept |
| Handler.FlattenLength | app.py:70-74 | the flattened history has exactly one message per non-empty user or assistant field |
| Handler.BuildMessages | app.py:43-76 | the messages are the system instruction, the flattened history, and then the scenario as a user message |
| Handler.MessagesShape | app.py:43-76 | the first message is the only system message; the last is the scenario from the user; there are 2 + (non-empty history fields) messages |
| Handler.PromptLength | app.py:79 | the total is at least each message's length, and 0 exactly when every content is empty |
| Handler.PromptLengthAppend | app.py:79 | the prompt length of a concatenation is the sum of the prompt lengths |
| Handler.PromptLengthOfMessages | app.py:79 | the prompt length is the system instruction's length, plus the history's, plus the scenario's |
| Handler.MaxOutputTokens | app.py:80 | the budget lies in [1200, 4000]; it is 4000 iff the prompt has at most 4001 characters and 1200 iff at least 9600; in between, budget + ⌊length/2⌋ = 6000 |
| Handler.MaxOutputTokensAntitone | app.py:80 | a longer prompt never gets a larger budget |
| Handler.PrepareCompletion | app.py:31-80 | a non-string scenario or title gives 500; an empty stripped scenario gives 400 "Missing 'scenario' text" and builds no messages; otherwise the messages end with the stripped scenario, and the outcome carries the budget for their length and whether a title must be generated |

## Left out

- `call_openai_prompt` is left out: its answer is an input, one
  `Option<string>` per scenario. In `utils.py` a missing API key or any
  exception gives `None` (utils.py:12-13, 25-27), and that is this input's
  `None`.
- The two completion calls of `app.py` are left out: the chat completion
  with its reply, and the completion that generates a title. So is the 500
  answer when either fails (app.py:85-91, 103-118, 122-125), and the startup
  failure when the API key is missing (app.py:16-17). The model of the
  handler stops at `Ready`, before the first call.
- The prompt text for the scenario narrative and the fixed wording of the
  system instruction are left out. The current time is I/O, so the system
  instruction is a parameter.
- The Markdown-to-HTML conversion of the reply is left out, as are the Flask
  routing, CORS, environment loading and the JSON response bodies on success.
- Python's `float` grammar is left out: `parse` stands for it. Floating-point
  rounding is left out too: numbers are exact reals.
- Formatting the narrative into text is left out: the thousands separators,
  the rounding to whole dollars and to one decimal place, and the joining
  with spaces. The model keeps the sentences and their numbers.
- Scenarios.Normalize: its own contract covers the absent, list or
  dictionary (`Composite`) and numeric cases. The string cases are stated by
  the lemmas `PercentCase`, `PercentOverride`, `ZeroPercentKeepsBase`,
  `UnparseablePercentKeepsBase`, `PlainUnparseableKeepsBase`,
  `UnparseableKeepsBase` and `NumericStringIsAbsolute`. A Python `bool` (a number to `isinstance`) has no
  `Value` of its own.
- Scenarios.RunScenarios: requires numeric baseline revenue, cost and growth
  whenever there is a scenario. This is because the source reads them with
  `baseline_raw[...]` and does arithmetic on them, raising otherwise.
- Scenarios.ComputeMetrics: requires each figure to be absent or numeric. The
  source raises on a non-numeric figure, and this is not modelled.
- Handler.PrepareCompletion: history entries are modelled as pairs of
  optional strings. A falsy field (`None`, `0`, `False`, `[]`, `{}`) is
  skipped like a missing one and is `None` here. An empty string, list or
  dictionary as `history` iterates over nothing, like `[]`. Not modelled:
  - a non-empty string or dictionary, or a number, as `history`;
  - `null` (or a boolean) as `history`, on which `for msg in history` raises
    `TypeError`;
  - an entry that is not a dictionary;
  - a request body that is not a JSON object.

  A request body that is not a JSON object always raises, at app.py:31. Each
  `history` case raises only in the loop at app.py:70-71, once a non-blank
  scenario has passed app.py:35. The handler then answers 500. A blank
  scenario gets the 400 first, as `PrepareCompletion` gives it for every
  history. A truthy non-string field is also not modelled. A number raises at app.py:79. A
  non-empty list or dictionary passes `len()` and reaches the completion call
  as message content.
- Keys other than the named ones are `Other(...)`. The model assumes a key
  spelled like a named one is never given as `Other`.
- The scored scenarios are returned as `Result` records rather than
  dictionaries; `Scenarios.Fields` gives the dictionary each stands for.
