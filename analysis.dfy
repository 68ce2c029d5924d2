/**
  services/analysis.py: the prompt sent to the chat model and the
  normalisation of its reply into the five-field analysis record. The
  remote call itself is not modelled: its reply text, and what `json.loads`
  made of that text, are inputs.
 */
module Analysis {
  import opened PyJson
  import opened PyStrings

  const ModelId: string := "gpt-4o-mini"

  const NonJsonNotice: string := "Model returned non-JSON output. See detailed summary."

  const SummaryShort: string := "summary_short"
  const SummaryDetailed: string := "summary_detailed"
  const Decisions: string := "decisions"
  const ActionItems: string := "action_items"
  const OpenQuestions: string := "open_questions"

  /** The five keys every analysis record carries. */
  const RequiredKeys: set<string> := {SummaryShort, SummaryDetailed, Decisions, ActionItems, OpenQuestions}

  /** The value `setdefault` inserts for a missing required key. */
  function DefaultFor(key: string): Json {
    if key == SummaryShort then JStr("") else JArr([])
  }

  /**
    The instruction text, as it reads once the triple-quoted literal is
    stripped: an opening that starts with a letter, the middle lines, and the
    closing brace of the JSON template.
   */
  function SystemPromptText(): string {
    "You are an " + SystemPromptMiddle() + "}"
  }

  function SystemPromptMiddle(): string {
    "assistant that analyzes meeting or conversation transcripts.\n"
    + "\n"
    + "Given a transcript, you will extract:\n"
    + "1) A short 2-3 sentence summary.\n"
    + "2) A detailed bullet-point summary (5-12 bullets).\n"
    + "3) A list of key decisions or outcomes.\n"
    + "4) A list of action items. \n"
    + "   Each action item should have:\n"
    + "   - description\n"
    + "   - optional owner (person)\n"
    + "   - optional due date (if mentioned).\n"
    + "5) A list of open questions or unresolved points.\n"
    + "\n"
    + "Respond ONLY as valid JSON with this structure:\n"
    + "\n"
    + "{\n"
    + "  \"summary_short\": \"string\",\n"
    + "  \"summary_detailed\": [\"string\", \"string\"],\n"
    + "  \"decisions\": [\"string\", \"string\"],\n"
    + "  \"action_items\": [\n"
    + "    {\n"
    + "      \"description\": \"string\",\n"
    + "      \"owner\": \"string or null\",\n"
    + "      \"due_date\": \"string or null\"\n"
    + "    }\n"
    + "  ],\n"
    + "  \"open_questions\": [\"string\", \"string\"]\n"
  }

  /** The triple-quoted system prompt literal: it opens and closes with a line break. */
  function SystemPromptLiteral(): string {
    "\n" + SystemPromptText() + "\n"
  }

  /** The f-string user prompt before `strip()`. */
  function UserPromptLiteral(transcript: string): string {
    "\nTranscript:\n\"\"\"" + transcript + "\"\"\"\n"
  }

  datatype ChatMessage = ChatMessage(role: string, content: string)

  /** The arguments of the chat-completion call, apart from the temperature. */
  datatype ChatRequest = ChatRequest(model: string, messages: seq<ChatMessage>)

  /** A text framed by a letter and a closing brace loses only the line breaks around it. */
  lemma StripFramed(middle: string)
    ensures Strip("\n" + ("You are an " + middle + "}") + "\n") == "You are an " + middle + "}"
  {
    var core := "You are an " + middle + "}";
    assert core[0] == 'Y';
    assert core[|core| - 1] == '}';
    StripPadded("\n", core, "\n");
  }

  /** `SYSTEM_PROMPT.strip()` is the instruction text without the surrounding line breaks. */
  lemma StrippedSystemPrompt()
    ensures Strip(SystemPromptLiteral()) == SystemPromptText()
  {
    StripFramed(SystemPromptMiddle());
  }

  /**
    Stripping the user prompt removes only the line breaks around it: the
    transcript sits verbatim between the triple quotes, whatever whitespace
    it starts or ends with.
   */
  lemma StrippedUserPrompt(transcript: string)
    ensures Strip(UserPromptLiteral(transcript)) == "Transcript:\n\"\"\"" + transcript + "\"\"\""
  {
    var core := "Transcript:\n\"\"\"" + transcript + "\"\"\"";
    assert core[0] == 'T';
    assert core[|core| - 1] == '"';
    assert UserPromptLiteral(transcript) == "\n" + core + "\n";
    StripPadded("\n", core, "\n");
  }

  /**
    The arguments of the chat-completion call `analyze_transcript` makes:
    the model id, then the system message with the instruction text and the
    user message with the transcript verbatim between triple quotes. The
    body strips the two literals as the source does; the contract says what
    the stripped texts are.
   */
  function AnalysisRequest(transcript: string): (req: ChatRequest)
    ensures req == ChatRequest("gpt-4o-mini",
                               [ChatMessage("system", SystemPromptText()),
                                ChatMessage("user", "Transcript:\n\"\"\"" + transcript + "\"\"\"")])
  {
    StrippedSystemPrompt();
    StrippedUserPrompt(transcript);
    ChatRequest(ModelId, [ChatMessage("system", Strip(SystemPromptLiteral())),
                          ChatMessage("user", Strip(UserPromptLiteral(transcript)))])
  }

  /** The record that stands in for a reply that is not JSON. */
  function FallbackRecord(raw: string): map<string, Json> {
    map[SummaryShort := JStr(NonJsonNotice),
        SummaryDetailed := JArr([JStr(raw)]),
        Decisions := JArr([]),
        ActionItems := JArr([]),
        OpenQuestions := JArr([])]
  }

  /**
    The fallback record holds exactly the five keys: the notice as the short
    summary, the raw reply as the only detailed bullet, and no decisions,
    action items or open questions.
   */
  lemma FallbackContents(raw: string)
    ensures FallbackRecord(raw).Keys == RequiredKeys
    ensures FallbackRecord(raw)[SummaryShort] == JStr(NonJsonNotice)
    ensures FallbackRecord(raw)[SummaryDetailed] == JArr([JStr(raw)])
    ensures forall k :: k in RequiredKeys - {SummaryShort, SummaryDetailed} ==> FallbackRecord(raw)[k] == JArr([])
  {
  }

  /** One `data.setdefault(key, default)`: fills a missing key, never overwrites. */
  function SetDefault(data: map<string, Json>, key: string, default: Json): (r: map<string, Json>)
    ensures r.Keys == data.Keys + {key}
    ensures r[key] == (if key in data then data[key] else default)
    ensures forall k :: k in data ==> r[k] == data[k]
  {
    if key in data then data else data[key := default]
  }

  /**
    The record once the defaults for `keys` are filled in: every key of
    `data` keeps its value, and every key of `keys` missing from `data` gets
    its default.
   */
  function Filled(data: map<string, Json>, keys: set<string>): map<string, Json> {
    map k | k in data.Keys + keys :: if k in data then data[k] else DefaultFor(k)
  }

  /** The record after the five `setdefault`s. */
  function Normalized(data: map<string, Json>): map<string, Json> {
    Filled(data, RequiredKeys)
  }

  /** Before any `setdefault`, the record is the parsed dict itself. */
  lemma FilledNone(data: map<string, Json>)
    ensures Filled(data, {}) == data
  {
  }

  /** One more `setdefault`, with the default for its key, fills in one more key. */
  lemma FillOne(data: map<string, Json>, keys: set<string>, key: string, default: Json, current: map<string, Json>)
    requires current == Filled(data, keys) && default == DefaultFor(key)
    ensures SetDefault(current, key, default) == Filled(data, keys + {key})
  {
  }

  /** The defaults the five calls pass are the ones `DefaultFor` names. */
  lemma RequiredDefaults()
    ensures DefaultFor(SummaryShort) == JStr("")
    ensures DefaultFor(SummaryDetailed) == JArr([]) && DefaultFor(Decisions) == JArr([])
    ensures DefaultFor(ActionItems) == JArr([]) && DefaultFor(OpenQuestions) == JArr([])
  {
  }

  /** The keys the five calls fill in, one after another, make up the required keys. */
  lemma RequiredKeysFilled()
    ensures {} + {SummaryShort} + {SummaryDetailed} + {Decisions} + {ActionItems} + {OpenQuestions} == RequiredKeys
  {
  }

  /** The five `setdefault` calls, applied one after the other to the parsed dict. */
  method Normalize(parsed: map<string, Json>) returns (data: map<string, Json>)
    ensures data == Normalized(parsed)
  {
    RequiredDefaults();
    FilledNone(parsed);
    data := parsed;
    ghost var keys: set<string> := {};
    FillOne(parsed, keys, SummaryShort, JStr(""), data);
    data := SetDefault(data, SummaryShort, JStr(""));
    keys := keys + {SummaryShort};
    FillOne(parsed, keys, SummaryDetailed, JArr([]), data);
    data := SetDefault(data, SummaryDetailed, JArr([]));
    keys := keys + {SummaryDetailed};
    FillOne(parsed, keys, Decisions, JArr([]), data);
    data := SetDefault(data, Decisions, JArr([]));
    keys := keys + {Decisions};
    FillOne(parsed, keys, ActionItems, JArr([]), data);
    data := SetDefault(data, ActionItems, JArr([]));
    keys := keys + {ActionItems};
    FillOne(parsed, keys, OpenQuestions, JArr([]), data);
    data := SetDefault(data, OpenQuestions, JArr([]));
    keys := keys + {OpenQuestions};
    RequiredKeysFilled();
  }

  /**
    What normalisation promises: the five keys are present, no key is
    removed, a present key keeps its value whatever its type, a missing
    summary becomes `""` and a missing list becomes `[]`.
   */
  lemma NormalizedContents(data: map<string, Json>)
    ensures RequiredKeys <= Normalized(data).Keys
    ensures Normalized(data).Keys == data.Keys + RequiredKeys
    ensures forall k :: k in data ==> Normalized(data)[k] == data[k]
    ensures SummaryShort !in data ==> Normalized(data)[SummaryShort] == JStr("")
    ensures forall k :: k in RequiredKeys - {SummaryShort} && k !in data ==> Normalized(data)[k] == JArr([])
  {
  }

  /** Normalising an already normalised record changes nothing. */
  lemma NormalizedIdempotent(data: map<string, Json>)
    ensures Normalized(Normalized(data)) == Normalized(data)
  {
  }

  /** A record that already carries the five keys is left as it is, whatever their values. */
  lemma CompleteRecordUnchanged(data: map<string, Json>)
    requires RequiredKeys <= data.Keys
    ensures Normalized(data) == data
  {
    NormalizedContents(data);
  }

  /** The fallback record already carries all five keys, so normalisation leaves it as built. */
  lemma FallbackIsNormal(raw: string)
    ensures Normalized(FallbackRecord(raw)) == FallbackRecord(raw)
  {
    FallbackContents(raw);
    CompleteRecordUnchanged(FallbackRecord(raw));
  }

  /**
    What `analyze_transcript` does with the model's answer to
    `AnalysisRequest(transcript)`: `reply` is the content of the first
    choice and `parsed` is what `json.loads(reply)` produced.
   */
  method AnalyzeReply(reply: string, parsed: ParseOutcome) returns (result: Result<map<string, Json>>)
    ensures parsed.DecodeError? ==> result == Ok(FallbackRecord(reply))
    ensures parsed.Parsed? && parsed.value.JObj? ==> result == Ok(Normalized(parsed.value.fields))
    ensures parsed.Parsed? && !parsed.value.JObj? ==>
              result == Err(AttributeError(TypeName(parsed.value), "setdefault"))
    ensures result.Ok? ==> RequiredKeys <= result.value.Keys
  {
    var data: map<string, Json>;
    match parsed {
      case DecodeError =>
        data := FallbackRecord(reply);
      case Parsed(v) =>
        if !v.JObj? {
          return Err(AttributeError(TypeName(v), "setdefault"));
        }
        data := v.fields;
    }
    ghost var before := data;
    data := Normalize(data);
    if parsed.DecodeError? {
      FallbackIsNormal(reply);
    }
    NormalizedContents(before);
    result := Ok(data);
  }

  /**
    An example reply of the shape the system prompt asks for, a team
    agreeing to ship v2 by Friday with Alice owning the docs, comes back
    unchanged.
   */
  lemma WellFormedReplyUnchanged()
    ensures var item := JObj(map["description" := JStr("Write docs"), "owner" := JStr("Alice"),
                                 "due_date" := JStr("Friday")]);
            var reply := map[SummaryShort := JStr("Team agreed to ship v2 by Friday; Alice owns docs."),
                             SummaryDetailed := JArr([JStr("Discussed v2 release")]),
                             Decisions := JArr([JStr("Ship v2 by Friday")]),
                             ActionItems := JArr([item]),
                             OpenQuestions := JArr([])];
            Normalized(reply) == reply
  {
  }
}
