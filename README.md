# Meeting summarizer: analysis record and page text

The meeting summarizer sends a transcript to a chat model and asks for a JSON
record with five fields: a short summary, detailed bullets, decisions, action
items and open questions. It normalises whatever comes back into that record.
A Streamlit page renders the record, exports it as a JSON document and offers
it as copyable text.

This project models the local logic on both sides of the remote call.

- `Analysis` models `services/analysis.py` in three parts:
  - the request `analyze_transcript` builds, meaning the model id and the stripped system and user prompts;
  - the fallback record for a reply that is not JSON;
  - the five `setdefault` calls, as a method that updates the map one call at a time.
- `App` models the text `app.py` computes: the click handler's branches, the list sections, the action-item line with its meta entries, the export title, the download file name, the `export_data` record and the copyable summary. The page computes these inline; here they are functions and methods with the title, the meeting type, the timestamps and the analysis record as parameters. The list sections and the meta list are built the way the script builds them, by a loop and by appends.
- `PyJson` holds what the code relies on from Python for decoded JSON:
  - the `Json` values themselves and their truthiness;
  - `dict.get`, `str()` in an f-string and the elements a `for` loop visits;
  - the exceptions the code can raise.
- `PyStrings` holds `str.strip()` (with Python's whitespace set), `join`, single-character `replace` and the decimal rendering of integers. It also defines `Split` as the reference for what the lines of a text are.

The remote calls are not modelled. The model's reply text, and what `json.loads` made of it, are inputs to `Analysis.AnalyzeReply`. The request for a transcript is `Analysis.AnalysisRequest(transcript)`.

## Model

| member | source | states |
|---|---|---|
| PyStrings.TrimStart | services/analysis.py:56-57 | `lstrip` removes a prefix made only of whitespace, and what remains is empty or starts with a non-whitespace character |
| PyStrings.TrimEnd | services/analysis.py:56-57 | `rstrip` removes a suffix made only of whitespace, and what remains is empty or ends with a non-whitespace character |
| PyStrings.StripPadded | services/analysis.py:56-57 | `strip()` returns a text with non-whitespace ends unchanged, whatever whitespace surrounds it |
| PyStrings.StripAllSpace | services/analysis.py:56-57 | a text made only of whitespace strips to the empty string |
| PyStrings.Join | app.py:102-103 | `sep.join(parts)` starts with the first part |
| PyStrings.JoinAppend | app.py:143-146 | joining one more part adds the separator and that part at the end, so a join is the parts in order with one separator between neighbours |
| PyStrings.JoinEmptyIff | app.py:102-103 | a join of non-empty parts is empty exactly when there are no parts, so the meta suffix appears exactly when there is a meta entry |
| PyStrings.SplitAt | app.py:142-146 | splitting at a separator gives the pieces before it followed by the pieces after it |
| PyStrings.SplitJoin | app.py:143-146 | splitting a `"\n".join` of lines that contain no line break gives back the lines in order |
| PyStrings.ReplaceChar | app.py:134 | `replace(' ', '_')` keeps the length and changes exactly the characters equal to the one replaced |
| PyStrings.NatToDecimal | app.py:99-101 | `str()` of a natural number is a non-empty string of decimal digits with no leading zero, and `0` for zero |
| PyStrings.DecimalRoundTrip | app.py:99-101 | reading the decimal rendering of a number back gives the number |
| PyStrings.IntToDecimal | app.py:99-101 | `str()` of an integer is its decimal digits, with no leading zero, preceded by `-` when it is negative; reading the digits back gives the number |
| PyJson.FalsyValues | app.py:92-100 | a value is falsy exactly when it is `None`, `False`, `0`, `0.0`, `""`, `[]` or `{}` |
| PyJson.Get | app.py:94-96 | `dict.get` gives the stored value when the key is present and the default otherwise |
| PyJson.Str | app.py:94-103 | an f-string writes a string verbatim, `None`, `True` and `False` by name, an integer as its decimal digits with no leading zero (with `-` when negative), and other values by their `repr` |
| PyJson.Iterate | app.py:84-86 | a `for` loop visits a list's items in order and a string's characters as one-character strings. It raises `TypeError` for `None`, a bool or a number. An empty dict gives no elements and a one-key dict gives its key as a string. A dict with two or more keys is `KeyOrderNotModelled`, because the map keeps no key order |
| Analysis.StrippedSystemPrompt | services/analysis.py:17-56 | the stripped system prompt literal is the instruction text without its opening and closing line breaks |
| Analysis.StrippedUserPrompt | services/analysis.py:48-57 | the stripped user prompt is `Transcript:` and a line break, then the transcript verbatim between triple quotes, even when the transcript starts or ends with whitespace |
| Analysis.AnalysisRequest | services/analysis.py:17-60 | the request names the model `gpt-4o-mini` and holds exactly two messages: the system message with the instruction text, then the user message with the transcript verbatim between triple quotes |
| Analysis.FallbackContents | services/analysis.py:66-73 | the fallback record has exactly the five keys: the fixed notice as the short summary, the raw reply as the only detailed bullet, and empty decisions, action items and open questions |
| Analysis.SetDefault | services/analysis.py:75-79 | one `setdefault` adds the key if it is missing and never overwrites or removes a key |
| Analysis.FillOne | services/analysis.py:75-79 | one more `setdefault` with its key's default extends the filled record by that key |
| Analysis.Normalize | services/analysis.py:75-79 | the five `setdefault` calls, applied in order to the map, give a map whose keys are the parsed keys plus the five, with every present key kept and `""` or `[]` filled in for a missing one |
| Analysis.NormalizedContents | services/analysis.py:75-81 | after normalisation all five keys are present and no key is removed. Every present key keeps its value, even one of an unexpected type. A missing `summary_short` becomes `""` and a missing list becomes `[]` |
| Analysis.NormalizedIdempotent | services/analysis.py:75-79 | running the `setdefault` pass on its own output changes nothing |
| Analysis.CompleteRecordUnchanged | services/analysis.py:75-79 | a record that already has the five keys, whatever their values, is left unchanged by the `setdefault` pass |
| Analysis.FallbackIsNormal | services/analysis.py:66-79 | the `setdefault` pass leaves the fallback record unchanged |
| Analysis.AnalyzeReply | services/analysis.py:62-81 | a reply that is not JSON gives the fallback record; a JSON object gives its normalised map; any other JSON value raises `AttributeError` for `setdefault` on its type; every returned record has the five keys |
| Analysis.WellFormedReplyUnchanged | services/analysis.py:31-45 | an example reply of the shape the system prompt asks for (a team agreeing to ship v2 by Friday, Alice owning the docs) is returned unchanged by the `setdefault` pass |
| App.ProcessClick | app.py:43-62 | the analysis is reached exactly when a file was uploaded and the transcript is truthy, and it receives that transcript; otherwise the page shows the upload or transcription message |
| App.AsWrittenNeverAnalyzes | app.py:62 | as written, no click reaches the analysis: wherever it should, the handler raises `NameError` for `meeting_type`; elsewhere it agrees with the corrected handler |
| App.RenderList | app.py:83-88 | a falsy value shows the placeholder; otherwise there is one `- x` bullet per element, in order, or the error the loop raises |
| App.ActionItemMeta | app.py:95-102 | the appends produce the meta entries: at most two, none empty, owner before due date |
| App.MetaJoined | app.py:97-102 | the joined meta is empty, `Owner: **o**`, `Due: **d**`, or both joined by ` \| `, exactly as owner and due date are truthy |
| App.ItemLineShape | app.py:94-103 | an action-item line is `- desc` alone when no meta entry is truthy, and otherwise `- desc`, a markdown line break and the joined meta; a missing description renders as nothing |
| App.ActionItemLine | app.py:93-103 | a dict item renders as its item line, and any other item raises `AttributeError` for `get` on its type |
| App.RenderActionItems | app.py:90-105 | a falsy value shows the placeholder; otherwise one bullet per item in order. The first item that is not a dict raises, and the bullets already written stay. A non-empty dict raises `AttributeError` for `get` on its first key, a `str` |
| App.ExportTitle | app.py:116 | the export title is the meeting title when it is non-empty and `Untitled meeting` otherwise; it is never empty |
| App.FileName | app.py:134 | the file name is the title with every space turned into `_` and no other change, followed by `_`, the date and `.json` |
| App.ExportRecord | app.py:117-127 | the export has exactly nine keys: the title, the meeting type, the timestamp with a trailing `Z` and the transcript, plus the five result fields read with the defaults `""` and `[]` |
| App.ExportMatchesNormalized | app.py:122-126 | the exported analysis fields are those of the normalised record, and a record that already has the five keys is exported verbatim |
| App.DecisionLines | app.py:143 | one `- d` line per decision, in order, or the loop's error |
| App.DescriptionLines | app.py:144-146 | one `- description` line per action item, in order, exactly when every item is a dict; otherwise `AttributeError` for `get` on the type of the first item that is not a dict |
| App.CopyableSummary | app.py:142-146 | the summary is the title, the short-summary heading and text, the decisions heading with the decision lines, and the action-items heading with the item lines. It is produced exactly when both loops succeed. Otherwise it is the first error raised: the decisions loop's, else the action-items loop's (for a non-empty dict, `AttributeError` for `get` on its first key, a `str`), else the `get` on the first item that is not a dict. Decisions given as a dict with two or more keys give `KeyOrderNotModelled` |
| App.OneKeyDecisionsSummary | app.py:143 | decisions given as the one-key dict `{"a": "x"}` give the single line `- a`, and the summary text is built with it |
| App.SummaryTextLines | app.py:142-146 | when the title, the short summary and every line contain no line break, the lines of the summary text are the title, a blank line, `Short summary:`, the summary, a blank line, `Decisions:`, the decision lines, a blank line, `Action items:`, the item lines, in order; an empty list of lines still contributes one empty line |

## Left out

- The chat-completion and transcription calls (services/analysis.py:53-62, services/transcription.py): these are network calls. The reply text and the transcription result are inputs, and a failed or empty transcription is `None` or `""` in `App.ProcessClick`.
- The sampling temperature 0.2 given with the request (services/analysis.py:59) is a float sent to the remote service. `ChatRequest` does not carry it.
- `json.loads` internals (services/analysis.py:65): only its outcome is modelled, either `DecodeError` or the parsed `Json` value. The reply is a `string`, so a `None` content, which would raise something other than `JSONDecodeError`, cannot occur in the model.
- Floating-point numbers are exact reals, and Python's `repr` of floats, lists and dicts inside an f-string is the parameter `show`.
- PyJson.Iterate, App.RenderList, App.DecisionLines, App.CopyableSummary (its decisions loop): a `for` loop over a dict with two or more keys visits them in insertion order, which the model's maps do not record. These members give `KeyOrderNotModelled` there instead of one bullet or line per key. Dicts with no key or one key are modelled. The action-items loops of App.RenderActionItems and App.CopyableSummary do not have this gap. They call `get` on the first key visited, and every key is a `str`, so they raise `AttributeError` for `'str'.get` whatever the order.
- services/transcription.py and config.py are not part of this model. They are temporary-file and environment I/O.
- Streamlit widgets, spinners, columns, headings, the download button and the composition of the whole page (app.py:11-41, 64-73, 107-113, 129-137, 147-150). The detailed-summary and open-questions sections are the same `App.RenderList` as the decisions section, with their own placeholder text.
- `datetime.utcnow()` and `datetime.now().date()` (app.py:120, 134) are string inputs. `json.dumps` formatting of the export (app.py:136) is not modelled.
- `analyze_transcript` is modelled as `Analysis.AnalysisRequest` for the request it sends and `Analysis.AnalyzeReply` for what it does with the reply. No single member runs both, because the reply comes from the remote call.
- App.SummaryTextLines: states the line structure only when the title, the short summary and the decision and item lines contain no line break. A short summary with a line break adds lines of its own, which the lemma does not describe.
- Three behaviours of the code are worth naming, because a reader might expect otherwise. The model follows the code in each.
  - `analyze_transcript` does not always return a record: a reply that is valid JSON but not an object makes `setdefault` raise `AttributeError` (services/analysis.py:75).
  - The export always has a `meeting_type` key (app.py:119), even though the page never defines a meeting type.
  - `analyze_transcript` takes only the transcript (services/analysis.py:8); no meeting category reaches the prompt.

## Findings

| source | as written | input that shows it | evidently intended | confidence | as-written member | corrected member |
|---|---|---|---|---|---|---|
| app.py:62 | the analysis is called with `meeting_type`, which the script never defines, and with an argument `analyze_transcript` does not take | any click with a file uploaded where the page receives a truthy transcript, e.g. `"hello"` | the transcript is analysed and the meeting title and type are inputs of the page | not executed | App.ProcessClickAsWritten | App.ProcessClick |

The lemma `App.AsWrittenNeverAnalyzes` shows the as-written handler never reaches the analysis. The undefined `meeting_title` at app.py:116 would raise next, but line 62 raises first. In the rest of the model, the title and the type are parameters. The transcript is an input as the page receives it from `transcribe_audio` (app.py:49). Whether the transcription call returns text for the uploaded file object is a question about services/transcription.py, which is not part of this model. If that call always failed, every click would end at the transcription message (app.py:52) before line 62.
