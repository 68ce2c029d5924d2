/**
  app.py: the text the page computes from an analysis record, lifted out of
  the Streamlit script into functions and methods. The meeting title, the
  meeting type, the timestamps and the transcript are inputs; widgets,
  layout and the download button are not modelled.
 */
module App {
  import opened PyJson
  import opened PyStrings
  import Analysis

  const UntitledMeeting: string := "Untitled meeting"

  // ---------------------------------------------------------------------
  // The click handler
  // ---------------------------------------------------------------------

  /** Where a click on "Process meeting" leads. */
  datatype ClickOutcome =
    | UploadMissing                 // "Please upload an audio file first."
    | TranscriptionFailed           // "Something went wrong during transcription."
    | Analyze(transcript: string)   // the transcript goes to the analysis
    | Crashed(error: PyError)       // the script stops with an exception

  /**
    Lines 43-62 as they are written: the analysis call names `meeting_type`,
    which nothing in the script defines, so evaluating its arguments raises.
   */
  function ProcessClickAsWritten(uploaded: bool, transcription: Option<string>): ClickOutcome {
    if !uploaded then UploadMissing
    else if transcription.None? || transcription.value == [] then TranscriptionFailed
    else Crashed(NameError("meeting_type"))
  }

  /**
    The handler as intended: a missing upload and a falsy transcript (no
    result, or an empty one) stop with a message; any other transcript is
    analysed.
   */
  function ProcessClick(uploaded: bool, transcription: Option<string>): (o: ClickOutcome)
    ensures o.Analyze? <==> uploaded && transcription.Some? && transcription.value != []
    ensures o.Analyze? ==> o.transcript == transcription.value
    ensures !uploaded ==> o == UploadMissing
    ensures uploaded && !o.Analyze? ==> o == TranscriptionFailed
  {
    if !uploaded then UploadMissing
    else if transcription.None? || transcription.value == [] then TranscriptionFailed
    else Analyze(transcription.value)
  }

  /** As written, no click ever reaches the analysis: exactly where it should, the script raises `NameError`. */
  lemma AsWrittenNeverAnalyzes(uploaded: bool, transcription: Option<string>)
    ensures !ProcessClickAsWritten(uploaded, transcription).Analyze?
    ensures ProcessClick(uploaded, transcription).Analyze? ==>
              ProcessClickAsWritten(uploaded, transcription) == Crashed(NameError("meeting_type"))
    ensures !ProcessClick(uploaded, transcription).Analyze? ==>
              ProcessClickAsWritten(uploaded, transcription) == ProcessClick(uploaded, transcription)
  {
  }

  // ---------------------------------------------------------------------
  // Rendering the record
  // ---------------------------------------------------------------------

  /** What the page shows for a list section: a markdown bullet, or the placeholder text. */
  datatype Block = Markdown(text: string) | Notice(text: string)

  /**
    A list section (detailed summary, decisions, open questions): one
    `- x` bullet per element the loop visits, or the placeholder when the
    value is falsy.
   */
  method RenderList(value: Json, emptyNotice: string, show: Json -> string) returns (blocks: Result<seq<Block>>)
    ensures !Truthy(value) ==> blocks == Ok([Notice(emptyNotice)])
    ensures Truthy(value) && Iterate(value).Err? ==> blocks == Err(Iterate(value).error)
    ensures Truthy(value) && Iterate(value).Ok? ==>
              blocks.Ok? && |blocks.value| == |Iterate(value).value| &&
              forall k :: 0 <= k < |blocks.value| ==>
                blocks.value[k] == Markdown("- " + Str(Iterate(value).value[k], show))
  {
    if !Truthy(value) {
      return Ok([Notice(emptyNotice)]);
    }
    var elements := Iterate(value);
    if elements.Err? {
      return Err(elements.error);
    }
    var xs := elements.value;
    var out: seq<Block> := [];
    for i := 0 to |xs|
      invariant |out| == i
      invariant forall k :: 0 <= k < i ==> out[k] == Markdown("- " + Str(xs[k], show))
    {
      out := out + [Markdown("- " + Str(xs[i], show))];
    }
    blocks := Ok(out);
  }

  /** The meta entries of an action item: owner first, then due date, each only when truthy. */
  function MetaEntries(item: map<string, Json>, show: Json -> string): seq<string> {
    var owner := Get(item, "owner", JNull);
    var due := Get(item, "due_date", JNull);
    (if Truthy(owner) then ["Owner: **" + Str(owner, show) + "**"] else []) +
    (if Truthy(due) then ["Due: **" + Str(due, show) + "**"] else [])
  }

  /** Builds the meta list by appending, as the loop body does. */
  method ActionItemMeta(item: map<string, Json>, show: Json -> string) returns (meta: seq<string>)
    ensures meta == MetaEntries(item, show)
    ensures |meta| <= 2
    ensures forall k :: 0 <= k < |meta| ==> meta[k] != []
  {
    var owner := Get(item, "owner", JNull);
    var due := Get(item, "due_date", JNull);
    meta := [];
    if Truthy(owner) {
      meta := meta + ["Owner: **" + Str(owner, show) + "**"];
    }
    if Truthy(due) {
      meta := meta + ["Due: **" + Str(due, show) + "**"];
    }
  }

  /** The markdown of one action item. */
  function ItemLine(item: map<string, Json>, show: Json -> string): string {
    var desc := Get(item, "description", JStr(""));
    var metaStr := Join(MetaEntries(item, show), " | ");
    "- " + Str(desc, show) + (if metaStr != [] then "  \n  " + metaStr else "")
  }

  /** The joined meta entries: empty, one entry, or both joined by " | ". */
  lemma MetaJoined(item: map<string, Json>, show: Json -> string)
    ensures var owner := Get(item, "owner", JNull);
            var due := Get(item, "due_date", JNull);
            var ownerPart := "Owner: **" + Str(owner, show) + "**";
            var duePart := "Due: **" + Str(due, show) + "**";
            var joined := Join(MetaEntries(item, show), " | ");
            && (!Truthy(owner) && !Truthy(due) ==> joined == [])
            && (Truthy(owner) && !Truthy(due) ==> joined == ownerPart)
            && (!Truthy(owner) && Truthy(due) ==> joined == duePart)
            && (Truthy(owner) && Truthy(due) ==> joined == ownerPart + " | " + duePart)
  {
    var owner := Get(item, "owner", JNull);
    var due := Get(item, "due_date", JNull);
    var ownerPart := "Owner: **" + Str(owner, show) + "**";
    var duePart := "Due: **" + Str(due, show) + "**";
    var meta := MetaEntries(item, show);
    if Truthy(owner) && Truthy(due) {
      assert meta == [ownerPart, duePart];
      assert meta[1..] == [duePart];
    } else if Truthy(owner) {
      assert meta == [ownerPart];
    } else if Truthy(due) {
      assert meta == [duePart];
    } else {
      assert meta == [];
    }
  }

  /**
    The four shapes of an action-item line: the description alone, or
    followed by a markdown line break and "Owner: **o**", "Due: **d**" or
    both joined by " | ". A missing description renders as nothing.
   */
  lemma ItemLineShape(item: map<string, Json>, show: Json -> string)
    ensures var desc := Str(Get(item, "description", JStr("")), show);
            var owner := Get(item, "owner", JNull);
            var due := Get(item, "due_date", JNull);
            var ownerPart := "Owner: **" + Str(owner, show) + "**";
            var duePart := "Due: **" + Str(due, show) + "**";
            && ("description" !in item ==> desc == "")
            && (!Truthy(owner) && !Truthy(due) ==> ItemLine(item, show) == "- " + desc)
            && (Truthy(owner) && !Truthy(due) ==> ItemLine(item, show) == "- " + desc + ("  \n  " + ownerPart))
            && (!Truthy(owner) && Truthy(due) ==> ItemLine(item, show) == "- " + desc + ("  \n  " + duePart))
            && (Truthy(owner) && Truthy(due) ==>
                  ItemLine(item, show) == "- " + desc + ("  \n  " + (ownerPart + " | " + duePart)))
  {
    var desc := Str(Get(item, "description", JStr("")), show);
    var owner := Get(item, "owner", JNull);
    var due := Get(item, "due_date", JNull);
    var joined := Join(MetaEntries(item, show), " | ");
    MetaJoined(item, show);
    if !Truthy(owner) && !Truthy(due) {
      assert "- " + desc + [] == "- " + desc;
    } else {
      assert joined != [];
    }
  }

  /** One action item: `item.get` raises unless the item is a dict. */
  method ActionItemLine(item: Json, show: Json -> string) returns (line: Result<string>)
    ensures item.JObj? ==> line == Ok(ItemLine(item.fields, show))
    ensures !item.JObj? ==> line == Err(AttributeError(TypeName(item), "get"))
  {
    if !item.JObj? {
      return Err(AttributeError(TypeName(item), "get"));
    }
    var desc := Get(item.fields, "description", JStr(""));
    var meta := ActionItemMeta(item.fields, show);
    var metaStr := Join(meta, " | ");
    line := Ok("- " + Str(desc, show) + (if metaStr != [] then "  \n  " + metaStr else ""));
  }

  /**
    The error `item.get` raises on the first element a loop visits in a
    non-empty dict. That element is a key, and every JSON key is a `str`,
    so the error does not depend on which key comes first.
   */
  const DictKeyGetError: PyError := AttributeError("str", "get")

  /**
    The action-item section. Bullets already written stay on the page when
    a later item raises, so the result is the blocks emitted and the
    exception, if any.
   */
  method RenderActionItems(value: Json, show: Json -> string) returns (blocks: seq<Block>, raised: Option<PyError>)
    ensures !Truthy(value) ==> blocks == [Notice("No action items detected.")] && raised == None
    ensures value.JObj? && value.fields != map[] ==> blocks == [] && raised == Some(AttributeError("str", "get"))
    ensures Truthy(value) && !value.JObj? && Iterate(value).Err? ==> blocks == [] && raised == Some(Iterate(value).error)
    ensures Truthy(value) && Iterate(value).Ok? ==>
              var items := Iterate(value).value;
              && |blocks| <= |items|
              && (forall k :: 0 <= k < |blocks| ==> items[k].JObj? && blocks[k] == Markdown(ItemLine(items[k].fields, show)))
              && (raised.None? <==> |blocks| == |items|)
              && (raised.Some? ==> !items[|blocks|].JObj? &&
                                   raised == Some(AttributeError(TypeName(items[|blocks|]), "get")))
  {
    if !Truthy(value) {
      return [Notice("No action items detected.")], None;
    }
    if value.JObj? {
      return [], Some(DictKeyGetError);
    }
    var elements := Iterate(value);
    if elements.Err? {
      return [], Some(elements.error);
    }
    var items := elements.value;
    blocks := [];
    var i := 0;
    while i < |items|
      invariant 0 <= i <= |items|
      invariant |blocks| == i
      invariant forall k :: 0 <= k < i ==> items[k].JObj? && blocks[k] == Markdown(ItemLine(items[k].fields, show))
    {
      var line := ActionItemLine(items[i], show);
      if line.Err? {
        return blocks, Some(line.error);
      }
      blocks := blocks + [Markdown(line.value)];
      i := i + 1;
    }
    raised := None;
  }

  // ---------------------------------------------------------------------
  // Export
  // ---------------------------------------------------------------------

  /** `meeting_title or "Untitled meeting"`. */
  function ExportTitle(meetingTitle: string): (title: string)
    ensures title != []
    ensures meetingTitle != [] ==> title == meetingTitle
    ensures meetingTitle == [] ==> title == UntitledMeeting
  {
    if meetingTitle != [] then meetingTitle else UntitledMeeting
  }

  /**
    The download name: the title with every space turned into `_`, then
    `_`, the local date and `.json`.
   */
  function FileName(exportTitle: string, date: string): (name: string)
    ensures |name| == |exportTitle| + |date| + 6
    ensures forall k :: 0 <= k < |exportTitle| ==>
              name[k] != ' ' && name[k] == (if exportTitle[k] == ' ' then '_' else exportTitle[k])
    ensures name[|exportTitle|..] == "_" + date + ".json"
  {
    ReplaceChar(exportTitle, ' ', '_') + "_" + date + ".json"
  }

  /** The keys of the exported document. */
  function ExportKeys(): set<string> {
    {"title", "meeting_type", "created_at", "transcript"} + Analysis.RequiredKeys
  }

  /**
    `export_data`: the title, the meeting type, the UTC timestamp with a
    trailing `Z`, the transcript, and the five analysis fields read with
    the defaults `""` and `[]`.
   */
  function ExportRecord(exportTitle: string, meetingType: Json, createdAt: string, transcript: string,
                        result: map<string, Json>): (r: map<string, Json>)
    ensures r.Keys == ExportKeys()
    ensures r["title"] == JStr(exportTitle) && r["meeting_type"] == meetingType
    ensures r["created_at"] == JStr(createdAt + "Z") && r["transcript"] == JStr(transcript)
    ensures forall k :: k in Analysis.RequiredKeys ==> r[k] == Get(result, k, Analysis.DefaultFor(k))
  {
    map["title" := JStr(exportTitle),
        "meeting_type" := meetingType,
        "created_at" := JStr(createdAt + "Z"),
        "transcript" := JStr(transcript),
        "summary_short" := Get(result, "summary_short", JStr("")),
        "summary_detailed" := Get(result, "summary_detailed", JArr([])),
        "decisions" := Get(result, "decisions", JArr([])),
        "action_items" := Get(result, "action_items", JArr([])),
        "open_questions" := Get(result, "open_questions", JArr([]))]
  }

  /**
    The page reads the five fields with the same defaults the analysis
    fills in, so the export holds the normalised fields whatever record it
    is given, and a normalised record's fields verbatim.
   */
  lemma ExportMatchesNormalized(exportTitle: string, meetingType: Json, createdAt: string, transcript: string,
                                result: map<string, Json>)
    ensures forall k :: k in Analysis.RequiredKeys ==>
              ExportRecord(exportTitle, meetingType, createdAt, transcript, result)[k] == Analysis.Normalized(result)[k]
    ensures Analysis.RequiredKeys <= result.Keys ==>
              forall k :: k in Analysis.RequiredKeys ==>
                ExportRecord(exportTitle, meetingType, createdAt, transcript, result)[k] == result[k]
  {
    Analysis.NormalizedContents(result);
  }

  /** The `- d` lines of the decisions in the copyable summary. */
  function DecisionLines(value: Json, show: Json -> string): (r: Result<seq<string>>)
    ensures r.Ok? <==> Iterate(value).Ok?
    ensures r.Err? ==> r.error == Iterate(value).error
    ensures r.Ok? ==> |r.value| == |Iterate(value).value| &&
                      forall k :: 0 <= k < |r.value| ==> r.value[k] == "- " + Str(Iterate(value).value[k], show)
  {
    match Iterate(value)
    case Err(e) => Err(e)
    case Ok(xs) => Ok(seq(|xs|, k requires 0 <= k < |xs| => "- " + Str(xs[k], show)))
  }

  /** The `- description` lines of the action items; `ai.get` raises on the first item that is not a dict. */
  function DescriptionLines(items: seq<Json>, show: Json -> string): (r: Result<seq<string>>)
    ensures r.Ok? <==> forall k :: 0 <= k < |items| ==> items[k].JObj?
    ensures r.Ok? ==> |r.value| == |items| &&
                      forall k :: 0 <= k < |items| ==>
                        r.value[k] == "- " + Str(Get(items[k].fields, "description", JStr("")), show)
    ensures r.Err? ==> exists i :: 0 <= i < |items| && !items[i].JObj? && (forall k :: 0 <= k < i ==> items[k].JObj?) &&
                                   r.error == AttributeError(TypeName(items[i]), "get")
  {
    if items == [] then Ok([])
    else if !items[0].JObj? then Err(AttributeError(TypeName(items[0]), "get"))
    else match DescriptionLines(items[1..], show)
      case Err(e) =>
        ghost var i :| 0 <= i < |items[1..]| && !items[1..][i].JObj? && (forall k :: 0 <= k < i ==> items[1..][k].JObj?) &&
                       e == AttributeError(TypeName(items[1..][i]), "get");
        assert !items[i + 1].JObj? && forall k :: 0 <= k < i + 1 ==> items[k].JObj?;
        Err(e)
      case Ok(rest) => Ok(["- " + Str(Get(items[0].fields, "description", JStr("")), show)] + rest)
  }

  /** A blank line, then a heading line, then the start of the next line. */
  function Heading(heading: string): string {
    "\n\n" + heading + "\n"
  }

  /** The copyable text, given its parts. */
  function SummaryText(exportTitle: string, shortSummary: string, decisionLines: seq<string>,
                       itemLines: seq<string>): string {
    exportTitle + Heading("Short summary:") +
    (shortSummary + Heading("Decisions:") +
     (Join(decisionLines, "\n") + Heading("Action items:") + Join(itemLines, "\n")))
  }

  /** The copyable text summary built from `export_data`. */
  function CopyableSummary(exportTitle: string, data: map<string, Json>, show: Json -> string): (r: Result<string>)
    requires "summary_short" in data && "decisions" in data && "action_items" in data
    ensures Iterate(data["decisions"]).Err? ==> r == Err(Iterate(data["decisions"]).error)
    ensures Iterate(data["decisions"]).Ok? && data["action_items"].JObj? && data["action_items"].fields != map[] ==>
              r == Err(AttributeError("str", "get"))
    ensures Iterate(data["decisions"]).Ok? && !data["action_items"].JObj? && Iterate(data["action_items"]).Err? ==>
              r == Err(Iterate(data["action_items"]).error)
    ensures Iterate(data["decisions"]).Ok? && Iterate(data["action_items"]).Ok? &&
            DescriptionLines(Iterate(data["action_items"]).value, show).Err? ==>
              r == Err(DescriptionLines(Iterate(data["action_items"]).value, show).error)
    ensures r.Ok? <==> Iterate(data["decisions"]).Ok? && Iterate(data["action_items"]).Ok? &&
                       forall k :: 0 <= k < |Iterate(data["action_items"]).value| ==>
                         Iterate(data["action_items"]).value[k].JObj?
    ensures r.Ok? ==> r.value == SummaryText(exportTitle, Str(data["summary_short"], show),
                                            DecisionLines(data["decisions"], show).value,
                                            DescriptionLines(Iterate(data["action_items"]).value, show).value)
  {
    var shortSummary := Str(data["summary_short"], show);
    match DecisionLines(data["decisions"], show)
    case Err(e) => Err(e)
    case Ok(ds) =>
      match Iterate(data["action_items"])
      case Err(e) => if data["action_items"].JObj? then Err(DictKeyGetError) else Err(e)
      case Ok(items) =>
        match DescriptionLines(items, show)
        case Err(e) => Err(e)
        case Ok(ls) => Ok(SummaryText(exportTitle, shortSummary, ds, ls))
  }

  /**
    Decisions given as a one-key dict: the loop visits the key, so the text
    has one decision line for it, `- a`.
   */
  lemma OneKeyDecisionsSummary(show: Json -> string)
    ensures DecisionLines(JObj(map["a" := JStr("x")]), show) == Ok(["- a"])
    ensures CopyableSummary("T", map["summary_short" := JStr("s"), "decisions" := JObj(map["a" := JStr("x")]),
                                     "action_items" := JArr([])], show)
            == Ok(SummaryText("T", "s", ["- a"], []))
  {
    var decisions := JObj(map["a" := JStr("x")]);
    assert decisions.fields.Keys == {"a"};
    assert Iterate(decisions) == Ok([JStr("a")]);
    var lines := DecisionLines(decisions, show);
    assert lines.Ok? && |lines.value| == 1 && lines.value[0] == "- a";
    assert lines.value == ["- a"];
    var data := map["summary_short" := JStr("s"), "decisions" := decisions, "action_items" := JArr([])];
    assert data["summary_short"] == JStr("s") && data["decisions"] == decisions && data["action_items"] == JArr([]);
    assert DescriptionLines([], show) == Ok([]);
  }

  /** The lines a list of lines contributes once joined and split again: an empty list still leaves one blank line. */
  function LinesOf(xs: seq<string>): seq<string> {
    if xs == [] then [""] else xs
  }

  lemma SplitJoinLines(xs: seq<string>)
    requires forall k :: 0 <= k < |xs| ==> '\n' !in xs[k]
    ensures Split(Join(xs, "\n"), '\n') == LinesOf(xs)
  {
    if xs != [] {
      SplitJoin(xs, '\n');
    }
  }

  /** Splitting across a blank line and a heading line. */
  lemma SplitHeading(p: string, heading: string, q: string)
    requires '\n' !in heading
    ensures Split(p + Heading(heading) + q, '\n') == Split(p, '\n') + ["", heading] + Split(q, '\n')
  {
    var nl := '\n';
    var rest := heading + [nl] + q;
    var mid := [nl] + rest;
    assert p + Heading(heading) + q == p + [nl] + mid;
    SplitAt(p, mid, nl);
    assert mid == [] + [nl] + rest;
    SplitAt([], rest, nl);
    SplitAt(heading, q, nl);
    SplitNoSeparator(heading, nl);
  }

  lemma HeadingsHaveNoBreak()
    ensures '\n' !in "Short summary:" && '\n' !in "Decisions:" && '\n' !in "Action items:"
  {
  }

  /**
    The line structure of the copyable summary: the title, a blank line,
    the short-summary heading and text, a blank line, the decisions heading
    and one line per decision, a blank line, the action-items heading and
    one line per item, in their original order.
   */
  lemma SummaryTextLines(exportTitle: string, shortSummary: string, decisionLines: seq<string>, itemLines: seq<string>)
    requires '\n' !in exportTitle && '\n' !in shortSummary
    requires forall k :: 0 <= k < |decisionLines| ==> '\n' !in decisionLines[k]
    requires forall k :: 0 <= k < |itemLines| ==> '\n' !in itemLines[k]
    ensures Split(SummaryText(exportTitle, shortSummary, decisionLines, itemLines), '\n') ==
            [exportTitle, "", "Short summary:", shortSummary, "", "Decisions:"] + LinesOf(decisionLines) +
            ["", "Action items:"] + LinesOf(itemLines)
  {
    var j1 := Join(decisionLines, "\n");
    var j2 := Join(itemLines, "\n");
    var tailLines := LinesOf(decisionLines) + ["", "Action items:"] + LinesOf(itemLines);
    var tail := j1 + Heading("Action items:") + j2;
    assert Split(tail, '\n') == tailLines by {
      SplitJoinLines(decisionLines);
      SplitJoinLines(itemLines);
      HeadingsHaveNoBreak();
      SplitHeading(j1, "Action items:", j2);
    }
    var middleLines := [shortSummary] + ["", "Decisions:"] + tailLines;
    var middle := shortSummary + Heading("Decisions:") + tail;
    assert Split(middle, '\n') == middleLines by {
      SplitNoSeparator(shortSummary, '\n');
      HeadingsHaveNoBreak();
      SplitHeading(shortSummary, "Decisions:", tail);
    }
    var whole := exportTitle + Heading("Short summary:") + middle;
    assert Split(whole, '\n') == [exportTitle] + ["", "Short summary:"] + middleLines by {
      SplitNoSeparator(exportTitle, '\n');
      HeadingsHaveNoBreak();
      SplitHeading(exportTitle, "Short summary:", middle);
    }
    assert whole == SummaryText(exportTitle, shortSummary, decisionLines, itemLines);
    assert [exportTitle] + ["", "Short summary:"] + middleLines ==
           [exportTitle, "", "Short summary:", shortSummary, "", "Decisions:"] + LinesOf(decisionLines) +
           ["", "Action items:"] + LinesOf(itemLines);
  }
}
