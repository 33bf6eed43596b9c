/** The evaluation-dataset script: building one `conversationTurns` record
    per question and validating a dataset whose lines have been parsed. JSON
    text encoding and file I/O are outside the model: a dataset is the
    sequence of its parsed lines, `None` for a line that is not valid JSON. */
module Dataset {

  import opened Values

  /** One evaluation question; `referenceResponse` is absent for some items. */
  datatype EvalItem = EvalItem(prompt: string, referenceResponse: Option<string>, category: string)

  /** The most turns a record may hold. */
  const MaxTurns := 5

  // ---------------------------------------------------------------------
  // Building records
  // ---------------------------------------------------------------------

  /** `{"text": t}` */
  function TextPart(t: string): Value
  {
    Dict(map["text" := Str(t)])
  }

  /** `{"content": [{"text": t}]}` */
  function ContentOf(t: string): Value
  {
    Dict(map["content" := List([TextPart(t)])])
  }

  /** The conversation turn built for one question; it carries the reference
      response only when asked to and when the item has one. */
  function BuildTurn(item: EvalItem, includeReferences: bool): (t: Value)
    ensures WellFormedTurn(t)
    ensures FirstText(t.fields["prompt"]) == Some(item.prompt)
    ensures "referenceResponses" in t.fields <==> includeReferences && item.referenceResponse.Some?
  {
    if includeReferences && item.referenceResponse.Some? then
      Dict(map[
        "prompt" := ContentOf(item.prompt),
        "referenceResponses" := List([ContentOf(item.referenceResponse.value)])])
    else
      Dict(map["prompt" := ContentOf(item.prompt)])
  }

  /** The record written for one question: a single conversation turn. */
  function BuildRecord(item: EvalItem, includeReferences: bool): (r: Value)
    ensures WellFormedRecord(r)
    ensures PromptOf(r) == Some(item.prompt)
  {
    Dict(map["conversationTurns" := List([BuildTurn(item, includeReferences)])])
  }

  /** `create_bedrock_format_dataset` without the file: one record per
      question, in input order. */
  method CreateDataset(items: seq<EvalItem>, includeReferences: bool) returns (records: seq<Value>)
    ensures |records| == |items|
    ensures forall i :: 0 <= i < |items| ==> records[i] == BuildRecord(items[i], includeReferences)
  {
    records := [];
    for i := 0 to |items|
      invariant |records| == i
      invariant forall k :: 0 <= k < i ==> records[k] == BuildRecord(items[k], includeReferences)
    {
      records := records + [BuildRecord(items[i], includeReferences)];
    }
  }

  /** Reads the prompt text back out of a record: the `text` of the first
      content part of the first turn's prompt. */
  function PromptOf(record: Value): Option<string>
  {
    if record.Dict? && "conversationTurns" in record.fields
      && record.fields["conversationTurns"].List? && |record.fields["conversationTurns"].items| > 0
    then
      var turn := record.fields["conversationTurns"].items[0];
      if turn.Dict? && "prompt" in turn.fields then FirstText(turn.fields["prompt"]) else None
    else None
  }

  /** Reads the reference response back out of a record, if it carries one. */
  function ReferenceOf(record: Value): Option<string>
  {
    if record.Dict? && "conversationTurns" in record.fields
      && record.fields["conversationTurns"].List? && |record.fields["conversationTurns"].items| > 0
    then
      var turn := record.fields["conversationTurns"].items[0];
      if turn.Dict? && "referenceResponses" in turn.fields
        && turn.fields["referenceResponses"].List? && |turn.fields["referenceResponses"].items| > 0
      then FirstText(turn.fields["referenceResponses"].items[0])
      else None
    else None
  }

  /** The string `text` of the first part of a `{"content": [...]}` value. */
  function FirstText(v: Value): Option<string>
  {
    if v.Dict? && "content" in v.fields && v.fields["content"].List? && |v.fields["content"].items| > 0
      && v.fields["content"].items[0].Dict? && "text" in v.fields["content"].items[0].fields
      && v.fields["content"].items[0].fields["text"].Str?
    then Some(v.fields["content"].items[0].fields["text"].s)
    else None
  }

  /** What the builder writes can be read back: the record has exactly one
      turn, its prompt is the item's prompt, and it carries the reference
      response exactly when references are included and the item has one. */
  lemma BuildRecordReadsBack(item: EvalItem, includeReferences: bool)
    ensures |BuildRecord(item, includeReferences).fields["conversationTurns"].items| == 1
    ensures ("referenceResponses" in BuildRecord(item, includeReferences).fields["conversationTurns"].items[0].fields)
      <==> includeReferences && item.referenceResponse.Some?
    ensures PromptOf(BuildRecord(item, includeReferences)) == Some(item.prompt)
    ensures ReferenceOf(BuildRecord(item, includeReferences)) ==
      (if includeReferences then item.referenceResponse else None)
  {
    var turn := BuildTurn(item, includeReferences);
    assert BuildRecord(item, includeReferences).fields["conversationTurns"].items[0] == turn;
    assert FirstText(ContentOf(item.prompt)) == Some(item.prompt);
    if includeReferences && item.referenceResponse.Some? {
      assert FirstText(ContentOf(item.referenceResponse.value)) == item.referenceResponse;
    }
  }

  // ---------------------------------------------------------------------
  // Validation
  // ---------------------------------------------------------------------

  /** Why a line was rejected: one reason per error the script logs, plus a
      Python TypeError (a key test or a lookup on a value of the wrong type)
      that the script's outer handler turns into a rejection. */
  datatype Reason =
    | InvalidJson
    | MissingTurns | TurnsNotArray | TurnsEmpty | TooManyTurns
    | MissingPrompt | MissingPromptContent | PromptContentNotArray | PromptContentEmpty | MissingPromptText
    | ReferencesNotArray | MissingReferenceContent | ReferenceContentNotArray | MissingReferenceText
    | TypeErrorRaised

  datatype Verdict = Accepted | Rejected(reason: Reason)

  /** The reference-response checks of one turn: only the first element of
      `referenceResponses` is examined, and an empty list passes. */
  function CheckReferences(turn: map<string, Value>): (v: Verdict)
    ensures v.Rejected? ==>
      v.reason in {ReferencesNotArray, MissingReferenceContent, ReferenceContentNotArray, MissingReferenceText, TypeErrorRaised}
    ensures v == Accepted <==>
      ("referenceResponses" in turn ==>
         && turn["referenceResponses"].List?
         && (|turn["referenceResponses"].items| > 0 ==> WellFormedReference(turn["referenceResponses"].items[0])))
  {
    if "referenceResponses" !in turn then Accepted
    else
      var refs := turn["referenceResponses"];
      if !refs.List? then Rejected(ReferencesNotArray)
      else if |refs.items| == 0 then Accepted
      else
        var first := refs.items[0];
        match PyIn("content", first)
        case None => Rejected(TypeErrorRaised)
        case Some(false) => Rejected(MissingReferenceContent)
        case Some(true) =>
          if !first.Dict? then Rejected(TypeErrorRaised)
          else
            var content := first.fields["content"];
            if !content.List? then Rejected(ReferenceContentNotArray)
            else if |content.items| == 0 then Accepted
            else
              match PyIn("text", content.items[0])
              case None => Rejected(TypeErrorRaised)
              case Some(false) => Rejected(MissingReferenceText)
              case Some(true) => Accepted
  }

  /** The checks of one turn, in the script's order. */
  function CheckTurn(turn: Value): (v: Verdict)
    ensures v.Rejected? ==> v.reason !in {InvalidJson, MissingTurns, TurnsNotArray, TurnsEmpty, TooManyTurns}
    ensures turn.Dict? && "prompt" !in turn.fields ==> v == Rejected(MissingPrompt)
    ensures !(turn.Dict? || turn.List? || turn.Str?) ==> v == Rejected(TypeErrorRaised)
  {
    match PyIn("prompt", turn)
    case None => Rejected(TypeErrorRaised)
    case Some(false) => Rejected(MissingPrompt)
    case Some(true) =>
      if !turn.Dict? then Rejected(TypeErrorRaised)
      else
        var prompt := turn.fields["prompt"];
        match PyIn("content", prompt)
        case None => Rejected(TypeErrorRaised)
        case Some(false) => Rejected(MissingPromptContent)
        case Some(true) =>
          if !prompt.Dict? then Rejected(TypeErrorRaised)
          else
            var content := prompt.fields["content"];
            if !content.List? then Rejected(PromptContentNotArray)
            else if |content.items| == 0 then Rejected(PromptContentEmpty)
            else
              match PyIn("text", content.items[0])
              case None => Rejected(TypeErrorRaised)
              case Some(false) => Rejected(MissingPromptText)
              case Some(true) => CheckReferences(turn.fields)
  }

  /** The turns are checked in order; the first failing turn decides. */
  function CheckTurns(turns: seq<Value>): (v: Verdict)
    ensures v.Rejected? ==>
      exists k :: 0 <= k < |turns| && CheckTurn(turns[k]) == v && (forall j :: 0 <= j < k ==> CheckTurn(turns[j]) == Accepted)
  {
    if |turns| == 0 then Accepted
    else if CheckTurn(turns[0]).Rejected? then CheckTurn(turns[0])
    else CheckTurns(turns[1..])
  }

  /** The checks of one parsed record. */
  function CheckRecord(record: Value): (v: Verdict)
    ensures v != Rejected(InvalidJson)
    ensures v == Rejected(TurnsNotArray) <==>
      record.Dict? && "conversationTurns" in record.fields && !record.fields["conversationTurns"].List?
    ensures v == Rejected(TurnsEmpty) <==>
      record.Dict? && Has(record.fields, "conversationTurns", List([]))
    ensures v == Rejected(TooManyTurns) <==>
      && record.Dict? && "conversationTurns" in record.fields && record.fields["conversationTurns"].List?
      && |record.fields["conversationTurns"].items| > MaxTurns
  {
    match PyIn("conversationTurns", record)
    case None => Rejected(TypeErrorRaised)
    case Some(false) => Rejected(MissingTurns)
    case Some(true) =>
      if !record.Dict? then Rejected(TypeErrorRaised)
      else
        var turns := record.fields["conversationTurns"];
        if !turns.List? then Rejected(TurnsNotArray)
        else if |turns.items| == 0 then Rejected(TurnsEmpty)
        else if |turns.items| > MaxTurns then Rejected(TooManyTurns)
        else CheckTurns(turns.items)
  }

  function CheckLine(line: Option<Value>): Verdict
  {
    if line.None? then Rejected(InvalidJson) else CheckRecord(line.value)
  }

  /** `validate_dataset` on the parsed lines: it stops at the first bad line
      and answers false; `lineNum` is the script's line counter, the number
      of the line it stopped at, or the number of records when all pass. */
  method ValidateDataset(lines: seq<Option<Value>>) returns (valid: bool, lineNum: nat)
    ensures valid <==> forall i :: 0 <= i < |lines| ==> CheckLine(lines[i]) == Accepted
    ensures valid ==> lineNum == |lines|
    ensures !valid ==> 1 <= lineNum <= |lines| && CheckLine(lines[lineNum - 1]).Rejected?
    ensures !valid ==> forall i :: 0 <= i < lineNum - 1 ==> CheckLine(lines[i]) == Accepted
  {
    lineNum := 0;
    while lineNum < |lines|
      invariant 0 <= lineNum <= |lines|
      invariant forall i :: 0 <= i < lineNum ==> CheckLine(lines[i]) == Accepted
    {
      lineNum := lineNum + 1;
      if CheckLine(lines[lineNum - 1]).Rejected? {
        return false, lineNum;
      }
    }
    return true, lineNum;
  }

  // ---------------------------------------------------------------------
  // What validation accepts, stated declaratively
  // ---------------------------------------------------------------------

  /** Python's `"text" in v` holds (on a dict: a key; on a list: an element;
      on a string: a substring). */
  predicate MentionsText(v: Value)
  {
    PyIn("text", v) == Some(true)
  }

  /** A `{"content": [...]}` dict whose list is empty or starts with a part mentioning text. */
  predicate WellFormedReference(r: Value)
  {
    && r.Dict? && "content" in r.fields && r.fields["content"].List?
    && (|r.fields["content"].items| > 0 ==> MentionsText(r.fields["content"].items[0]))
  }

  /** A turn: a prompt dict whose content is a non-empty list starting with a
      part mentioning text, and optionally a list of reference responses whose
      first element, if any, is well formed. */
  predicate WellFormedTurn(t: Value)
  {
    && t.Dict? && "prompt" in t.fields
    && t.fields["prompt"].Dict? && "content" in t.fields["prompt"].fields
    && t.fields["prompt"].fields["content"].List?
    && |t.fields["prompt"].fields["content"].items| > 0
    && MentionsText(t.fields["prompt"].fields["content"].items[0])
    && ("referenceResponses" in t.fields ==>
          && t.fields["referenceResponses"].List?
          && (|t.fields["referenceResponses"].items| > 0 ==>
                WellFormedReference(t.fields["referenceResponses"].items[0])))
  }

  /** A record: a dict holding between one and `MaxTurns` well-formed turns. */
  predicate WellFormedRecord(v: Value)
  {
    && v.Dict? && "conversationTurns" in v.fields && v.fields["conversationTurns"].List?
    && 1 <= |v.fields["conversationTurns"].items| <= MaxTurns
    && forall k :: 0 <= k < |v.fields["conversationTurns"].items| ==>
         WellFormedTurn(v.fields["conversationTurns"].items[k])
  }

  lemma CheckTurnMeansWellFormed(t: Value)
    ensures CheckTurn(t) == Accepted <==> WellFormedTurn(t)
  {
  }

  lemma {:induction false} CheckTurnsMeansAllWellFormed(turns: seq<Value>)
    ensures CheckTurns(turns) == Accepted <==> forall k :: 0 <= k < |turns| ==> WellFormedTurn(turns[k])
    decreases |turns|
  {
    if |turns| > 0 {
      CheckTurnMeansWellFormed(turns[0]);
      CheckTurnsMeansAllWellFormed(turns[1..]);
      assert forall k :: 1 <= k < |turns| ==> turns[k] == turns[1..][k - 1];
    }
  }

  /** The validator accepts exactly the well-formed records. */
  lemma CheckRecordMeansWellFormed(v: Value)
    ensures CheckRecord(v) == Accepted <==> WellFormedRecord(v)
  {
    if v.Dict? && "conversationTurns" in v.fields && v.fields["conversationTurns"].List? {
      CheckTurnsMeansAllWellFormed(v.fields["conversationTurns"].items);
    }
  }

  /** Round trip: every record the builder produces passes validation. */
  lemma BuiltRecordValidates(item: EvalItem, includeReferences: bool)
    ensures CheckRecord(BuildRecord(item, includeReferences)) == Accepted
  {
    var turn := BuildTurn(item, includeReferences);
    assert WellFormedTurn(turn);
    CheckRecordMeansWellFormed(BuildRecord(item, includeReferences));
  }

  /** Only the first reference response is examined: whatever follows it
      leaves a turn's verdict unchanged. */
  lemma LaterReferencesIgnored(turn: map<string, Value>, first: Value, rest: seq<Value>, other: seq<Value>)
    requires Has(turn, "referenceResponses", List([first] + rest))
    ensures CheckTurn(Dict(turn)) == CheckTurn(Dict(turn["referenceResponses" := List([first] + other)]))
  {
  }

  /** An empty reference list is accepted like an absent one. */
  lemma EmptyReferencesAccepted(turn: map<string, Value>)
    ensures CheckTurn(Dict(turn["referenceResponses" := List([])])) == CheckTurn(Dict(turn - {"referenceResponses"}))
  {
  }

  /** A record with no turns or with more than `MaxTurns` turns is rejected. */
  lemma TurnCountOutOfRangeRejected(fields: map<string, Value>, turns: seq<Value>)
    requires Has(fields, "conversationTurns", List(turns))
    requires |turns| == 0 || |turns| > MaxTurns
    ensures CheckRecord(Dict(fields)).Rejected?
  {
  }

  // ---------------------------------------------------------------------
  // The question table
  // ---------------------------------------------------------------------

  const EvaluationQuestions: seq<EvalItem> := [
    EvalItem("How many points does the driver finishing in 1st place receive?",
      Some("The driver finishing in 1st place receives 25 championship points in a standard Formula 1 race."),
      "points_system"),
    EvalItem("What are the points awarded for positions 1st through 10th?",
      Some("Points are awarded as follows: 1st place - 25 points, 2nd - 18, 3rd - 15, 4th - 12, 5th - 10, 6th - 8, 7th - 6, 8th - 4, 9th - 2, 10th - 1 point."),
      "points_system"),
    EvalItem("Does the fastest lap earn any points?",
      Some("The fastest lap in a Formula 1 race does not earn any points. The points are awarded based on the final race classification."),
      "points_system"),
    EvalItem("What are the main components of an F1 power unit?",
      Some("An F1 power unit consists of: 1) Internal Combustion Engine (ICE) - 1.6L V6 turbo, 2) MGU-K (Motor Generator Unit - Kinetic), 3) MGU-H (Motor Generator Unit - Heat), 4) Turbocharger, 5) Energy Store (battery), 6) Control Electronics."),
      "technical_regulations"),
    EvalItem("What is parc fermé and when does it apply?",
      Some("Parc fermé is a period where cars are in a restricted area and limited work can be performed. It begins when cars exit the pit lane for qualifying and continues until the start of the race. During this time, only specific permitted work is allowed."),
      "sporting_regulations"),
    EvalItem("Can teams make setup changes after qualifying?",
      Some("No, after qualifying, cars enter parc fermé conditions where setup changes are prohibited. Only specific repairs and adjustments (like front wing angle) are permitted. Any significant changes require starting from the pit lane."),
      "sporting_regulations"),
    EvalItem("What is the minimum time for a pit stop?",
      Some("There is no minimum pit stop time mandated by regulations. However, practical pit stops typically take 2-3 seconds for a tyre change. Teams must ensure safe releases without endangering other competitors or personnel."),
      "sporting_regulations"),
    EvalItem("How many mechanics can work on a car during a pit stop?",
      Some("The regulations do not specify a limit on the number of mechanics that can work on a Formula 1 car during a pit stop."),
      "sporting_regulations"),
    EvalItem("What is the pit lane speed limit during the whole Competition unless changed by the Race Director?",
      Some("The pit lane speed limit during the whole Competition is typically 80 km/h, unless changed by the Race Director."),
      "sporting_regulations"),
    EvalItem("How many free practice sessions are held when a sprint session is not scheduled?",
      Some("When a sprint session is not scheduled, there are typically three free practice sessions held during a race weekend."),
      "sporting_regulations"),
    EvalItem("How many drivers may each Competitor use in races during a Championship?",
      Some("Each Formula 1 team can enter two cars in the championship. The drivers for those two cars must be named in the team's application to compete in the championship."),
      "sporting_regulations"),
    EvalItem("Which components are not considered to be bodywork?",
      Some("Cameras and housings, rear view mirrors, the ERS status light, mechanical parts of the power train or steering system, wheel rims and tyres, and brake disc assemblies, calipers, and pads."),
      "sporting_regulations")
  ]

  /** The script's two datasets, built from the same questions with and
      without reference responses: both validate, and the full one carries
      a reference response exactly where the question has one. */
  method BuildEvaluationDatasets(questions: seq<EvalItem>) returns (full: seq<Value>, promptsOnly: seq<Value>)
    ensures |full| == |promptsOnly| == |questions|
    ensures forall i :: 0 <= i < |questions| ==>
      CheckRecord(full[i]) == Accepted && CheckRecord(promptsOnly[i]) == Accepted
    ensures forall i :: 0 <= i < |questions| ==>
      ReferenceOf(full[i]) == questions[i].referenceResponse && ReferenceOf(promptsOnly[i]).None?
  {
    full := CreateDataset(questions, true);
    promptsOnly := CreateDataset(questions, false);
    forall i | 0 <= i < |questions|
      ensures CheckRecord(full[i]) == Accepted && CheckRecord(promptsOnly[i]) == Accepted
      ensures ReferenceOf(full[i]) == questions[i].referenceResponse && ReferenceOf(promptsOnly[i]).None?
    {
      BuiltRecordValidates(questions[i], true);
      BuiltRecordValidates(questions[i], false);
      BuildRecordReadsBack(questions[i], true);
      BuildRecordReadsBack(questions[i], false);
    }
  }
}
