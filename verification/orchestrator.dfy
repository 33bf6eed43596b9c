/** The F1 query orchestrator: a keyword intent classifier, a four-node
    state graph (classify, circuit tool, regulations tool, synthesis) and the
    result record handed to the UI. The two tools are abstract: for a query
    each either returns a Python value or raises. */
module Orchestrator {

  import opened Values
  import opened Text
  import Circuits
  import Regulations

  // ---------------------------------------------------------------------
  // Intent classification
  // ---------------------------------------------------------------------

  datatype Intent = CircuitOnly | RegulationsOnly | Both | Unknown

  function IntentName(intent: Intent): string
  {
    match intent
    case CircuitOnly => "circuit"
    case RegulationsOnly => "regulations"
    case Both => "both"
    case Unknown => "unknown"
  }

  const CircuitKeywords: seq<string> := ["circuit", "track", "map", "layout", "show"]

  const RegulationsKeywords: seq<string> := [
    "rule", "regulation", "penalty", "point", "what", "how",
    "explain", "when", "article", "drs", "safety"
  ]

  /** The catalog entries as the classifier looks for them in a query. */
  function LocationNames(): (names: seq<string>)
    ensures |names| == |Circuits.CircuitLocations|
    ensures forall i :: 0 <= i < |names| ==> names[i] == Circuits.DisplayName(Circuits.CircuitLocations[i])
  {
    seq(|Circuits.CircuitLocations|, i requires 0 <= i < |Circuits.CircuitLocations| =>
      Circuits.DisplayName(Circuits.CircuitLocations[i]))
  }

  /** `any(w in text for w in words)`. */
  predicate MentionsAny(text: string, words: seq<string>)
  {
    exists k | 0 <= k < |words| :: Contains(text, words[k])
  }

  /** The lower-cased query names a circuit keyword or a catalog entry. */
  predicate HasCircuitCue(q: string)
  {
    MentionsAny(q, CircuitKeywords) || MentionsAny(q, LocationNames())
  }

  /** The lower-cased query names a regulations keyword. */
  predicate HasRegulationsCue(q: string)
  {
    MentionsAny(q, RegulationsKeywords)
  }

  /** The intents whose route passes through the circuit tool. */
  predicate RunsCircuit(intent: Intent)
  {
    intent == CircuitOnly || intent == Both
  }

  /** The intents whose route passes through the regulations tool. */
  predicate RunsRegulations(intent: Intent)
  {
    intent == RegulationsOnly || intent == Both
  }

  /** `classify_intent`: substring matching on the lower-cased query. The
      circuit tool is wanted exactly when a circuit cue is present; the
      regulations tool when a regulations cue is present or, by default, when
      no circuit cue is. */
  function ClassifyIntent(query: string): (intent: Intent)
    ensures intent != Unknown
    ensures RunsCircuit(intent) <==> HasCircuitCue(Lower(query))
    ensures RunsRegulations(intent) <==> HasRegulationsCue(Lower(query)) || !HasCircuitCue(Lower(query))
  {
    var q := Lower(query);
    if HasCircuitCue(q) then
      (if HasRegulationsCue(q) then Both else CircuitOnly)
    else if HasRegulationsCue(q) then
      RegulationsOnly
    else
      RegulationsOnly
  }

  /** Classification ignores case: a query and its lower-cased form get the same intent. */
  lemma ClassifyIgnoresCase(query: string)
    ensures ClassifyIntent(Lower(query)) == ClassifyIntent(query)
  {
    LowerIdempotent(query);
  }

  /** Every query that says "show" is classified `Both`: "show" is a circuit
      keyword and holds the regulations keyword "how". */
  lemma ShowMeansBoth(query: string)
    requires Contains(Lower(query), "show")
    ensures ClassifyIntent(query) == Both
  {
    var q := Lower(query);
    assert OccursAt("show", "how", 1);
    ContainsTransitive(q, "show", "how");
    assert Contains(q, CircuitKeywords[4]);
    assert Contains(q, RegulationsKeywords[5]);
  }

  /** The sidebar's example "Show me the Monaco circuit" is classified
      `Both`, not the circuit-only intent a script of the repository expects. */
  lemma MonacoExampleIsBoth()
    ensures ClassifyIntent("Show me the Monaco circuit") == Both
  {
    var q := "Show me the Monaco circuit";
    assert Lower(q)[0..4] == "show";
    assert OccursAt(Lower(q), "show", 0);
    ShowMeansBoth(q);
  }

  /** Keyword cues survive embedding: a query that contains another needs the
      circuit tool whenever the other does, and `Both` stays `Both`. The
      regulations tool is not kept: "x" falls back to it for want of any
      cue, while "x track" has a circuit cue and no regulations cue. */
  lemma EmbeddingKeepsCues(query: string, longer: string)
    requires Contains(longer, query)
    ensures RunsCircuit(ClassifyIntent(query)) ==> RunsCircuit(ClassifyIntent(longer))
    ensures ClassifyIntent(query) == Both ==> ClassifyIntent(longer) == Both
  {
    var i :| 0 <= i <= |longer| - |query| && OccursAt(longer, query, i);
    LowerSlice(longer, i, i + |query|);
    assert OccursAt(Lower(longer), Lower(query), i);
    var q, l := Lower(query), Lower(longer);
    forall words: seq<string> | MentionsAny(q, words)
      ensures MentionsAny(l, words)
    {
      var k :| 0 <= k < |words| && Contains(q, words[k]);
      ContainsTransitive(l, q, words[k]);
    }
  }

  // ---------------------------------------------------------------------
  // The state graph
  // ---------------------------------------------------------------------

  datatype Node = ClassifyNode | CircuitNode | RegulationsNode | SynthesizeNode | End

  /** The conditional edges out of classification, keyed by the intent: the
      first tool the intent needs, or synthesis when it needs none. */
  function RouteQuery(intent: Intent): (n: Node)
    ensures n == CircuitNode <==> RunsCircuit(intent)
    ensures n == RegulationsNode <==> RunsRegulations(intent) && !RunsCircuit(intent)
    ensures n == SynthesizeNode <==> !RunsCircuit(intent) && !RunsRegulations(intent)
  {
    match intent
    case CircuitOnly => CircuitNode
    case RegulationsOnly => RegulationsNode
    case Both => CircuitNode
    case Unknown => SynthesizeNode
  }

  /** The conditional edges out of the circuit tool. */
  function AfterCircuit(intent: Intent): Node
  {
    if intent == Both then RegulationsNode else SynthesizeNode
  }

  /** Distance to the end of the graph along its longest path. */
  function Rank(n: Node): nat
  {
    match n
    case ClassifyNode => 4
    case CircuitNode => 3
    case RegulationsNode => 2
    case SynthesizeNode => 1
    case End => 0
  }

  /** One transition of the graph. Every edge descends in rank, so the graph
      is acyclic and every run ends. */
  function Next(n: Node, intent: Intent): (m: Node)
    ensures n != End ==> Rank(m) < Rank(n)
    ensures m == End <==> n == SynthesizeNode || n == End
  {
    match n
    case ClassifyNode => RouteQuery(intent)
    case CircuitNode => AfterCircuit(intent)
    case RegulationsNode => SynthesizeNode
    case SynthesizeNode => End
    case End => End
  }

  /** The nodes a run visits from `n` on, for a fixed intent: a path along
      `Next` that ends at synthesis. */
  function Walk(n: Node, intent: Intent): (path: seq<Node>)
    ensures n != End ==> |path| > 0 && path[0] == n && path[|path| - 1] == SynthesizeNode
    ensures forall k :: 0 <= k < |path| ==> path[k] != End
    ensures forall k :: 0 <= k < |path| - 1 ==> path[k + 1] == Next(path[k], intent)
    ensures forall k :: 0 <= k < |path| - 1 ==> path[k] != SynthesizeNode
    decreases Rank(n)
  {
    if n == End then [] else [n] + Walk(Next(n, intent), intent)
  }

  /** The route of a classified query through the graph: it starts at
      classification and ends at synthesis, which it visits exactly once. */
  function Trace(intent: Intent): (t: seq<Node>)
    ensures |t| > 0 && t[0] == ClassifyNode && t[|t| - 1] == SynthesizeNode
    ensures forall k :: 0 <= k < |t| - 1 ==> t[k] != SynthesizeNode
  {
    Walk(ClassifyNode, intent)
  }

  /** The routing promise of the graph: the circuit tool runs iff the intent is
      circuit or both, the regulations tool iff it is regulations or both, and
      for both the circuit tool runs first. */
  lemma {:induction false} TraceRouting(intent: Intent)
    ensures CircuitNode in Trace(intent) <==> RunsCircuit(intent)
    ensures RegulationsNode in Trace(intent) <==> RunsRegulations(intent)
    ensures intent == Both ==> Trace(intent) == [ClassifyNode, CircuitNode, RegulationsNode, SynthesizeNode]
  {
    var t := Trace(intent);
    assert Walk(End, intent) == [];
    assert Walk(SynthesizeNode, intent) == [SynthesizeNode];
    match intent
    case CircuitOnly =>
      assert Walk(CircuitNode, intent) == [CircuitNode, SynthesizeNode];
      assert t == [ClassifyNode, CircuitNode, SynthesizeNode];
    case RegulationsOnly =>
      assert Walk(RegulationsNode, intent) == [RegulationsNode, SynthesizeNode];
      assert t == [ClassifyNode, RegulationsNode, SynthesizeNode];
    case Both =>
      assert Walk(RegulationsNode, intent) == [RegulationsNode, SynthesizeNode];
      assert Walk(CircuitNode, intent) == [CircuitNode, RegulationsNode, SynthesizeNode];
      assert t == [ClassifyNode, CircuitNode, RegulationsNode, SynthesizeNode];
    case Unknown =>
      assert t == [ClassifyNode, SynthesizeNode];
  }

  /** The unknown edge is dead: no query is routed along it. */
  lemma UnknownEdgeUnreachable(query: string)
    ensures RouteQuery(ClassifyIntent(query)) != SynthesizeNode
  {
  }

  // ---------------------------------------------------------------------
  // Tool execution
  // ---------------------------------------------------------------------

  /** What a tool does for a query: return a Python value, or raise an
      exception whose `str` is `message`. */
  datatype Call = Returns(result: Value) | Raises(message: string)

  /** The two tools, as functions of the query they are given. */
  datatype Tools = Tools(circuitImage: string -> Call, queryRegulations: string -> Call)

  /** The record an executor stores when the tool call fails. */
  function ErrorRecord(message: string): map<string, Value>
  {
    map["type" := Str("error"), "content" := Str(message), "metadata" := Dict(map["error" := Str(message)])]
  }

  /** The executors log `result.get('metadata', {}).get('status')` right
      after the call; on a result that is not a dict, or whose metadata is
      not one, that expression raises AttributeError, whose text is given here. */
  function StatusProbeError(result: Value): Option<string>
  {
    match result
    case Dict(f) =>
      var md := GetOr(f, "metadata", EmptyDict);
      if md.Dict? then None else Some(AttributeErrorText(md, "get"))
    case _ => Some(AttributeErrorText(result, "get"))
  }

  /** `execute_circuit` and `execute_regulations` (identical apart from the
      tool): the tool's own dict when the call and the status probe succeed,
      otherwise an error record carrying the exception's text. Never raises. */
  function ExecuteTool(call: Call): (r: map<string, Value>)
    ensures call.Raises? ==> r == ErrorRecord(call.message)
    ensures call.Returns? && StatusProbeError(call.result).None? ==> r == call.result.fields
    ensures call.Returns? && StatusProbeError(call.result).Some? ==> r == ErrorRecord(StatusProbeError(call.result).value)
    ensures (call.Returns? && call.result.Dict? && r == call.result.fields) || r["type"] == Str("error")
  {
    match call
    case Raises(m) => ErrorRecord(m)
    case Returns(v) =>
      match StatusProbeError(v)
      case Some(m) => ErrorRecord(m)
      case None => v.fields
  }

  // ---------------------------------------------------------------------
  // Synthesis
  // ---------------------------------------------------------------------

  const NoCircuitText := "Could not retrieve circuit."
  const NoAnswerText := "No response generated."
  const CombinedMessage := "Here's the information you requested:"
  const HelpText := "I can help with F1 circuit maps or regulations questions."
  const ErrorPrefix := "Error processing query: "

  /** The final response. An image response's message is "Circuit map: "
      followed by the location, which is kept as the value itself; a combined
      response carries `CombinedMessage`; the help response is a text
      response whose content is `HelpText`. */
  datatype Response =
    | ImageResponse(path: Value, location: Value, metadata: Value)
    | TextResponse(content: Value, metadata: Value)
    | CombinedResponse(circuit: map<string, Value>, regulations: map<string, Value>, message: string)
    | HelpResponse(helpContent: string)
    | ErrorResponse(errorText: string)

  /** `result.get("type") == "image"`. */
  predicate IsImage(result: map<string, Value>)
  {
    GetOr(result, "type", Null) == Str("image")
  }

  /** An image result holds everything the image response reads from it. */
  predicate CompleteImage(result: map<string, Value>)
  {
    && "content" in result && "metadata" in result
    && result["metadata"].Dict? && "location" in result["metadata"].fields
  }

  /** `synthesize_response`. A circuit image result becomes an image response
      with the same path; any other circuit result becomes text, defaulting to
      `NoCircuitText`; regulations become text defaulting to `NoAnswerText`;
      both become a combined response holding both records. Only an image
      result that lacks a field the image response reads makes it raise. */
  function Synthesize(intent: Intent, circuit: map<string, Value>, regulations: map<string, Value>): (r: Outcome<Response>)
    ensures r.Raised? <==> intent == CircuitOnly && IsImage(circuit) && !CompleteImage(circuit)
    ensures r.Ok? && intent == CircuitOnly && IsImage(circuit) ==>
      r.value == ImageResponse(circuit["content"], circuit["metadata"].fields["location"], circuit["metadata"])
    ensures intent == CircuitOnly && !IsImage(circuit) ==>
      r == Ok(TextResponse(GetOr(circuit, "content", Str(NoCircuitText)), GetOr(circuit, "metadata", EmptyDict)))
    ensures intent == RegulationsOnly ==>
      r == Ok(TextResponse(GetOr(regulations, "content", Str(NoAnswerText)), GetOr(regulations, "metadata", EmptyDict)))
    ensures intent == Both ==> r == Ok(CombinedResponse(circuit, regulations, CombinedMessage))
    ensures intent == Unknown ==> r == Ok(HelpResponse(HelpText))
  {
    match intent
    case CircuitOnly =>
      if IsImage(circuit) then
        if "content" !in circuit then Raised(KeyErrorText("content"))
        else if "metadata" !in circuit then Raised(KeyErrorText("metadata"))
        else
          var md := circuit["metadata"];
          if !md.Dict? then Raised(SubscriptErrorText(md))
          else if "location" !in md.fields then Raised(KeyErrorText("location"))
          else Ok(ImageResponse(circuit["content"], md.fields["location"], md))
      else
        Ok(TextResponse(GetOr(circuit, "content", Str(NoCircuitText)), GetOr(circuit, "metadata", EmptyDict)))
    case RegulationsOnly =>
      Ok(TextResponse(GetOr(regulations, "content", Str(NoAnswerText)), GetOr(regulations, "metadata", EmptyDict)))
    case Both =>
      Ok(CombinedResponse(circuit, regulations, CombinedMessage))
    case Unknown =>
      Ok(HelpResponse(HelpText))
  }

  // ---------------------------------------------------------------------
  // Running the graph
  // ---------------------------------------------------------------------

  /** The graph's state. `intent` is `None` before classification (the empty
      string in the source), which no edge consults. */
  datatype AgentState = AgentState(
    query: string,
    intent: Option<Intent>,
    circuitResult: map<string, Value>,
    regulationsResult: map<string, Value>,
    finalResponse: Option<Response>)

  function InitialState(query: string): AgentState
  {
    AgentState(query, None, map[], map[], None)
  }

  /** The intent the routing and synthesis read; an unset intent falls into
      synthesis's catch-all branch, as `Unknown` does. */
  function CurrentIntent(st: AgentState): Intent
  {
    if st.intent.Some? then st.intent.value else Unknown
  }

  /** What one node does to the state. Only synthesis can raise, and each
      node writes its own field of the state and leaves the rest alone. */
  function Step(n: Node, st: AgentState, tools: Tools): (r: Outcome<AgentState>)
    ensures r.Raised? ==> n == SynthesizeNode
    ensures r.Ok? ==> r.value.query == st.query
    ensures r.Ok? && n != ClassifyNode ==> r.value.intent == st.intent
    ensures r.Ok? && n != CircuitNode ==> r.value.circuitResult == st.circuitResult
    ensures r.Ok? && n != RegulationsNode ==> r.value.regulationsResult == st.regulationsResult
    ensures r.Ok? && n != SynthesizeNode ==> r.value.finalResponse == st.finalResponse
    ensures r.Ok? && n == SynthesizeNode ==> r.value.finalResponse.Some?
    ensures n == SynthesizeNode ==>
      (r.Raised? <==> Synthesize(CurrentIntent(st), st.circuitResult, st.regulationsResult).Raised?)
  {
    match n
    case ClassifyNode => Ok(st.(intent := Some(ClassifyIntent(st.query))))
    case CircuitNode => Ok(st.(circuitResult := ExecuteTool(tools.circuitImage(st.query))))
    case RegulationsNode => Ok(st.(regulationsResult := ExecuteTool(tools.queryRegulations(st.query))))
    case SynthesizeNode =>
      (match Synthesize(CurrentIntent(st), st.circuitResult, st.regulationsResult)
       case Ok(resp) => Ok(st.(finalResponse := Some(resp)))
       case Raised(m) => Raised(m))
    case End => Ok(st)
  }

  /** Runs the graph from node `n` until it ends or a node raises. A run that
      reaches the end has passed synthesis, so it holds a final response, and
      the query and (after classification) the intent never change. */
  function Run(n: Node, st: AgentState, tools: Tools): (r: Outcome<AgentState>)
    ensures r.Ok? ==> r.value.query == st.query
    ensures r.Ok? && n != End ==> r.value.finalResponse.Some?
    ensures r.Ok? && n != ClassifyNode ==> r.value.intent == st.intent
    ensures r.Ok? && n == ClassifyNode ==> r.value.intent == Some(ClassifyIntent(st.query))
    decreases Rank(n)
  {
    if n == End then Ok(st)
    else
      match Step(n, st, tools)
      case Raised(m) => Raised(m)
      case Ok(st') => Run(Next(n, CurrentIntent(st')), st', tools)
  }

  /** The result `process_query` hands to the caller. `error` is the text of
      the exception that stopped the graph, if one did. */
  datatype QueryResult = QueryResult(
    query: string,
    intent: string,
    response: Response,
    circuitExecuted: bool,
    regulationsExecuted: bool,
    error: Option<string>)

  /** `process_query`: runs the graph on a fresh state. Never raises: an
      exception inside the graph becomes intent "error" with both executed
      flags false; otherwise each flag says whether that tool's result is a
      non-empty dict. */
  function ProcessQuery(query: string, tools: Tools): (r: QueryResult)
    ensures r.query == query
    ensures r.error.Some? <==> r.intent == "error"
    ensures r.error.Some? ==>
      !r.circuitExecuted && !r.regulationsExecuted && r.response == ErrorResponse(ErrorPrefix + r.error.value)
    ensures r.error.None? ==> r.intent == IntentName(ClassifyIntent(query))
  {
    match Run(ClassifyNode, InitialState(query), tools)
    case Raised(m) =>
      QueryResult(query, "error", ErrorResponse(ErrorPrefix + m), false, false, Some(m))
    case Ok(fs) =>
      QueryResult(query, IntentName(CurrentIntent(fs)), fs.finalResponse.value,
                  |fs.circuitResult| > 0, |fs.regulationsResult| > 0, None)
  }

  /** The tool results a query leaves behind: each tool's executor output if
      its node lies on the route, the initial empty dict otherwise. */
  function CircuitRecord(query: string, tools: Tools): map<string, Value>
  {
    if RunsCircuit(ClassifyIntent(query)) then ExecuteTool(tools.circuitImage(query)) else map[]
  }

  function RegulationsRecord(query: string, tools: Tools): map<string, Value>
  {
    if RunsRegulations(ClassifyIntent(query)) then ExecuteTool(tools.queryRegulations(query)) else map[]
  }

  /** Running the graph is the straight-line pipeline classify, run the routed
      tools, synthesise: the graph adds no behaviour of its own. */
  lemma {:induction false} RunIsPipeline(query: string, tools: Tools)
    ensures Run(ClassifyNode, InitialState(query), tools) ==
      (match Synthesize(ClassifyIntent(query), CircuitRecord(query, tools), RegulationsRecord(query, tools))
       case Raised(m) => Raised(m)
       case Ok(resp) => Ok(AgentState(query, Some(ClassifyIntent(query)),
                                      CircuitRecord(query, tools), RegulationsRecord(query, tools), Some(resp))))
  {
    var intent := ClassifyIntent(query);
    var s1 := InitialState(query).(intent := Some(intent));
    assert Step(ClassifyNode, InitialState(query), tools) == Ok(s1);
    match intent
    case CircuitOnly =>
      var s2 := s1.(circuitResult := ExecuteTool(tools.circuitImage(query)));
      assert Run(ClassifyNode, InitialState(query), tools) == Run(CircuitNode, s1, tools);
      assert Run(CircuitNode, s1, tools) == Run(SynthesizeNode, s2, tools);
    case RegulationsOnly =>
      var s2 := s1.(regulationsResult := ExecuteTool(tools.queryRegulations(query)));
      assert Run(ClassifyNode, InitialState(query), tools) == Run(RegulationsNode, s1, tools);
      assert Run(RegulationsNode, s1, tools) == Run(SynthesizeNode, s2, tools);
    case Both =>
      var s2 := s1.(circuitResult := ExecuteTool(tools.circuitImage(query)));
      var s3 := s2.(regulationsResult := ExecuteTool(tools.queryRegulations(query)));
      assert Run(ClassifyNode, InitialState(query), tools) == Run(CircuitNode, s1, tools);
      assert Run(CircuitNode, s1, tools) == Run(RegulationsNode, s2, tools);
      assert Run(RegulationsNode, s2, tools) == Run(SynthesizeNode, s3, tools);
  }

  /** The response `process_query` returns is the one synthesis builds from
      the classified intent and the routed tools' records; the query fails
      exactly when that synthesis raises, and then carries its text. */
  lemma ProcessQueryResponse(query: string, tools: Tools)
    ensures var r := ProcessQuery(query, tools);
      var synthesized := Synthesize(ClassifyIntent(query), CircuitRecord(query, tools), RegulationsRecord(query, tools));
      && (r.error.None? ==> synthesized == Ok(r.response))
      && (r.error.Some? ==> synthesized == Raised(r.error.value))
  {
    RunIsPipeline(query, tools);
  }

  /** The executed flags of a successful query: a flag is set iff the tool was
      routed to and its executor left a non-empty dict, so a failing tool counts
      as executed and a tool returning `{}` does not. */
  lemma ExecutedFlags(query: string, tools: Tools)
    ensures var r := ProcessQuery(query, tools);
      r.error.None? ==>
        && r.circuitExecuted == (RunsCircuit(ClassifyIntent(query)) && |ExecuteTool(tools.circuitImage(query))| > 0)
        && r.regulationsExecuted == (RunsRegulations(ClassifyIntent(query)) && |ExecuteTool(tools.queryRegulations(query))| > 0)
  {
    RunIsPipeline(query, tools);
  }

  /** A query fails exactly when the circuit route gets an image result that
      lacks a field the image response reads. */
  lemma {:induction false} QueryFailsOnlyOnBrokenImage(query: string, tools: Tools)
    ensures ProcessQuery(query, tools).error.Some? <==>
      ClassifyIntent(query) == CircuitOnly && IsImage(CircuitRecord(query, tools)) && !CompleteImage(CircuitRecord(query, tools))
  {
    RunIsPipeline(query, tools);
  }

  /** A tool that raises is still reported as executed, with its error record. */
  lemma RaisingToolCountsAsExecuted(query: string, tools: Tools, message: string)
    requires ClassifyIntent(query) == RegulationsOnly
    requires tools.queryRegulations(query) == Raises(message)
    ensures ProcessQuery(query, tools).regulationsExecuted
    ensures ProcessQuery(query, tools).response ==
      TextResponse(Str(message), Dict(map["error" := Str(message)]))
  {
    RunIsPipeline(query, tools);
    assert RegulationsRecord(query, tools) == ErrorRecord(message);
  }

  // ---------------------------------------------------------------------
  // The regulations tool plugged in
  // ---------------------------------------------------------------------

  /** The regulations tool the orchestrator calls: `query_regulations` with
      its default number of results, on whatever the knowledge base does. */
  function RegulationsTool(backend: string -> Regulations.BackendCall, model: string): string -> Call
  {
    q => Returns(Dict(Regulations.QueryRegulations(q, Regulations.DefaultNumResults, model, backend(q))))
  }

  /** End to end: a regulations query never fails, whatever the knowledge
      base does; its response carries the tool record's content and metadata
      unchanged, and only the regulations tool is reported as executed. */
  lemma RegulationsQueryEndToEnd(query: string, circuitImage: string -> Call,
                                 backend: string -> Regulations.BackendCall, model: string)
    requires ClassifyIntent(query) == RegulationsOnly
    ensures var r := ProcessQuery(query, Tools(circuitImage, RegulationsTool(backend, model)));
      var record := Regulations.QueryRegulations(query, Regulations.DefaultNumResults, model, backend(query));
      && r.error.None? && r.intent == "regulations"
      && r.regulationsExecuted && !r.circuitExecuted
      && r.response == TextResponse(record["content"], record["metadata"])
  {
    var tools := Tools(circuitImage, RegulationsTool(backend, model));
    var record := Regulations.QueryRegulations(query, Regulations.DefaultNumResults, model, backend(query));
    assert StatusProbeError(Dict(record)).None?;
    assert RegulationsRecord(query, tools) == record;
    RunIsPipeline(query, tools);
  }
}
