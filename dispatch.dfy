/** `handleToolUse` of src/utils/agent.ts: a switch on the tool name that
    picks one handler and the `input` fields passed to it, answers
    "Unknown tool" for any other name, and turns whatever the handler throws
    into the string "Error: " followed by the message. The handlers
    themselves (a prompt and a remote model call each) are a parameter:
    `invoke` says what a handler returns or throws for the arguments it is
    given. */
module Dispatch {
  import opened Wrappers
  import opened Registry

  /** The handler functions the switch can select. */
  datatype Handler =
    | ExtractLegalInfo
    | ReviewLegalText
    | DraftImprovedLegalText
    | PlanLegalProcess
    | DefinedTermsChecker
    | JurisdictionIdentifier
    | LegalCitationValidator
    | AmbiguityDetector
    | ConflictChecker
    | PrecedentMatcher
    | LegalJargonSimplifier
    | ComplianceChecker
    | RiskPhraseIdentifier
    | SignatureBlockFormatter
    | GoverningLawVerifier

  /** The `case` label that selects each handler. */
  function CaseLabel(h: Handler): string {
    match h
    case ExtractLegalInfo => "extract_legal_info"
    case ReviewLegalText => "review_legal_text"
    case DraftImprovedLegalText => "draft_improved_legal_text"
    case PlanLegalProcess => "plan_legal_process"
    case DefinedTermsChecker => "defined_terms_checker"
    case JurisdictionIdentifier => "jurisdiction_identifier"
    case LegalCitationValidator => "legal_citation_validator"
    case AmbiguityDetector => "ambiguity_detector"
    case ConflictChecker => "conflict_checker"
    case PrecedentMatcher => "precedent_matcher"
    case LegalJargonSimplifier => "legal_jargon_simplifier"
    case ComplianceChecker => "compliance_checker"
    case RiskPhraseIdentifier => "risk_phrase_identifier"
    case SignatureBlockFormatter => "signature_block_formatter"
    case GoverningLawVerifier => "governing_law_verifier"
  }

  /** Which handler a name selects and which `input` fields, in order, it
      passes to it. */
  datatype Routing = Routed(handler: Handler, fields: seq<string>) | Unknown

  /** The switch of `handleToolUse`. Only the name decides; nothing checks
      that the input carries the fields the registry marks as required. */
  function Route(name: string): (r: Routing)
    ensures r.Routed? ==> CaseLabel(r.handler) == name
    ensures r.Routed? ==> |r.fields| > 0
  {
    match name
    case "extract_legal_info" => Routed(ExtractLegalInfo, ["text"])
    case "review_legal_text" => Routed(ReviewLegalText, ["text", "extractedInfo"])
    case "draft_improved_legal_text" => Routed(DraftImprovedLegalText, ["originalText", "reviewSummary"])
    case "plan_legal_process" => Routed(PlanLegalProcess, ["process", "context"])
    case "defined_terms_checker" => Routed(DefinedTermsChecker, ["text"])
    case "jurisdiction_identifier" => Routed(JurisdictionIdentifier, ["text"])
    case "legal_citation_validator" => Routed(LegalCitationValidator, ["text"])
    case "ambiguity_detector" => Routed(AmbiguityDetector, ["text"])
    case "conflict_checker" => Routed(ConflictChecker, ["text"])
    case "precedent_matcher" => Routed(PrecedentMatcher, ["text"])
    case "legal_jargon_simplifier" => Routed(LegalJargonSimplifier, ["text"])
    case "compliance_checker" => Routed(ComplianceChecker, ["text", "regulation"])
    case "risk_phrase_identifier" => Routed(RiskPhraseIdentifier, ["text"])
    case "signature_block_formatter" => Routed(SignatureBlockFormatter, ["text"])
    case "governing_law_verifier" => Routed(GoverningLawVerifier, ["text"])
    case _ => Unknown
  }

  /** Every handler is reachable, by its own case label and by no other
      name: the switch has one case per handler. */
  lemma RouteByLabel(h: Handler)
    ensures Route(CaseLabel(h)).Routed? && Route(CaseLabel(h)).handler == h
  {
  }

  /** A name falls to the default case exactly when it is no handler's label. */
  lemma UnknownExactly(name: string)
    ensures Route(name).Unknown? <==> forall h: Handler :: CaseLabel(h) != name
  {
    if !Route(name).Unknown? {
      assert CaseLabel(Route(name).handler) == name;
    } else {
      forall h: Handler ensures CaseLabel(h) != name {
        RouteByLabel(h);
      }
    }
  }

  /** The fields each routed name passes: compliance_checker passes text and
      regulation, review_legal_text text and extractedInfo,
      draft_improved_legal_text originalText and reviewSummary,
      plan_legal_process process and context, every other routed name only
      text. */
  lemma ArgumentRouting(name: string)
    requires Route(name).Routed?
    ensures Route(name).fields ==
      if name == "compliance_checker" then ["text", "regulation"]
      else if name == "review_legal_text" then ["text", "extractedInfo"]
      else if name == "draft_improved_legal_text" then ["originalText", "reviewSummary"]
      else if name == "plan_legal_process" then ["process", "context"]
      else ["text"]
  {
  }

  /** Every registered tool has its own case, and the fields it is passed are
      exactly the fields its schema requires, in the same order. */
  lemma RegisteredToolsRouted()
    ensures forall i :: 0 <= i < |Tools| ==>
              && Route(Tools[i].name).Routed?
              && Route(Tools[i].name).fields == Tools[i].inputSchema.required
  {
  }

  /** Four names are routed although the registry does not list them. */
  lemma RoutedButUnregistered(name: string)
    requires name in ["extract_legal_info", "review_legal_text",
                      "draft_improved_legal_text", "plan_legal_process"]
    ensures Route(name).Routed?
    ensures forall i :: 0 <= i < |Tools| ==> Tools[i].name != name
  {
  }

  /** The parsed `input` of a tool call: `null`, on which reading any field
      throws, or a value whose fields can be read. A number, string, boolean
      or array has none of the fields read here, so it is `Fields(map[])`.
      Field values are of an opaque type. */
  datatype ToolInput<V> = Null | Fields(fields: map<string, V>)

  datatype ToolUse<V> = ToolUse(name: string, input: ToolInput<V>)

  /** What a handler does for the arguments it is given: return a string or
      throw (for a thrown value, the text after "Error: "). */
  datatype Outcome = Returned(value: string) | Threw(message: string)

  /** `input[f]` for each routed field `f`, `undefined` as `None`. */
  function Arguments<V>(fields: map<string, V>, keys: seq<string>): (args: seq<Option<V>>)
    ensures |args| == |keys|
    ensures forall j :: 0 <= j < |keys| ==>
              args[j] == if keys[j] in fields then Some(fields[keys[j]]) else None
  {
    seq(|keys|, j requires 0 <= j < |keys| => if keys[j] in fields then Some(fields[keys[j]]) else None)
  }

  /** `handleToolUse(toolUse)`. It never throws: reading a field of a `null`
      input (message given by `nullRead` for the first field read) and a
      handler's throw both become "Error: " and the message. */
  function HandleToolUse<V>(use: ToolUse<V>, invoke: (Handler, seq<Option<V>>) -> Outcome,
                            nullRead: string -> string): (result: string)
    ensures Route(use.name).Unknown? ==> result == "Unknown tool"
    ensures Route(use.name).Routed? && use.input.Fields? ==>
              var outcome := invoke(Route(use.name).handler,
                                    Arguments(use.input.fields, Route(use.name).fields));
              result == if outcome.Returned? then outcome.value else "Error: " + outcome.message
    ensures Route(use.name).Routed? && use.input.Null? ==>
              result == "Error: " + nullRead(Route(use.name).fields[0])
  {
    match Route(use.name)
    case Unknown => "Unknown tool"
    case Routed(handler, fields) =>
      if use.input.Null? then "Error: " + nullRead(fields[0])
      else
        match invoke(handler, Arguments(use.input.fields, fields))
        case Returned(value) => value
        case Threw(message) => "Error: " + message
  }

  /** Names the system prompt advertises but no case handles get exactly
      "Unknown tool", whatever the input and the handlers. */
  lemma AdvertisedButUnhandled<V>(input: ToolInput<V>, invoke: (Handler, seq<Option<V>>) -> Outcome,
                                  nullRead: string -> string)
    ensures HandleToolUse(ToolUse("todo_manager", input), invoke, nullRead) == "Unknown tool"
    ensures HandleToolUse(ToolUse("missing_clause_detector", input), invoke, nullRead) == "Unknown tool"
  {
  }

  /** Required fields are not checked before dispatch: a compliance_checker
      call without "regulation" still reaches the handler, with `undefined`
      in the regulation position. */
  lemma MissingRequiredFieldDispatched<V>(text: V, invoke: (Handler, seq<Option<V>>) -> Outcome,
                                          nullRead: string -> string)
    ensures var use := ToolUse("compliance_checker", Fields(map["text" := text]));
      && Arguments(use.input.fields, Route(use.name).fields) == [Some(text), None]
      && HandleToolUse(use, invoke, nullRead) ==
           match invoke(ComplianceChecker, [Some(text), None])
           case Returned(v) => v
           case Threw(m) => "Error: " + m
  {
  }
}
