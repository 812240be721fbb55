/** The records the experiments store and return, and their compact JSON text. */
module Records {
  import opened Text

  // ----- enumerations -----------------------------------------------------

  datatype Provenance = UserDeclaration | AgentObservation | VerifiedOutcome {
    function Text(): string {
      match this
      case UserDeclaration => "USER_DECLARATION"
      case AgentObservation => "AGENT_OBSERVATION"
      case VerifiedOutcome => "VERIFIED_OUTCOME"
    }
  }

  datatype Epistemic = Declared | Unverified | VerifiedSuccess | VerifiedFailure {
    function Text(): string {
      match this
      case Declared => "DECLARED"
      case Unverified => "UNVERIFIED"
      case VerifiedSuccess => "VERIFIED_SUCCESS"
      case VerifiedFailure => "VERIFIED_FAILURE"
    }
  }

  datatype CallerClass = Human | Cognition | Worker | Verifier

  datatype Status = Results | Empty | Denied | Unavailable | Recorded {
    function Text(): string {
      match this
      case Results => "SUCCESS_WITH_RESULTS"
      case Empty => "EMPTY"
      case Denied => "DENIED"
      case Unavailable => "UNAVAILABLE"
      case Recorded => "RECORDED"
    }
  }

  /** What a derived object is; an edge also names its two end points. */
  datatype Kind = Summary | EmbeddingStub | SemanticIndexStub | GraphNode
                | GraphEdge(start: string, end: string) | ArtifactStub | ToolOutputStub

  /** The `kind` field of a record, and of a search. */
  datatype KindName = RawName | SummaryName | EmbeddingName | IndexName | NodeName | EdgeName
                    | ArtifactName | ToolName {
    function Text(): string {
      match this
      case RawName => "RAW"
      case SummaryName => "SUMMARY"
      case EmbeddingName => "EMBEDDING_STUB"
      case IndexName => "SEMANTIC_INDEX_STUB"
      case NodeName => "GRAPH_NODE"
      case EdgeName => "GRAPH_EDGE"
      case ArtifactName => "ARTIFACT_STUB"
      case ToolName => "TOOL_OUTPUT_STUB"
    }
  }

  function NameOf(k: Kind): KindName {
    match k
    case Summary => SummaryName
    case EmbeddingStub => EmbeddingName
    case SemanticIndexStub => IndexName
    case GraphNode => NodeName
    case GraphEdge(_, _) => EdgeName
    case ArtifactStub => ArtifactName
    case ToolOutputStub => ToolName
  }

  // ----- stored records ---------------------------------------------------

  /** The `admission` object that the promotion gate and outcome admission attach. */
  datatype AdmissionMark = Promoted(gateVersion: string, policyVersion: string) | Reflected

  /** A raw memory entry of the security layer. */
  datatype Entry = Entry(id: string, contextId: string, domain: string, classification: string,
                         content: string, createdBy: string, provenance: Provenance,
                         epistemic: Epistemic, admission: Option<AdmissionMark>)

  predicate IsPromotion(e: Entry) {
    e.admission.Some? && e.admission.value.Promoted?
  }

  /** A memory entry of the capability layer: no domain, no classification. */
  datatype MemoryEntry = MemoryEntry(id: string, contextId: string, content: string,
                                     createdBy: string, provenance: Provenance, epistemic: Epistemic)

  function Basic(e: Entry): MemoryEntry {
    MemoryEntry(e.id, e.contextId, e.content, e.createdBy, e.provenance, e.epistemic)
  }

  datatype Derived = Derived(id: string, kind: Kind, sourceIds: seq<string>, payload: string)

  /** The content of a tree entry is the JSON text of one record; the text stands
      for the record it encodes. */
  datatype Payload = OfMemory(memory: MemoryEntry) | OfEntry(entry: Entry)

  // ----- responses --------------------------------------------------------

  /** A returned record. */
  datatype Item = RawItem(entry: Entry) | DerivedItem(derived: Derived)
                | MemoryItem(memory: MemoryEntry) | Diagnostics(rawCount: nat, derivedCount: nat)
  {
    function Id(): string {
      match this
      case RawItem(e) => e.id
      case DerivedItem(d) => d.id
      case MemoryItem(m) => m.id
      case Diagnostics(_, _) => "diagnostics"
    }

    /** `r.get('content', r.get('payload', ''))`. */
    function Body(): string {
      match this
      case RawItem(e) => e.content
      case DerivedItem(d) => d.payload
      case MemoryItem(m) => m.content
      case Diagnostics(_, _) => ""
    }
  }

  /** The stored entry without its content. */
  datatype Receipt = EntryReceipt(id: string, contextId: string, domain: string, classification: string,
                                  createdBy: string, provenance: Provenance, epistemic: Epistemic)
                   | MemoryReceipt(id: string, contextId: string, createdBy: string,
                                   provenance: Provenance, epistemic: Epistemic)

  datatype Response = Response(status: Status, entries: seq<Item>, partial: bool,
                               reason: Option<string>, receipt: Option<Receipt>)

  function Plain(status: Status): Response {
    Response(status, [], false, None, None)
  }

  function Because(status: Status, reason: string): Response {
    Response(status, [], false, Some(reason), None)
  }

  // ----- compact JSON with sorted keys -------------------------------------

  function Hex(d: nat): char
    requires d < 16
  {
    if d < 10 then Digit(d) else (d - 10 + 'a' as int) as char
  }

  function EscapeChar(c: char): string {
    if c == '\"' then "\\\""
    else if c == '\\' then "\\\\"
    else if c == '\n' then "\\n"
    else if c == '\r' then "\\r"
    else if c == '\t' then "\\t"
    else if c as int == 8 then "\\b"
    else if c as int == 12 then "\\f"
    else if c as int < 32 then "\\u00" + [Hex(c as int / 16), Hex(c as int % 16)]
    else [c]
  }

  function Escape(s: string): string {
    if s == [] then "" else EscapeChar(s[0]) + Escape(s[1..])
  }

  function Quote(s: string): string {
    "\"" + Escape(s) + "\""
  }

  function Field(key: string, value: string): string {
    Quote(key) + ":" + value
  }

  function Object(fields: seq<string>): string {
    "{" + Join(fields, ",") + "}"
  }

  function QuoteAll(xs: seq<string>): seq<string> {
    seq(|xs|, i requires 0 <= i < |xs| => Quote(xs[i]))
  }

  function MarkJson(m: AdmissionMark): string {
    match m
    case Promoted(g, v) => Object([Field("gate_version", Quote(g)),
                                   Field("kind", Quote("PROMOTED_REPRESENTATION")),
                                   Field("policy_version", Quote(v))])
    case Reflected => Object([Field("kind", Quote("REFLECTION_CANDIDATE")),
                              Field("version", Quote("outcome-v1"))])
  }

  /** `wire(item)`: the text `json.dumps` gives a returned record. */
  function Wire(item: Item): string {
    match item
    case RawItem(e) =>
      Object((if e.admission.Some? then [Field("admission", MarkJson(e.admission.value))] else []) +
             [Field("classification", Quote(e.classification)), Field("content", Quote(e.content)),
              Field("context_id", Quote(e.contextId)), Field("created_by", Quote(e.createdBy)),
              Field("domain", Quote(e.domain)), Field("epistemic_status", Quote(e.epistemic.Text())),
              Field("id", Quote(e.id)), Field("kind", Quote("RAW")),
              Field("provenance", Quote(e.provenance.Text()))])
    case DerivedItem(d) =>
      Object((if d.kind.GraphEdge? then [Field("end", Quote(d.kind.end))] else []) +
             [Field("id", Quote(d.id)), Field("kind", Quote(NameOf(d.kind).Text())),
              Field("payload", Quote(d.payload)),
              Field("source_ids", "[" + Join(QuoteAll(d.sourceIds), ",") + "]")] +
             (if d.kind.GraphEdge? then [Field("start", Quote(d.kind.start))] else []))
    case MemoryItem(m) =>
      Object([Field("content", Quote(m.content)), Field("context_id", Quote(m.contextId)),
              Field("created_by", Quote(m.createdBy)), Field("epistemic_status", Quote(m.epistemic.Text())),
              Field("id", Quote(m.id)), Field("provenance", Quote(m.provenance.Text()))])
    case Diagnostics(r, d) =>
      Object([Field("derived_count", Decimal(d)), Field("id", Quote("diagnostics")),
              Field("raw_count", Decimal(r))])
  }

  /** How a record is written; `Wire` in practice. */
  type Writer = Item -> string

  function WireAll(items: seq<Item>, w: Writer): seq<string> {
    seq(|items|, i requires 0 <= i < |items| => w(items[i]))
  }

  const HEAD := "{\"entries\":["
  const TAIL := ",\"reason\":null,\"receipt\":null,\"status\":\"SUCCESS_WITH_RESULTS\"}"

  /** The part of a results response that follows its entries. */
  function Closing(partial: bool): string {
    "],\"partial\":" + (if partial then "true" else "false") + TAIL
  }

  /** `wire(response('SUCCESS_WITH_RESULTS', items, partial))`. */
  function WireResults(items: seq<Item>, partial: bool, w: Writer): string {
    HEAD + Join(WireAll(items, w), ",") + Closing(partial)
  }
}
