/** The tool catalog of src/utils/agent.ts: eleven constant descriptors, each
    with a name, a one-line description and an input schema (its type, its
    named properties in declaration order, and the names it requires). */
module Registry {

  /** One entry of a schema's `properties` object. */
  datatype PropertySpec = PropertySpec(key: string, valueType: string, description: string)

  datatype InputSchema = InputSchema(
    schemaType: string,
    properties: seq<PropertySpec>,
    required: seq<string>)

  datatype Tool = Tool(name: string, description: string, inputSchema: InputSchema)

  /** The keys of a schema's `properties`, in order. */
  function PropertyKeys(ps: seq<PropertySpec>): (keys: seq<string>)
    ensures |keys| == |ps|
    ensures forall j :: 0 <= j < |ps| ==> keys[j] == ps[j].key
  {
    if ps == [] then [] else [ps[0].key] + PropertyKeys(ps[1..])
  }

  /** A schema with the single required string property `text`. */
  function TextSchema(textDescription: string): InputSchema {
    InputSchema("object", [PropertySpec("text", "string", textDescription)], ["text"])
  }

  const Tools: seq<Tool> := [
    Tool("defined_terms_checker",
         "Ensure all defined terms are properly introduced and consistently used.",
         TextSchema("The legal text to check for defined terms")),
    Tool("jurisdiction_identifier",
         "Recognize and flag jurisdiction-specific language or requirements.",
         TextSchema("The legal text to check for jurisdiction-specific language")),
    Tool("legal_citation_validator",
         "Check the format and accuracy of legal citations.",
         TextSchema("The legal text to validate citations")),
    Tool("ambiguity_detector",
         "Highlight potentially ambiguous phrases or clauses.",
         TextSchema("The legal text to check for ambiguities")),
    Tool("conflict_checker",
         "Identify conflicting statements within the document.",
         TextSchema("The legal text to check for conflicts")),
    Tool("precedent_matcher",
         "Find similar clauses or language from a database of precedents.",
         TextSchema("The legal text to match against precedents")),
    Tool("legal_jargon_simplifier",
         "Suggest plain language alternatives for complex legal terms.",
         TextSchema("The legal text to simplify")),
    Tool("compliance_checker",
         "Verify if the document meets specific regulatory requirements.",
         InputSchema("object",
                     [PropertySpec("text", "string", "The legal text to check for compliance"),
                      PropertySpec("regulation", "string", "The specific regulation to check against")],
                     ["text", "regulation"])),
    Tool("risk_phrase_identifier",
         "Flag phrases that may increase legal risk.",
         TextSchema("The legal text to check for risk phrases")),
    Tool("signature_block_formatter",
         "Properly format and place signature blocks.",
         TextSchema("The legal text to format signature blocks")),
    Tool("governing_law_verifier",
         "Ensure the governing law clause is appropriate and consistent.",
         TextSchema("The legal text to verify governing law"))
  ]

  /** The eleven tool names are pairwise distinct. */
  lemma ToolNamesDistinct()
    ensures |Tools| == 11
    ensures forall i, j :: 0 <= i < j < |Tools| ==> Tools[i].name != Tools[j].name
  {
  }

  /** Every schema is of type "object" and every required name is one of
      its property keys. */
  lemma SchemasWellFormed()
    ensures forall i :: 0 <= i < |Tools| ==> Tools[i].inputSchema.schemaType == "object"
    ensures forall i, r :: 0 <= i < |Tools| && r in Tools[i].inputSchema.required ==>
              r in PropertyKeys(Tools[i].inputSchema.properties)
  {
  }

  /** Every tool requires "text", and compliance_checker is the only one
      that also requires "regulation". */
  lemma RequiredFields()
    ensures forall i :: 0 <= i < |Tools| ==> "text" in Tools[i].inputSchema.required
    ensures forall i :: 0 <= i < |Tools| ==>
              ("regulation" in Tools[i].inputSchema.required <==> Tools[i].name == "compliance_checker")
  {
  }
}
