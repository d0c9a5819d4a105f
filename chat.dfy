/** The two pure pieces of the chat route (app/api/chat/route.ts) around the
    interceptor: the tool catalog embedded in the system prompt, one
    `name: description` line per registered tool, and the mapping of the
    client's messages to the roles the model API accepts. */
module ChatRequest {
  import opened Strings
  import opened Registry

  /** `${tool.name}: ${tool.description}` */
  function CatalogLine(t: Tool): string {
    t.name + ": " + t.description
  }

  function CatalogLines(ts: seq<Tool>): (lines: seq<string>)
    ensures |lines| == |ts|
    ensures forall j :: 0 <= j < |ts| ==> lines[j] == CatalogLine(ts[j])
  {
    seq(|ts|, j requires 0 <= j < |ts| => CatalogLine(ts[j]))
  }

  /** `tools.map(tool => `${tool.name}: ${tool.description}`).join('\n')` */
  function ToolCatalog(ts: seq<Tool>): string {
    Join(CatalogLines(ts), "\n")
  }

  /** Tools whose names and descriptions fit on one line each. */
  predicate SingleLine(ts: seq<Tool>) {
    forall j :: 0 <= j < |ts| ==> '\n' !in ts[j].name && '\n' !in ts[j].description
  }

  /** The catalog holds one line per tool, in catalog order, and that line
      is the tool's name, a colon and a space, then its description. */
  lemma CatalogOneLinePerTool(ts: seq<Tool>)
    requires |ts| > 0 && SingleLine(ts)
    ensures |Split(ToolCatalog(ts), '\n')| == |ts|
    ensures forall j :: 0 <= j < |ts| ==>
              Split(ToolCatalog(ts), '\n')[j] == ts[j].name + ": " + ts[j].description
  {
    var lines := CatalogLines(ts);
    forall j | 0 <= j < |lines| ensures '\n' !in lines[j] {
      assert lines[j] == ts[j].name + ": " + ts[j].description;
    }
    assert "\n" == ['\n'];
    SplitJoin(lines, '\n');
  }

  /** A message as the client sends it and as the model API receives it. */
  datatype ChatMessage = ChatMessage(role: string, content: string)

  /** `messages.map(m => ({ role: m.role === 'user' ? 'user' : 'assistant',
      content: m.content }))` */
  function ToModelMessages(ms: seq<ChatMessage>): (r: seq<ChatMessage>)
    ensures |r| == |ms|
    ensures forall j :: 0 <= j < |ms| ==> r[j].content == ms[j].content
    ensures forall j :: 0 <= j < |ms| ==> r[j].role in {"user", "assistant"}
    ensures forall j :: 0 <= j < |ms| ==> (r[j].role == "user" <==> ms[j].role == "user")
  {
    seq(|ms|, j requires 0 <= j < |ms| =>
      ChatMessage(if ms[j].role == "user" then "user" else "assistant", ms[j].content))
  }

  /** Messages whose roles are already "user" or "assistant" pass through
      unchanged; hence mapping twice is mapping once. */
  lemma ToModelMessagesKeepsValidRoles(ms: seq<ChatMessage>)
    requires forall j :: 0 <= j < |ms| ==> ms[j].role in {"user", "assistant"}
    ensures ToModelMessages(ms) == ms
  {
  }

  lemma ToModelMessagesIdempotent(ms: seq<ChatMessage>)
    ensures ToModelMessages(ToModelMessages(ms)) == ToModelMessages(ms)
  {
    ToModelMessagesKeepsValidRoles(ToModelMessages(ms));
  }
}
