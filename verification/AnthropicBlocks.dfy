/** Messages and content blocks of the Anthropic Messages API, and the stored turns they are built from. */
module AnthropicBlocks {
  import opened Prelude

  datatype Role = User | Assistant | System

  /** One part of a tool result whose content is a list; anything but a tool reference is opaque. */
  datatype ResultPart = Reference(toolName: string) | OtherPart(payload: string)

  datatype ResultContent = PlainResult(text: string) | ListResult(parts: seq<ResultPart>)

  /** What a block says. Inputs are opaque JSON; Opaque is an image, a document or a server tool's block. */
  datatype Kind =
    | Text(text: string)
    | Thinking(thinking: string, signature: string)
    | RedactedThinking(data: string)
    | ToolUse(id: string, name: string, input: string)
    | ToolResult(toolUseId: string, result: ResultContent)
    | ToolChange(added: bool, toolName: string)
    | ReferencePlaceholder(names: seq<string>, sourceToolCallId: Option<string>)
    | Fallback(to: string)
    | Opaque(payload: string)

  /** A block with the two marks that ride on it: the cache boundary tag, and cache_control. */
  datatype Block = Block(kind: Kind, boundary: bool := false, cached: bool := false)

  datatype Content = PlainContent(text: string) | BlockContent(blocks: seq<Block>)

  /** `turnScoped` is a `clear_at` of "next_user_message". */
  datatype Message = Message(role: Role, content: Content, turnScoped: bool := false)

  predicate IsThinking(kind: Kind) {
    kind.Thinking? || kind.RedactedThinking?
  }

  /** A thinking block the API takes back: not one cut off before its signature. */
  predicate IsReplayable(kind: Kind) {
    kind.RedactedThinking? || (kind.Thinking? && kind.signature != "")
  }

  /** Content as the API reads it: a string is one text block. */
  function BlocksOf(content: Content): seq<Block> {
    match content
    case PlainContent(text) => [Block(Text(text))]
    case BlockContent(blocks) => blocks
  }

  // ── JavaScript's trimming ─────────────────────────────────────────

  predicate IsSpace(c: char) {
    || '\t' <= c <= '\r' || c == ' ' || c == '\U{00A0}' || c == '\U{1680}' || '\U{2000}' <= c <= '\U{200A}'
    || c == '\U{2028}' || c == '\U{2029}' || c == '\U{202F}' || c == '\U{205F}' || c == '\U{3000}' || c == '\U{FEFF}'
  }

  function TrimEnd(text: string): (trimmed: string)
    ensures trimmed <= text
    ensures trimmed != [] ==> !IsSpace(Last(trimmed))
  {
    if text != [] && IsSpace(Last(text)) then TrimEnd(Init(text)) else text
  }

  function TrimStart(text: string): string {
    if text != [] && IsSpace(text[0]) then TrimStart(text[1..]) else text
  }

  /** Only whitespace, or nothing. */
  predicate IsBlank(text: string) {
    forall i :: 0 <= i < |text| ==> IsSpace(text[i])
  }

  function OrSpace(text: string): string {
    if text == [] then " " else text
  }
}
