/** The text `LLM.ask_tool` writes into the system message (app/llm.py:203-236): a catalogue of
    the tools, then the format a reply must take to call one, with an example call whose id is
    freshly drawn. */
module Prompt {
  import opened PyStr
  import opened Json
  import opened Schema

  // ---------------------------------------------------------------- the tool catalogue

  /** One tool in the catalogue: its name, its description and its parameter schema as indented
      JSON, on three lines. */
  function Entry(codec: Codec, t: ToolSpec): string {
    "Tool: " + t.name + "\nDescription: " + t.description + "\nParameters: " + codec.dumpsIndented(t.parameters)
  }

  function Entries(codec: Codec, tools: seq<ToolSpec>): (es: seq<string>)
    ensures |es| == |tools|
    ensures forall i :: 0 <= i < |tools| ==> es[i] == Entry(codec, tools[i])
  {
    seq(|tools|, i requires 0 <= i < |tools| => Entry(codec, tools[i]))
  }

  /** `tool_descriptions`: the entries separated by blank lines. */
  function Catalogue(codec: Codec, tools: seq<ToolSpec>): string {
    Join("\n\n", Entries(codec, tools))
  }

  /** Cutting the catalogue at its blank lines gives back one entry per tool, in order, as long as
      no entry holds a blank line of its own or ends in a newline. */
  lemma CatalogueEntries(codec: Codec, tools: seq<ToolSpec>)
    requires |tools| > 0
    requires forall i :: 0 <= i < |tools| ==> Guarded(Entry(codec, tools[i]), "\n\n")
    ensures Split(Catalogue(codec, tools), "\n\n") == Entries(codec, tools)
  {
    JoinSplit(Entries(codec, tools), "\n\n");
  }

  // ---------------------------------------------------------------- the instructions

  /** The indentation the instruction text keeps from its triple-quoted literal: sixteen spaces. */
  const Indent: string := "                "

  /** The instructions up to the catalogue, with `indent` the indentation: one line of text, then a
      blank line that keeps the indentation, as every line of the literal does. */
  function Preamble(indent: string): string {
    "\n" + indent + "You have access to the following tools:"
    + "\n" + indent
    + "\n" + indent
  }

  /** The lines between the catalogue and the example call's id. */
  function FormatHead(indent: string): string {
    "\n" + indent
    + "\n" + indent + "To use a tool, respond ONLY with a JSON object in the following format:"
    + "\n" + indent
    + "\n" + indent + "```json"
    + "\n" + indent + "{"
    + "\n" + indent + "  \"tool_calls\": ["
    + "\n" + indent + "    {"
    + "\n" + indent + "      "
  }

  /** The line of the example call that carries the fresh id, without its indentation. */
  function IdLine(id: string): string {
    IdField(id) + ","
  }

  /** The example call's id field: `call_` and the fresh id. */
  function IdField(id: string): string {
    "\"id\": \"call_" + id + "\""
  }

  /** The lines after the example id, down to the closing indentation. */
  function FormatTail(indent: string): string {
    ExampleTail(indent) + Remarks(indent) + Closing(indent)
  }

  /** The rest of the example call, down to the closing fence. */
  function ExampleTail(indent: string): string {
    "\n" + indent + "      \"type\": \"function\","
    + "\n" + indent + "      \"function\": {"
    + "\n" + indent + "        \"name\": \"tool_name\","
    + "\n" + indent + "        \"arguments\": \"{\\\"param1\\\": \\\"value1\\\", \\\"param2\\\": \\\"value2\\\"}\""
    + "\n" + indent + "      }"
    + "\n" + indent + "    }"
    + "\n" + indent + "  ]"
    + "\n" + indent + "}"
    + "\n" + indent + "```"
  }

  /** A blank line and the first closing remark. */
  function Remarks(indent: string): string {
    "\n" + indent
    + "\n" + indent + "Replace \"tool_name\" with the actual name of the tool you want to use, and provide the appropriate arguments."
  }

  /** The last two remarks and the indentation of the closing quotes. */
  function Closing(indent: string): string {
    "\n" + indent + "Always use double quotes for JSON keys and values. Escape quotes in the arguments value."
    + "\n" + indent + "DO NOT PROVIDE ANY TEXT OUTSIDE THE JSON OBJECT."
    + "\n" + indent
  }

  /** The instruction text at a given indentation. */
  function Layout(indent: string, catalogue: string, id: string): string {
    Preamble(indent) + catalogue + (FormatHead(indent) + IdLine(id) + FormatTail(indent))
  }

  /** `tool_instructions`: the catalogue, then the reply format, indented as the literal is. */
  function Instructions(catalogue: string, id: string): string {
    Layout(Indent, catalogue, id)
  }

  /** Text of the instructions' shape, whatever surrounds the catalogue and the id line, shows
      both. */
  lemma FrameShows(head: string, catalogue: string, before: string, id: string, after: string)
    ensures Contains(head + catalogue + (before + IdLine(id) + after), catalogue)
    ensures Contains(head + catalogue + (before + IdLine(id) + after), IdField(id))
  {
    var tail := before + IdLine(id) + after;
    ContainsMiddle(head, catalogue, tail);
    ContainsMiddle([], IdField(id), ",");
    assert [] + IdField(id) + "," == IdLine(id);
    ContainsWithin(before, IdLine(id), after, IdField(id));
    ContainsWithin(head + catalogue, tail, [], IdField(id));
    assert head + catalogue + tail + [] == head + catalogue + tail;
  }

  /** Whatever the indentation, the text shows the catalogue and the example call's id. */
  lemma LayoutShows(indent: string, catalogue: string, id: string)
    ensures Contains(Layout(indent, catalogue, id), catalogue)
    ensures Contains(Layout(indent, catalogue, id), IdField(id))
  {
    FrameShows(Preamble(indent), catalogue, FormatHead(indent), id, FormatTail(indent));
  }

  /** The opening lines of the instructions at the literal's sixteen-space indentation: the blank
      line before the catalogue keeps the indentation, and so does the line the catalogue starts
      on. */
  lemma PreambleRendered()
    ensures Preamble(Indent) ==
        "\n" + "                " + "You have access to the following tools:"
      + "\n" + "                "
      + "\n" + "                "
  {
  }

  /** The lines from the catalogue's end to the example id: the reply format, each line, the blank
      ones included, behind sixteen spaces. */
  lemma FormatHeadRendered()
    ensures FormatHead(Indent) ==
        "\n" + "                "
      + "\n" + "                " + "To use a tool, respond ONLY with a JSON object in the following format:"
      + "\n" + "                "
      + "\n" + "                " + "```json"
      + "\n" + "                " + "{"
      + "\n" + "                " + "  \"tool_calls\": ["
      + "\n" + "                " + "    {"
      + "\n" + "                " + "      "
  {
  }

  /** The rest of the example call, each line behind sixteen spaces. */
  lemma ExampleTailRendered()
    ensures ExampleTail(Indent) ==
        "\n" + "                " + "      \"type\": \"function\","
      + "\n" + "                " + "      \"function\": {"
      + "\n" + "                " + "        \"name\": \"tool_name\","
      + "\n" + "                " + "        \"arguments\": \"{\\\"param1\\\": \\\"value1\\\", \\\"param2\\\": \\\"value2\\\"}\""
      + "\n" + "                " + "      }"
      + "\n" + "                " + "    }"
      + "\n" + "                " + "  ]"
      + "\n" + "                " + "}"
      + "\n" + "                " + "```"
  {
  }

  /** The blank line after the example and the first remark, each behind sixteen spaces. */
  lemma RemarksRendered()
    ensures Remarks(Indent) ==
        "\n" + "                "
      + "\n" + "                " + "Replace \"tool_name\" with the actual name of the tool you want to use, and provide the appropriate arguments."
  {
  }

  /** The last two remarks behind sixteen spaces, and the sixteen spaces in front of the closing
      quotes. */
  lemma ClosingRendered()
    ensures Closing(Indent) ==
        "\n" + "                " + "Always use double quotes for JSON keys and values. Escape quotes in the arguments value."
      + "\n" + "                " + "DO NOT PROVIDE ANY TEXT OUTSIDE THE JSON OBJECT."
      + "\n" + "                "
  {
  }

  /** The instructions show the catalogue verbatim and an example call carrying the fresh id. */
  lemma InstructionsShow(catalogue: string, id: string)
    ensures Contains(Instructions(catalogue, id), catalogue)
    ensures Contains(Instructions(catalogue, id), IdField(id))
  {
    LayoutShows(Indent, catalogue, id);
  }
}
