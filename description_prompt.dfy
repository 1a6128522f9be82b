/**
 * The description prompt of the metadata-dictionary builder: a Llama 3 chat
 * frame around a fixed system prompt, a user prompt that names one field of
 * one index with its sample values, and a fixed assistant prefix.
 *
 * The templates are kept as the tokens Python's `format` reads in them
 * (literal text, replacement fields `{name}`, escaped braces `{{`/`}}`); the
 * template string is the concatenation of the tokens as written. Long runs
 * of literal text are cut into several tokens, and the written-out texts
 * below (`InputSection`, `Instructions`, `AnswerFormat`) are cut at the same
 * places. The cuts are only there to keep the proofs small: the joined text
 * is the source's, whose sentences are not split.
 */
module DescriptionPrompt {
  import opened Wrappers
  import opened Text
  import opened PyFormat
  import opened JsonData

  const BeginOfText := "<|begin_of_text|>"
  const StartHeader := "<|start_header_id|>"
  const EndHeader := "<|end_header_id|>"
  const EndOfTurn := "<|eot_id|>"

  /**
   * One turn of the chat frame: the text that closes the previous turn (or
   * opens the conversation), the role header on a line of its own, and the
   * replacement field that holds the turn's text.
   */
  function Turn(opening: PlainText, role: PlainText, name: FieldName): seq<Piece>
  {
    [Lit(opening), Lit(StartHeader), Lit(role)] + [Lit(EndHeader), Lit("\n"), Field(name)]
  }

  /** `LLAMA3_BASE_PROMPT`: the system, user and assistant turns. */
  const BasePromptTokens: seq<Piece> :=
    Turn(BeginOfText, "system", "system_prompt") + Turn(EndOfTurn, "user", "user_prompt")
    + Turn(EndOfTurn, "assistant", "llm_prefix")
  const Llama3BasePrompt := Source(BasePromptTokens)

  /** `SYSTEM_PROMPT`: the persona. It is substituted as a value, never formatted itself. */
  const SystemPrompt :=
    "You are a highly knowledgeable metadata dictionary agent. "
    + "Your mission is to help Elasticsearch admins understand their data by providing clear, concise natural language descriptions for each field."

  /** `USER_PROMPT_TEMPLATE`: the instructions and the five-key JSON answer format, line by line. */
  const Line0: seq<Piece> := [Lit("Analyze the field "), Lit("based on the "), Lit("input below:\n")]
  const Line1: seq<Piece> := [Lit("- Index Name: "), Field("index"), Lit("\n")]
  const Line2: seq<Piece> := [Lit("- Field Name: "), Field("field"), Lit("\n")]
  const Line3: seq<Piece> := [Lit("- Data Type: "), Field("data_type"), Lit("\n")]
  const Line4: seq<Piece> := [Lit("- Sample Values: "), Field("samples"), Lit("\n\n")]
  const Line5: seq<Piece> := [Lit("Generate a description "), Lit("that explains the "), Lit("field's purpose. ")]
  const Line6: seq<Piece> :=
    [Lit("Return the output "), Lit("strictly in the "), Lit("following JSON format "), Lit("(no additional text):\n\n")]
  const Line7: seq<Piece> := [Lit("json\n")]
  const Line8: seq<Piece> := [LBrace, Lit("\n")]
  const Line9: seq<Piece> := [Lit("  \"field_name\": \""), Field("field"), Lit("\",\n")]
  const Line10: seq<Piece> := [Lit("  \"index_name\": \""), Field("index"), Lit("\",\n")]
  const Line11: seq<Piece> := [Lit("  \"data_type\": \""), Field("data_type"), Lit("\",\n")]
  const Line12: seq<Piece> := [Lit("  \"natural_language_"), Lit("description\": "), Lit("\"<your description>\",\n")]
  const Line13: seq<Piece> := [Lit("  \"sample_value\": \""), Field("samples"), Lit("\"\n")]
  const Line14: seq<Piece> := [RBrace, Lit("\n")]
  const InputTokens := Line0 + Line1 + Line2 + Line3 + Line4
  const InstructionTokens := Line5 + Line6 + Line7 + Line8
  const AnswerTokens := Line9 + Line10 + Line11 + Line12 + Line13 + Line14
  const UserPromptTokens := InputTokens + InstructionTokens + AnswerTokens

  const UserPromptTemplate := Source(UserPromptTokens)

  /** `LLM_PREFIX`: the text the assistant turn starts with. */
  const LlmPrefix := "**Generating Metadata Dictionary in desired format:**"

  /** `', '.join(map(str, samples))`. */
  function RenderSamples(samples: seq<Key>): string
  {
    Join(", ", seq(|samples|, i requires 0 <= i < |samples| => KeyText(samples[i])))
  }

  /** The lines that name the index, the field, its data type and its sample values. */
  function InputSection(index: string, field: string, dataType: string, samples: string): string
  {
    ("Analyze the field " + "based on the " + "input below:\n")
    + ("- Index Name: " + index + "\n")
    + ("- Field Name: " + field + "\n")
    + ("- Data Type: " + dataType + "\n")
    + ("- Sample Values: " + samples + "\n\n")
  }

  /** The instruction lines, up to the opening brace of the answer format. */
  function Instructions(): string
  {
    ("Generate a description " + "that explains the " + "field's purpose. ")
    + ("Return the output " + "strictly in the " + "following JSON format " + "(no additional text):\n\n")
    + ("json\n")
    + ("{" + "\n")
  }

  /** The rest of the answer format: five keys, three of them pre-filled, and the closing brace. */
  function AnswerFormat(index: string, field: string, dataType: string, samples: string): string
  {
    ("  \"field_name\": \"" + field + "\",\n")
    + ("  \"index_name\": \"" + index + "\",\n")
    + ("  \"data_type\": \"" + dataType + "\",\n")
    + ("  \"natural_language_" + "description\": " + "\"<your description>\",\n")
    + ("  \"sample_value\": \"" + samples + "\"\n")
    + ("}" + "\n")
  }

  /** The user prompt written out: every field filled in, every escaped brace single. */
  function UserPrompt(index: string, field: string, dataType: string, samples: string): string
  {
    InputSection(index, field, dataType, samples) + Instructions() + AnswerFormat(index, field, dataType, samples)
  }

  function UserPromptArgs(index: string, field: string, dataType: string, samples: string): map<string, string>
  {
    map["index" := index, "field" := field, "data_type" := dataType, "samples" := samples]
  }

  function BasePromptArgs(userPrompt: string): map<string, string>
  {
    map["system_prompt" := SystemPrompt, "user_prompt" := userPrompt, "llm_prefix" := LlmPrefix]
  }

  lemma InputSectionRender(index: string, field: string, dataType: string, samples: string)
    ensures Bound(InputTokens, UserPromptArgs(index, field, dataType, samples))
    ensures Render(InputTokens, UserPromptArgs(index, field, dataType, samples)) == InputSection(index, field, dataType, samples)
  {
    var args := UserPromptArgs(index, field, dataType, samples);
    RenderShort(Line0[0], Line0[1], Line0[2], Line0[2], args);
    RenderShort(Line1[0], Line1[1], Line1[2], Line1[2], args);
    RenderShort(Line2[0], Line2[1], Line2[2], Line2[2], args);
    RenderShort(Line3[0], Line3[1], Line3[2], Line3[2], args);
    RenderShort(Line4[0], Line4[1], Line4[2], Line4[2], args);
    RenderLines(Line0, Line1, Line2, Line3, Line4, Line4, args);
  }

  lemma InstructionsRender(index: string, field: string, dataType: string, samples: string)
    ensures Bound(InstructionTokens, UserPromptArgs(index, field, dataType, samples))
    ensures Render(InstructionTokens, UserPromptArgs(index, field, dataType, samples)) == Instructions()
  {
    var args := UserPromptArgs(index, field, dataType, samples);
    RenderShort(Line5[0], Line5[1], Line5[2], Line5[2], args);
    RenderShort(Line6[0], Line6[1], Line6[2], Line6[3], args);
    RenderShort(Line7[0], Line7[0], Line7[0], Line7[0], args);
    RenderShort(Line8[0], Line8[1], Line8[1], Line8[1], args);
    RenderLines(Line5, Line6, Line7, Line8, Line8, Line8, args);
  }

  lemma AnswerFormatRender(index: string, field: string, dataType: string, samples: string)
    ensures Bound(AnswerTokens, UserPromptArgs(index, field, dataType, samples))
    ensures Render(AnswerTokens, UserPromptArgs(index, field, dataType, samples)) == AnswerFormat(index, field, dataType, samples)
  {
    var args := UserPromptArgs(index, field, dataType, samples);
    RenderShort(Line9[0], Line9[1], Line9[2], Line9[2], args);
    RenderShort(Line10[0], Line10[1], Line10[2], Line10[2], args);
    RenderShort(Line11[0], Line11[1], Line11[2], Line11[2], args);
    RenderShort(Line12[0], Line12[1], Line12[2], Line12[2], args);
    RenderShort(Line13[0], Line13[1], Line13[2], Line13[2], args);
    RenderShort(Line14[0], Line14[1], Line14[1], Line14[1], args);
    RenderLines(Line9, Line10, Line11, Line12, Line13, Line14, args);
  }

  /** `USER_PROMPT_TEMPLATE.format(...)` with the four keyword arguments succeeds and yields `UserPrompt`. */
  lemma UserPromptFormat(index: string, field: string, dataType: string, samples: string)
    ensures Format(UserPromptTemplate, UserPromptArgs(index, field, dataType, samples))
            == Some(UserPrompt(index, field, dataType, samples))
  {
    var args := UserPromptArgs(index, field, dataType, samples);
    InputSectionRender(index, field, dataType, samples);
    InstructionsRender(index, field, dataType, samples);
    AnswerFormatRender(index, field, dataType, samples);
    RenderConcat(InputTokens, InstructionTokens, args);
    RenderConcat(InputTokens + InstructionTokens, AnswerTokens, args);
    FormatPieces(UserPromptTokens, args);
  }

  /** A turn renders to its opening, its role header and the argument of its field. */
  lemma TurnRender(opening: PlainText, role: PlainText, name: FieldName, args: map<string, string>)
    requires name in args
    ensures Bound(Turn(opening, role, name), args)
    ensures Render(Turn(opening, role, name), args) == opening + StartHeader + role + EndHeader + "\n" + args[name]
  {
    RenderSix(Lit(opening), Lit(StartHeader), Lit(role), Lit(EndHeader), Lit("\n"), Field(name), args);
  }

  /** `LLAMA3_BASE_PROMPT.format(...)` succeeds and places its three arguments in the chat frame. */
  lemma BasePromptFormat(userPrompt: string)
    ensures Format(Llama3BasePrompt, BasePromptArgs(userPrompt))
            == Some((BeginOfText + StartHeader + "system" + EndHeader + "\n" + SystemPrompt)
                    + (EndOfTurn + StartHeader + "user" + EndHeader + "\n" + userPrompt)
                    + (EndOfTurn + StartHeader + "assistant" + EndHeader + "\n" + LlmPrefix))
  {
    var args := BasePromptArgs(userPrompt);
    var system, user, assistant :=
      Turn(BeginOfText, "system", "system_prompt"), Turn(EndOfTurn, "user", "user_prompt"), Turn(EndOfTurn, "assistant", "llm_prefix");
    TurnRender(BeginOfText, "system", "system_prompt", args);
    TurnRender(EndOfTurn, "user", "user_prompt", args);
    TurnRender(EndOfTurn, "assistant", "llm_prefix", args);
    RenderConcat(system, user, args);
    RenderConcat(system + user, assistant, args);
    assert Format(Llama3BasePrompt, args) == Some(Render(BasePromptTokens, args)) by {
      FormatPieces(BasePromptTokens, args);
    }
  }

  /**
   * `generate_prompt(index, field, data_type, samples)`: the user template is
   * formatted with the four values, then the chat frame with the system
   * prompt, that user prompt and the assistant prefix.
   */
  function GeneratePrompt(index: string, field: string, dataType: string, samples: seq<Key>): string
  {
    var sampleText := RenderSamples(samples);
    UserPromptFormat(index, field, dataType, sampleText);
    var userPrompt := Format(UserPromptTemplate, UserPromptArgs(index, field, dataType, sampleText)).value;
    BasePromptFormat(userPrompt);
    Format(Llama3BasePrompt, BasePromptArgs(userPrompt)).value
  }

  /**
   * Both templates format without error, and the prompt is the chat frame
   * holding the system prompt, the user prompt for this field with its
   * samples joined by `", "`, and the assistant prefix.
   */
  lemma GeneratePromptText(index: string, field: string, dataType: string, samples: seq<Key>)
    ensures GeneratePrompt(index, field, dataType, samples)
            == (BeginOfText + StartHeader + "system" + EndHeader + "\n" + SystemPrompt)
               + (EndOfTurn + StartHeader + "user" + EndHeader + "\n"
                  + UserPrompt(index, field, dataType, RenderSamples(samples)))
               + (EndOfTurn + StartHeader + "assistant" + EndHeader + "\n" + LlmPrefix)
  {
    var sampleText := RenderSamples(samples);
    UserPromptFormat(index, field, dataType, sampleText);
    BasePromptFormat(UserPrompt(index, field, dataType, sampleText));
  }
}
