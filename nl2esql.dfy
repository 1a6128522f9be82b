/**
 * The question-answering loop: every natural-language question is turned
 * into an Elasticsearch SQL query by the language model, the query is cut out
 * of the model's answer between `<sql_query>` tags, and a query that is not
 * blank is run and its result table reported.
 *
 * The model, `json.dumps` and the SQL endpoint are parameters; the ESQL
 * prompt template is a parameter too.
 */
module Nl2Esql {
  import opened Wrappers
  import opened Text
  import opened PyFormat
  import opened JsonData

  // ---------------------------------------------------------------------------
  // extract_tag

  /** `tag`'s default: the tag the ESQL prompt asks the model to wrap its query in. */
  const DefaultTag: TagName := "sql_query"

  /** A tag that stands for itself inside the pattern: ASCII letters, digits and `_`. */
  predicate IsTagName(tag: string)
  {
    forall i :: 0 <= i < |tag| ==> IsIdentChar(tag[i])
  }

  type TagName = tag: string | IsTagName(tag) witness ""

  function OpenTag(tag: string): string
  {
    "<" + tag + ">"
  }

  function CloseTag(tag: string): string
  {
    "</" + tag + ">"
  }

  /**
   * A way the pattern `open\s*(.*?)\s*close` (with `open` and `close` taken
   * literally) matches `text`: `open` at `start`, whitespace up to
   * `groupStart`, the group up to `groupEnd`, whitespace up to `closeAt` and
   * `close` there.
   */
  predicate IsMatch(text: string, open: string, close: string,
                    start: nat, groupStart: nat, groupEnd: nat, closeAt: nat)
  {
    OccursAt(text, open, start)
    && start + |open| <= groupStart <= groupEnd <= closeAt
    && OccursAt(text, close, closeAt)
    && SpaceBetween(text, start + |open|, groupStart)
    && SpaceBetween(text, groupEnd, closeAt)
  }

  /**
   * Where group 1 of `re.search(open\s*(.*?)\s*close, text, re.DOTALL)`
   * lies, as the regular-expression engine finds it: the first `open`, then
   * all the whitespace after it (greedy `\s*`), then the shortest group that
   * only whitespace separates from a `close` (lazy `.*?`), which is the one
   * before the first `close` after that `open`.
   */
  function Group(text: string, open: string, close: string): (r: Option<(nat, nat)>)
    ensures r.Some? ==> r.value.0 <= r.value.1 <= |text|
    ensures r.Some? && r.value.0 < r.value.1 ==> !IsSpace(text[r.value.0]) && !IsSpace(text[r.value.1 - 1])
  {
    match Find(text, open, 0)
    case None => None
    case Some(p) =>
      match Find(text, close, p + |open|)
      case None => None
      case Some(c) =>
        var gs := SkipSpace(text, p + |open|, c);
        Some((gs, SkipSpaceBack(text, gs, c)))
  }

  /**
   * `extract_tag(text, tag)`: group 1 of the match, or `""` when there is
   * none. The `\s*` on either side of the group leave it no whitespace at
   * its ends; `ExtractTagIsSearch` says which match it comes from.
   */
  function ExtractTag(text: string, tag: TagName := DefaultTag): (r: string)
    ensures |r| <= |text|
    ensures r == [] || (!IsSpace(r[0]) && !IsSpace(r[|r| - 1]))
  {
    match Group(text, OpenTag(tag), CloseTag(tag))
    case None => ""
    case Some((gs, ge)) => text[gs..ge]
  }

  /**
   * `Group` finds the match `re.search` reports: none exactly when the
   * pattern does not match, and otherwise the group of the match the engine
   * prefers, which starts at the leftmost `open`, takes as much leading
   * whitespace as it can and then as short a group as it can.
   */
  lemma GroupIsSearch(text: string, open: string, close: string)
    requires close != [] && !IsSpace(close[0])
    ensures Group(text, open, close).None? <==>
              forall s: nat, gs: nat, ge: nat, c: nat :: !IsMatch(text, open, close, s, gs, ge, c)
    ensures Group(text, open, close).Some? ==>
              exists s: nat, c: nat ::
                IsMatch(text, open, close, s, Group(text, open, close).value.0, Group(text, open, close).value.1, c)
                && (forall s': nat, gs': nat, ge': nat, c': nat :: IsMatch(text, open, close, s', gs', ge', c') ==>
                      s <= s'
                      && (s' == s ==> gs' <= Group(text, open, close).value.0)
                      && (s' == s && gs' == Group(text, open, close).value.0 ==>
                            Group(text, open, close).value.1 <= ge'))
  {
    if Group(text, open, close).Some? {
      var p, c := PreferredMatch(text, open, close);
      forall s': nat, gs': nat, ge': nat, c': nat | IsMatch(text, open, close, s', gs', ge', c')
        ensures p <= s'
      {
        MatchAfterFirst(text, open, close, s', gs', ge', c');
      }
    } else {
      forall s: nat, gs: nat, ge: nat, c: nat ensures !IsMatch(text, open, close, s, gs, ge, c) {
        if IsMatch(text, open, close, s, gs, ge, c) {
          MatchAfterFirst(text, open, close, s, gs, ge, c);
        }
      }
    }
  }

  /**
   * Every match starts at or after the first `open`; one that starts there
   * closes no earlier than the first `close` after it.
   */
  lemma MatchAfterFirst(text: string, open: string, close: string, s: nat, gs: nat, ge: nat, c: nat)
    requires IsMatch(text, open, close, s, gs, ge, c)
    ensures Find(text, open, 0).Some? && Find(text, open, 0).value <= s
    ensures Find(text, close, Find(text, open, 0).value + |open|).Some?
    ensures s == Find(text, open, 0).value ==> Find(text, close, s + |open|).value <= c
    ensures Group(text, open, close).Some?
  {
  }

  /** `Group` when the first `open` is at `p` and the first `close` after it at `c`. */
  lemma GroupAt(text: string, open: string, close: string, p: nat, c: nat)
    requires Find(text, open, 0) == Some(p) && Find(text, close, p + |open|) == Some(c)
    ensures Group(text, open, close) == Some((SkipSpace(text, p + |open|, c),
                                              SkipSpaceBack(text, SkipSpace(text, p + |open|, c), c)))
  {
    assert p + |open| <= c <= |text|;
  }

  /**
   * The match whose group `Group` returns starts at the first `open` (at
   * `p`) and closes at the first `close` after it (at `c`); a match that
   * starts at the same `open` has no more leading whitespace and, with the
   * same leading whitespace, no shorter group.
   */
  lemma PreferredMatch(text: string, open: string, close: string) returns (p: nat, c: nat)
    requires close != [] && !IsSpace(close[0]) && Group(text, open, close).Some?
    ensures Find(text, open, 0) == Some(p) && Find(text, close, p + |open|) == Some(c)
    ensures IsMatch(text, open, close, p, Group(text, open, close).value.0, Group(text, open, close).value.1, c)
    ensures forall gs': nat, ge': nat, c': nat :: IsMatch(text, open, close, p, gs', ge', c') ==>
              gs' <= Group(text, open, close).value.0
              && (gs' == Group(text, open, close).value.0 ==> Group(text, open, close).value.1 <= ge')
  {
    p := Find(text, open, 0).value;
    c := Find(text, close, p + |open|).value;
    GroupAt(text, open, close, p, c);
    assert !IsSpace(text[c]) by {
      assert text[c + 0] == close[0];
    }
    forall gs': nat, ge': nat, c': nat | IsMatch(text, open, close, p, gs', ge', c')
      ensures gs' <= Group(text, open, close).value.0
              && (gs' == Group(text, open, close).value.0 ==> Group(text, open, close).value.1 <= ge')
    {
      GreedyThenLazy(text, p + |open|, c, gs', ge', c');
    }
  }

  /**
   * The two quantifiers of the pattern: leading whitespace that ends before
   * the first non-blank character at or after `a` is no longer than all of
   * it (greedy `\s*`), and with all of it taken, a group that only
   * whitespace separates from a later position ends no earlier than the
   * group before the trailing whitespace at `c` (lazy `.*?`).
   */
  lemma GreedyThenLazy(text: string, a: nat, c: nat, gs': nat, ge': nat, c': nat)
    requires a <= c <= c' && c < |text| && !IsSpace(text[c])
    requires a <= gs' <= ge' <= c' <= |text| && SpaceBetween(text, a, gs') && SpaceBetween(text, ge', c')
    ensures gs' <= SkipSpace(text, a, c)
    ensures gs' == SkipSpace(text, a, c) ==> SkipSpaceBack(text, gs', c) <= ge'
  {
  }

  /** Because the group is lazy, it never holds `close`. */
  lemma GroupHasNoClose(text: string, open: string, close: string)
    requires close != [] && !IsSpace(close[0]) && Group(text, open, close).Some?
    ensures var (gs, ge) := Group(text, open, close).value;
            forall j :: !OccursAt(text[gs..ge], close, j)
  {
    var p, c := PreferredMatch(text, open, close);
    var (gs, ge) := Group(text, open, close).value;
    var r := text[gs..ge];
    forall j: nat ensures !OccursAt(r, close, j) {
      if j + |close| <= |r| {
        assert !OccursAt(text, close, gs + j);
      }
    }
  }

  /**
   * The group is the text between the first `open` and the first `close`
   * after it, stripped.
   */
  lemma GroupIsStripped(text: string, open: string, close: string)
    requires Group(text, open, close).Some?
    ensures var a := Find(text, open, 0).value + |open|;
            var (gs, ge) := Group(text, open, close).value;
            text[gs..ge] == Strip(text[a..Find(text, close, a).value])
  {
    var p := Find(text, open, 0).value;
    var a := p + |open|;
    var c := Find(text, close, a).value;
    var gs, ge := StripSlice(text, a, c);
    assert Group(text, open, close) == Some((gs, ge)) by {
      GroupAt(text, open, close, p, c);
    }
    assert text[gs..ge] == Strip(text[a..c]);
  }

  /** The first region wins: text after its `close` does not move the group. */
  lemma GroupFirstRegion(text: string, open: string, close: string, more: string)
    requires Group(text, open, close).Some?
    ensures Group(text + more, open, close) == Group(text, open, close)
  {
    var p := Find(text, open, 0).value;
    var a := p + |open|;
    var c := Find(text, close, a).value;
    var gs := SkipSpace(text, a, c);
    var ge := SkipSpaceBack(text, gs, c);
    assert Group(text, open, close) == Some((gs, ge)) by {
      GroupAt(text, open, close, p, c);
    }
    assert Find(text + more, open, 0) == Some(p) by {
      FindExtend(text, more, open, 0);
    }
    assert Find(text + more, close, a) == Some(c) by {
      FindExtend(text, more, close, a);
    }
    assert SkipSpace(text + more, a, c) == gs && SkipSpaceBack(text + more, gs, c) == ge by {
      SkipSpaceExtend(text, more, a, c);
      SkipSpaceExtend(text, more, gs, c);
    }
    GroupAt(text + more, open, close, p, c);
  }

  /** `</tag>` starts with `<`, which is not whitespace. */
  lemma CloseTagStart(tag: string)
    ensures CloseTag(tag) != [] && !IsSpace(CloseTag(tag)[0])
  {
  }

  /**
   * `extract_tag` returns `""` exactly when the pattern does not match, and
   * otherwise the group of the match `re.search` reports: the leftmost
   * `<tag>`, as much whitespace after it as possible, then the shortest
   * group that only whitespace separates from a `</tag>`.
   */
  lemma ExtractTagIsSearch(text: string, tag: TagName)
    ensures Group(text, OpenTag(tag), CloseTag(tag)).None? <==>
              forall s: nat, gs: nat, ge: nat, c: nat :: !IsMatch(text, OpenTag(tag), CloseTag(tag), s, gs, ge, c)
    ensures Group(text, OpenTag(tag), CloseTag(tag)).None? ==> ExtractTag(text, tag) == ""
    ensures Group(text, OpenTag(tag), CloseTag(tag)).Some? ==>
              exists s: nat, gs: nat, ge: nat, c: nat ::
                IsMatch(text, OpenTag(tag), CloseTag(tag), s, gs, ge, c) && ExtractTag(text, tag) == text[gs..ge]
                && (forall s': nat, gs': nat, ge': nat, c': nat ::
                      IsMatch(text, OpenTag(tag), CloseTag(tag), s', gs', ge', c') ==>
                        s <= s' && (s' == s ==> gs' <= gs) && (s' == s && gs' == gs ==> ge <= ge'))
  {
    CloseTagStart(tag);
    GroupIsSearch(text, OpenTag(tag), CloseTag(tag));
  }

  /**
   * The result is the text between the first `<tag>` and the first `</tag>`
   * after it, with the whitespace at both ends removed.
   */
  lemma ExtractTagIsStripped(text: string, tag: TagName)
    requires Group(text, OpenTag(tag), CloseTag(tag)).Some?
    ensures var a := Find(text, OpenTag(tag), 0).value + |OpenTag(tag)|;
            ExtractTag(text, tag) == Strip(text[a..Find(text, CloseTag(tag), a).value])
  {
    GroupIsStripped(text, OpenTag(tag), CloseTag(tag));
  }

  /** Because the group is lazy, the result never holds `</tag>`. */
  lemma ExtractTagHasNoCloseTag(text: string, tag: TagName)
    ensures forall j :: !OccursAt(ExtractTag(text, tag), CloseTag(tag), j)
  {
    if Group(text, OpenTag(tag), CloseTag(tag)).Some? {
      CloseTagStart(tag);
      GroupHasNoClose(text, OpenTag(tag), CloseTag(tag));
    }
  }

  /** The result has no whitespace at either end, so stripping it changes nothing. */
  lemma ExtractTagTrimmed(text: string, tag: TagName)
    ensures var r := ExtractTag(text, tag);
            (r == [] || (!IsSpace(r[0]) && !IsSpace(r[|r| - 1]))) && Strip(r) == r
  {
    if Group(text, OpenTag(tag), CloseTag(tag)).Some? {
      GroupIsStripped(text, OpenTag(tag), CloseTag(tag));
      StripTrimmed(ExtractTag(text, tag));
    }
  }

  /** The first region wins: text after its `</tag>` does not change the result. */
  lemma ExtractTagFirstRegion(text: string, tag: TagName, more: string)
    requires Group(text, OpenTag(tag), CloseTag(tag)).Some?
    ensures ExtractTag(text + more, tag) == ExtractTag(text, tag)
  {
    GroupFirstRegion(text, OpenTag(tag), CloseTag(tag), more);
    var (gs, ge) := Group(text, OpenTag(tag), CloseTag(tag)).value;
    assert (text + more)[gs..ge] == text[gs..ge];
  }

  // ---------------------------------------------------------------------------
  // generate_esql

  /** What `generate_esql` reads besides the question: the prompt, the index, the date, the field metadata and the model. */
  datatype EsqlContext = EsqlContext(
    esqlPrompt: string,
    indexName: string,
    todaysDate: string,
    mapping: Json,
    dumps: Json -> string,
    generateText: string -> string)

  /** The names the ESQL prompt may use as replacement fields. */
  const EsqlKeys: set<string> := {"user_query", "index_name", "todays_date", "mapping"}

  /** The keyword arguments `esql_prompt.format` receives; `dumps` is `json.dumps(…, indent=1)`. */
  function EsqlArgs(ctx: EsqlContext, question: string): (args: map<string, string>)
    ensures args.Keys == EsqlKeys
    ensures args["user_query"] == question && args["index_name"] == ctx.indexName
            && args["todays_date"] == ctx.todaysDate && args["mapping"] == ctx.dumps(ctx.mapping)
  {
    map["user_query" := question, "index_name" := ctx.indexName,
        "todays_date" := ctx.todaysDate, "mapping" := ctx.dumps(ctx.mapping)]
  }

  /**
   * `generate_esql(question)`: the model answers the formatted prompt and the
   * query is the `sql_query` region of its answer. `None` stands for the
   * exception `format` raises on a template it cannot fill.
   */
  function GenerateEsql(ctx: EsqlContext, question: string): (r: Option<string>)
    ensures r.Some? <==> Format(ctx.esqlPrompt, EsqlArgs(ctx, question)).Some?
    ensures r.Some? ==>
              r.value == ExtractTag(ctx.generateText(Format(ctx.esqlPrompt, EsqlArgs(ctx, question)).value), DefaultTag)
  {
    var formatted :- Format(ctx.esqlPrompt, EsqlArgs(ctx, question));
    Some(ExtractTag(ctx.generateText(formatted), DefaultTag))
  }

  /**
   * For a prompt written as tokens, `generate_esql` fails exactly when the
   * prompt has a replacement field other than the four it is given, and
   * otherwise hands the model the prompt with those four filled in.
   */
  lemma GenerateEsqlPrompt(ctx: EsqlContext, question: string, tokens: seq<Piece>)
    requires ctx.esqlPrompt == Source(tokens)
    ensures GenerateEsql(ctx, question).Some? <==>
              forall i :: 0 <= i < |tokens| && tokens[i].Field? ==>
                tokens[i].name in EsqlKeys
    ensures Bound(tokens, EsqlArgs(ctx, question)) ==>
              GenerateEsql(ctx, question)
              == Some(ExtractTag(ctx.generateText(Render(tokens, EsqlArgs(ctx, question))), DefaultTag))
  {
    EsqlPromptFormat(ctx, question, tokens);
  }

  /**
   * Formatting a prompt written as tokens with the four arguments fails
   * exactly when a replacement field names none of them, and otherwise fills
   * every field with its argument.
   */
  lemma EsqlPromptFormat(ctx: EsqlContext, question: string, tokens: seq<Piece>)
    requires ctx.esqlPrompt == Source(tokens)
    ensures Bound(tokens, EsqlArgs(ctx, question)) <==>
              forall i :: 0 <= i < |tokens| && tokens[i].Field? ==> tokens[i].name in EsqlKeys
    ensures Format(ctx.esqlPrompt, EsqlArgs(ctx, question))
            == if Bound(tokens, EsqlArgs(ctx, question)) then Some(Render(tokens, EsqlArgs(ctx, question))) else None
  {
    FormatPieces(tokens, EsqlArgs(ctx, question));
  }

  // ---------------------------------------------------------------------------
  // run_all_questions

  /** The table `execute_esql_query` builds: column names and rows. */
  datatype Frame = Frame(columns: seq<string>, rows: seq<seq<Json>>)

  /** `df.empty`: the table has no rows or no columns. */
  predicate IsEmpty(frame: Frame)
  {
    |frame.rows| == 0 || |frame.columns| == 0
  }

  /** Why a question stops the run. */
  datatype RunError = PromptError | QueryError(reason: string)

  /** What is reported for one question after its query. */
  datatype Outcome =
    | NoQuery             // "No query generated or query is empty."
    | NoResults           // "No results found."
    | Results(frame: Frame)
    | Raised(error: RunError)

  /** What is printed for one question: its number, the question, the query and the outcome. */
  datatype Step = Step(number: nat, question: string, query: Option<string>, outcome: Outcome)

  /** The query is run exactly when it is not blank: `query.strip()` is truthy. */
  predicate Executes(query: string)
  {
    Strip(query) != ""
  }

  /**
   * The outcome of one question whose query is `query`: a blank query is
   * reported as missing and never run; any other query is run, and an empty
   * table is reported as no results, a non-empty one as itself.
   */
  function QueryOutcome(query: string, execute: string -> Result<Frame, string>): (o: Outcome)
    ensures o == NoQuery <==> AllSpace(query)
    ensures !AllSpace(query) && execute(query).Err? ==> o == Raised(QueryError(execute(query).error))
    ensures !AllSpace(query) && execute(query).Ok? ==>
              (o == NoResults <==> IsEmpty(execute(query).value))
              && (!IsEmpty(execute(query).value) ==> o == Results(execute(query).value))
  {
    if !Executes(query) then NoQuery
    else match execute(query)
      case Err(e) => Raised(QueryError(e))
      case Ok(frame) => if IsEmpty(frame) then NoResults else Results(frame)
  }

  /**
   * What is reported for the question numbered `number`, when `generate`
   * turns questions into queries (`None` when it raises).
   */
  function StepFor(generate: string -> Option<string>, execute: string -> Result<Frame, string>,
                   number: nat, question: string): Step
  {
    match generate(question)
    case None => Step(number, question, None, Raised(PromptError))
    case Some(query) => Step(number, question, Some(query), QueryOutcome(query, execute))
  }

  /**
   * What `run_all_questions` reports for `questions` when the first of them
   * is numbered `first`: a step per question, up to and including the first
   * one that raises, since nothing in the loop catches an exception.
   */
  function Run(generate: string -> Option<string>, execute: string -> Result<Frame, string>,
               questions: seq<string>, first: nat): seq<Step>
    decreases |questions|
  {
    if questions == [] then []
    else
      var step := StepFor(generate, execute, first, questions[0]);
      if step.outcome.Raised? then [step] else [step] + Run(generate, execute, questions[1..], first + 1)
  }

  /** A run reports the questions in list order, numbered on from `first`, and at least one of them. */
  lemma {:induction false} RunSteps(generate: string -> Option<string>, execute: string -> Result<Frame, string>,
                                    questions: seq<string>, first: nat)
    ensures var r := Run(generate, execute, questions, first);
            |r| <= |questions| && (r == [] <==> questions == [])
            && (forall i :: 0 <= i < |r| ==> r[i] == StepFor(generate, execute, first + i, questions[i]))
    decreases |questions|
  {
    if questions != [] {
      var step := StepFor(generate, execute, first, questions[0]);
      if !step.outcome.Raised? {
        RunSteps(generate, execute, questions[1..], first + 1);
        var rest := Run(generate, execute, questions[1..], first + 1);
        var r := [step] + rest;
        assert Run(generate, execute, questions, first) == r;
        forall i | 1 <= i < |r| ensures r[i] == StepFor(generate, execute, first + i, questions[i]) {
          assert r[i] == rest[i - 1] && questions[1..][i - 1] == questions[i];
        }
      }
    }
  }

  /**
   * Every question but the last one reported went through without raising,
   * and a run ends early only at a question that raised.
   */
  lemma {:induction false} RunStops(generate: string -> Option<string>, execute: string -> Result<Frame, string>,
                                    questions: seq<string>, first: nat)
    ensures var r := Run(generate, execute, questions, first);
            (forall i :: 0 <= i < |r| - 1 ==> !r[i].outcome.Raised?)
            && (|r| < |questions| ==> r[|r| - 1].outcome.Raised?)
    decreases |questions|
  {
    if questions != [] {
      var step := StepFor(generate, execute, first, questions[0]);
      if !step.outcome.Raised? {
        RunStops(generate, execute, questions[1..], first + 1);
        var rest := Run(generate, execute, questions[1..], first + 1);
        var r := [step] + rest;
        assert Run(generate, execute, questions, first) == r;
        forall i | 1 <= i < |r| ensures r[i] == rest[i - 1] { }
        if |r| < |questions| {
          assert |questions[1..]| > 0;
          assert rest != [] && r[|r| - 1] == rest[|rest| - 1];
        }
      }
    }
  }

  /** A run in which no question raises reports every question. */
  lemma RunComplete(generate: string -> Option<string>, execute: string -> Result<Frame, string>,
                    questions: seq<string>, first: nat)
    requires forall i :: 0 <= i < |questions| ==> !StepFor(generate, execute, first + i, questions[i]).outcome.Raised?
    ensures |Run(generate, execute, questions, first)| == |questions|
  {
    RunSteps(generate, execute, questions, first);
    RunStops(generate, execute, questions, first);
  }

  /**
   * `run_all_questions(questions)`: a pass of the loop per question, with the
   * questions numbered from 1, until one raises. `generate` is
   * `generate_esql`, that is `GenerateEsql(ctx, _)` for the notebook's
   * context.
   */
  method RunAllQuestions(generate: string -> Option<string>, execute: string -> Result<Frame, string>,
                         questions: seq<string>)
    returns (steps: seq<Step>)
    ensures steps == Run(generate, execute, questions, 1)
  {
    steps := [];
    for idx := 0 to |questions|
      invariant steps + Run(generate, execute, questions[idx..], idx + 1) == Run(generate, execute, questions, 1)
    {
      var step := AnswerQuestion(generate, execute, idx + 1, questions[idx]);
      assert questions[idx..][1..] == questions[idx + 1..];
      if step.outcome.Raised? {
        return steps + [step];
      }
      steps := steps + [step];
    }
  }

  /** One pass of the loop of `run_all_questions`: generate the query, run it if it is not blank, report. */
  method AnswerQuestion(generate: string -> Option<string>, execute: string -> Result<Frame, string>,
                        number: nat, question: string)
    returns (step: Step)
    ensures step == StepFor(generate, execute, number, question)
  {
    var generated := generate(question);
    if generated.None? {
      return Step(number, question, None, Raised(PromptError));
    }
    var query := generated.value;
    var outcome: Outcome;
    if Executes(query) {
      var result := execute(query);
      if result.Err? {
        return Step(number, question, Some(query), Raised(QueryError(result.error)));
      }
      var frame := result.value;
      if IsEmpty(frame) {
        outcome := NoResults;
      } else {
        outcome := Results(frame);
      }
    } else {
      outcome := NoQuery;
    }
    step := Step(number, question, Some(query), outcome);
  }
}
