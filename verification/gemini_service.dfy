/**
 * The reply handling of the chat assistant's generative-model client: turning a model reply into
 * typed tool commands and into the text shown to the user.
 *
 * The network call itself is not modelled. A reply arrives as its text and the function calls
 * of its first candidate, each a name and an argument object whose values are strings or
 * something else.
 */
module GeminiService {
  import opened Wrappers
  import opened Text
  import opened Patterns

  // ---------------------------------------------------------------------------
  // Tool commands
  // ---------------------------------------------------------------------------

  datatype ToolType = ShowChart | ShowActivity | ShowWorkoutHistory
  datatype ChartType = Bar | Line | Pie
  datatype TimeRange = Day | Week | Month | Year
  datatype MetricType = Steps | Calories | Exercise | Workouts | StandHours

  /** One command for the chat screen. The random `id` of each command is not modelled. */
  datatype ToolResponse = ToolResponse(
    toolType: ToolType,
    chartType: Option<ChartType>,
    timeRange: Option<TimeRange>,
    metric: Option<MetricType>,
    title: Option<string>,
    description: Option<string>)

  function ToolTypeRaw(t: ToolType): string {
    match t
    case ShowChart => "showChart"
    case ShowActivity => "showActivity"
    case ShowWorkoutHistory => "showWorkoutHistory"
  }

  /** `ToolType(rawValue:)`. */
  function ToolTypeFromRaw(s: string): (r: Option<ToolType>)
    ensures forall t :: r == Some(t) <==> ToolTypeRaw(t) == s
  {
    if s == "showChart" then Some(ShowChart)
    else if s == "showActivity" then Some(ShowActivity)
    else if s == "showWorkoutHistory" then Some(ShowWorkoutHistory)
    else None
  }

  function ChartTypeRaw(c: ChartType): string {
    match c
    case Bar => "bar"
    case Line => "line"
    case Pie => "pie"
  }

  /** `ChartType(rawValue:)`. */
  function ChartTypeFromRaw(s: string): (r: Option<ChartType>)
    ensures forall c :: r == Some(c) <==> ChartTypeRaw(c) == s
  {
    if s == "bar" then Some(Bar)
    else if s == "line" then Some(Line)
    else if s == "pie" then Some(Pie)
    else None
  }

  function TimeRangeRaw(t: TimeRange): string {
    match t
    case Day => "day"
    case Week => "week"
    case Month => "month"
    case Year => "year"
  }

  /** `TimeRange(rawValue:)`. */
  function TimeRangeFromRaw(s: string): (r: Option<TimeRange>)
    ensures forall t :: r == Some(t) <==> TimeRangeRaw(t) == s
  {
    if s == "day" then Some(Day)
    else if s == "week" then Some(Week)
    else if s == "month" then Some(Month)
    else if s == "year" then Some(Year)
    else None
  }

  function MetricRaw(m: MetricType): string {
    match m
    case Steps => "steps"
    case Calories => "calories"
    case Exercise => "exercise"
    case Workouts => "workouts"
    case StandHours => "standHours"
  }

  /** `MetricType(rawValue:)`. */
  function MetricFromRaw(s: string): (r: Option<MetricType>)
    ensures forall m :: r == Some(m) <==> MetricRaw(m) == s
  {
    if s == "steps" then Some(Steps)
    else if s == "calories" then Some(Calories)
    else if s == "exercise" then Some(Exercise)
    else if s == "workouts" then Some(Workouts)
    else if s == "standHours" then Some(StandHours)
    else None
  }

  function OrElse(o: Option<string>, d: string): string {
    if o.Some? then o.value else d
  }

  /**
   * The chart command built from the looked-up parameters. A missing chart type, range or metric
   * takes the default bar / week / steps; a present value that names no case gives no value at
   * all rather than the default. Title and description are copied.
   */
  function ChartResponse(chart: Option<string>, range: Option<string>, metric: Option<string>,
                         title: Option<string>, description: Option<string>): (r: ToolResponse)
    ensures r.toolType == ShowChart && r.title == title && r.description == description
    ensures chart.None? ==> r.chartType == Some(Bar)
    ensures range.None? ==> r.timeRange == Some(Week)
    ensures metric.None? ==> r.metric == Some(Steps)
    ensures forall c :: chart == Some(ChartTypeRaw(c)) ==> r.chartType == Some(c)
    ensures forall t :: range == Some(TimeRangeRaw(t)) ==> r.timeRange == Some(t)
    ensures forall m :: metric == Some(MetricRaw(m)) ==> r.metric == Some(m)
    ensures chart.Some? && ChartTypeFromRaw(chart.value).None? ==> r.chartType.None?
    ensures range.Some? && TimeRangeFromRaw(range.value).None? ==> r.timeRange.None?
    ensures metric.Some? && MetricFromRaw(metric.value).None? ==> r.metric.None?
  {
    ToolResponse(ShowChart,
      ChartTypeFromRaw(OrElse(chart, "bar")),
      TimeRangeFromRaw(OrElse(range, "week")),
      MetricFromRaw(OrElse(metric, "steps")),
      title, description)
  }

  /** The workout-history command: only a time range, defaulting to week when missing. */
  function HistoryResponse(range: Option<string>): (r: ToolResponse)
    ensures r.toolType == ShowWorkoutHistory
    ensures r.chartType.None? && r.metric.None? && r.title.None? && r.description.None?
    ensures range.None? ==> r.timeRange == Some(Week)
    ensures forall t :: range == Some(TimeRangeRaw(t)) ==> r.timeRange == Some(t)
    ensures range.Some? && TimeRangeFromRaw(range.value).None? ==> r.timeRange.None?
  {
    ToolResponse(ShowWorkoutHistory, None, TimeRangeFromRaw(OrElse(range, "week")), None, None, None)
  }

  /** The activity-rings command has every optional field empty. */
  const ActivityResponse: ToolResponse := ToolResponse(ShowActivity, None, None, None, None, None)

  // ---------------------------------------------------------------------------
  // Structured function calls
  // ---------------------------------------------------------------------------

  /** A JSON argument value; only whether it is a string matters to the decoder. */
  datatype JsonValue = JString(s: string) | JOther

  datatype FunctionCall = FunctionCall(name: string, args: map<string, JsonValue>)

  /** Decoding the arguments as `[String: String]`: it fails as soon as one value is not a string. */
  function DecodeStringMap(args: map<string, JsonValue>): (r: Option<map<string, string>>)
    ensures r.Some? <==> forall k :: k in args ==> args[k].JString?
    ensures r.Some? ==> r.value.Keys == args.Keys
    ensures r.Some? ==> forall k :: k in args ==> r.value[k] == args[k].s
  {
    if forall k :: k in args ==> args[k].JString? then Some(map k | k in args :: args[k].s)
    else None
  }

  function Lookup(m: map<string, string>, k: string): Option<string> {
    if k in m then Some(m[k]) else None
  }

  /** The string argument `k` of a call, when present. */
  function StringArg(call: FunctionCall, k: string): Option<string> {
    if k in call.args && call.args[k].JString? then Some(call.args[k].s) else None
  }

  /** `processToolCall`: one structured function call as a command, or nothing. */
  function ProcessToolCall(call: FunctionCall): (r: Option<ToolResponse>)
    ensures r.Some? ==> ToolTypeRaw(r.value.toolType) == call.name
    ensures ToolTypeFromRaw(call.name).None? ==> r.None?
    ensures call.name == "showActivity" ==> r == Some(ActivityResponse)
    ensures call.name == "showChart" || call.name == "showWorkoutHistory" ==>
      (r.Some? <==> forall k :: k in call.args ==> call.args[k].JString?)
    ensures r.Some? && r.value.toolType == ShowChart ==>
      r.value == ChartResponse(StringArg(call, "chartType"), StringArg(call, "timeRange"),
        StringArg(call, "metric"), StringArg(call, "title"), StringArg(call, "description"))
    ensures r.Some? && r.value.toolType == ShowWorkoutHistory ==>
      r.value == HistoryResponse(StringArg(call, "timeRange"))
  {
    match ToolTypeFromRaw(call.name)
    case None => None
    case Some(ShowActivity) => Some(ActivityResponse)
    case Some(ShowChart) =>
      (match DecodeStringMap(call.args)
       case None => None
       case Some(p) =>
         Some(ChartResponse(Lookup(p, "chartType"), Lookup(p, "timeRange"), Lookup(p, "metric"),
           Lookup(p, "title"), Lookup(p, "description"))))
    case Some(ShowWorkoutHistory) =>
      (match DecodeStringMap(call.args)
       case None => None
       case Some(p) => Some(HistoryResponse(Lookup(p, "timeRange"))))
  }

  /** The commands of the calls that convert, in call order. */
  function Converted(calls: seq<FunctionCall>): (r: seq<ToolResponse>)
    ensures |r| <= |calls|
  {
    if calls == [] then []
    else
      var last := ProcessToolCall(calls[|calls| - 1]);
      Converted(calls[..|calls| - 1]) + (if last.Some? then [last.value] else [])
  }

  /** Converting one more call appends its command, if any. */
  lemma ConvertedStep(calls: seq<FunctionCall>, i: nat)
    requires i < |calls|
    ensures var last := ProcessToolCall(calls[i]);
      Converted(calls[..i + 1]) == Converted(calls[..i]) + (if last.Some? then [last.value] else [])
  {
    var next := calls[..i + 1];
    assert next[..|next| - 1] == calls[..i];
    assert next[|next| - 1] == calls[i];
  }

  /** Every converted command names one of the calls, and a call that converts is never dropped. */
  lemma {:induction false} ConvertedFromCalls(calls: seq<FunctionCall>)
    ensures forall x :: x in Converted(calls) ==> exists c :: c in calls && ProcessToolCall(c) == Some(x)
    ensures forall c :: c in calls && ProcessToolCall(c).Some? ==> ProcessToolCall(c).value in Converted(calls)
  {
    if calls != [] {
      var init := calls[..|calls| - 1];
      ConvertedFromCalls(init);
      assert calls == init + [calls[|calls| - 1]];
    }
  }

  /** Conversion keeps call order: the commands of two runs of calls are those of each, in turn. */
  lemma {:induction false} ConvertedAppend(a: seq<FunctionCall>, b: seq<FunctionCall>)
    ensures Converted(a + b) == Converted(a) + Converted(b)
  {
    if b == [] {
      assert a + b == a;
    } else {
      var ab := a + b;
      assert ab[..|ab| - 1] == a + b[..|b| - 1];
      assert ab[|ab| - 1] == b[|b| - 1];
      ConvertedAppend(a, b[..|b| - 1]);
    }
  }

  // ---------------------------------------------------------------------------
  // Commands written into the reply text
  // ---------------------------------------------------------------------------

  /** Newlines become spaces and backslashes are dropped before a block body is parsed. */
  function CleanBody(b: string): (r: string)
    ensures '\n' !in r && '\\' !in r
    ensures |r| <= |b|
  {
    var spaced := ReplaceChar(b, '\n', ' ');
    RemoveCharMembers(spaced, '\\', '\n');
    RemoveChar(spaced, '\\')
  }

  /** A body without newlines and backslashes is parsed as it stands. */
  lemma CleanBodyPlain(b: string)
    requires '\n' !in b && '\\' !in b
    ensures CleanBody(b) == b
  {
    var spaced := ReplaceChar(b, '\n', ' ');
    assert spaced == b;
    RemoveCharAbsent(b, '\\');
  }

  /** `parseToolResponseFromText`: dispatch on the first `"name": "…"` value of a block body. */
  function ParseToolResponseFromText(json: string): (r: Option<ToolResponse>)
    ensures r.Some? ==> ExtractStringValue(json, "name") == Some(ToolTypeRaw(r.value.toolType))
    ensures ExtractStringValue(json, "name") == Some("showActivity") ==> r == Some(ActivityResponse)
    ensures ExtractStringValue(json, "name") == Some("showChart") ==>
      r == Some(ChartResponse(ExtractStringValue(json, "chartType"), ExtractStringValue(json, "timeRange"),
        ExtractStringValue(json, "metric"), ExtractStringValue(json, "title"),
        ExtractStringValue(json, "description")))
    ensures ExtractStringValue(json, "name") == Some("showWorkoutHistory") ==>
      r == Some(HistoryResponse(ExtractStringValue(json, "timeRange")))
  {
    match ExtractStringValue(json, "name")
    case None => None
    case Some(name) =>
      match ToolTypeFromRaw(name)
      case None => None
      case Some(ShowActivity) => Some(ActivityResponse)
      case Some(ShowChart) =>
        Some(ChartResponse(ExtractStringValue(json, "chartType"), ExtractStringValue(json, "timeRange"),
          ExtractStringValue(json, "metric"), ExtractStringValue(json, "title"),
          ExtractStringValue(json, "description")))
      case Some(ShowWorkoutHistory) => Some(HistoryResponse(ExtractStringValue(json, "timeRange")))
  }

  /** A block body that starts with `"name": "showActivity"` is the activity command, whatever follows. */
  lemma ActivityBodyParses(rest: string)
    requires '\n' !in rest && '\\' !in rest
    ensures ParseToolResponseFromText(CleanBody(Quoted("name") + ": \"showActivity\"" + rest)) == Some(ActivityResponse)
  {
    var body := Quoted("name") + ": \"showActivity\"" + rest;
    assert body == Quoted("name") + ": \"" + "showActivity" + "\"" + rest;
    assert '\n' !in body && '\\' !in body;
    CleanBodyPlain(body);
    ExtractLeadingPair("name", "showActivity", rest);
  }

  /** A missing name, or one that names no tool, gives no command. */
  lemma ParseNeedsToolName(json: string)
    requires ExtractStringValue(json, "name").None? ||
      ToolTypeFromRaw(ExtractStringValue(json, "name").value).None?
    ensures ParseToolResponseFromText(json).None?
  {
  }

  predicate WithinText(t: string, ss: seq<Span>) {
    forall k :: 0 <= k < |ss| ==> ss[k].open < ss[k].close <= |t|
  }

  /** The values of the present entries of `os`, in order. */
  function Somes<T>(os: seq<Option<T>>): (r: seq<T>)
    ensures |r| <= |os|
  {
    if os == [] then []
    else Somes(os[..|os| - 1]) + (if os[|os| - 1].Some? then [os[|os| - 1].value] else [])
  }

  /** The present entries of two runs are those of each, in turn. */
  lemma {:induction false} SomesAppend<T>(a: seq<Option<T>>, b: seq<Option<T>>)
    ensures Somes(a + b) == Somes(a) + Somes(b)
  {
    if b == [] {
      assert a + b == a;
    } else {
      var ab := a + b;
      assert ab[..|ab| - 1] == a + b[..|b| - 1];
      SomesAppend(a, b[..|b| - 1]);
    }
  }

  /** A value is among the present entries exactly when some entry holds it. */
  lemma {:induction false} SomesMembers<T>(os: seq<Option<T>>)
    ensures forall x :: x in Somes(os) <==> Some(x) in os
  {
    if os != [] {
      var init := os[..|os| - 1];
      SomesMembers(init);
      assert os == init + [os[|os| - 1]];
    }
  }

  /** The command the body of block `s` parses to, once cleaned, if any. */
  function BlockCommand(t: string, s: Span): Option<ToolResponse>
    requires s.open < s.close <= |t|
  {
    ParseToolResponseFromText(CleanBody(Body(t, s)))
  }

  /** The parse of every block body of `ss`, position by position. */
  function Commands(t: string, ss: seq<Span>): (r: seq<Option<ToolResponse>>)
    requires WithinText(t, ss)
    ensures |r| == |ss|
    ensures forall i :: 0 <= i < |ss| ==> r[i] == BlockCommand(t, ss[i])
  {
    if ss == [] then [] else [BlockCommand(t, ss[0])] + Commands(t, ss[1..])
  }

  /** The commands parsed from the bodies of `ss`, in order, skipping bodies that do not parse. */
  function Parsed(t: string, ss: seq<Span>): (r: seq<ToolResponse>)
    requires WithinText(t, ss)
    ensures |r| <= |ss|
  {
    Somes(Commands(t, ss))
  }

  /** Parsing one more body appends its command, if any. */
  lemma ParsedStep(t: string, ss: seq<Span>, i: nat)
    requires WithinText(t, ss) && i < |ss|
    ensures WithinText(t, ss[..i]) && WithinText(t, ss[..i + 1])
    ensures var last := BlockCommand(t, ss[i]);
      Parsed(t, ss[..i + 1]) == Parsed(t, ss[..i]) + (if last.Some? then [last.value] else [])
  {
    var c := Commands(t, ss[..i + 1]);
    assert c[..i] == Commands(t, ss[..i]);
    assert c[i] == BlockCommand(t, ss[i]);
  }

  /** Each command is the parse of one of the bodies, and a body that parses is never dropped. */
  lemma ParsedFromBlocks(t: string, ss: seq<Span>)
    requires WithinText(t, ss)
    ensures forall x :: x in Parsed(t, ss) ==> exists i :: 0 <= i < |ss| && BlockCommand(t, ss[i]) == Some(x)
    ensures forall i :: 0 <= i < |ss| && BlockCommand(t, ss[i]).Some? ==> BlockCommand(t, ss[i]).value in Parsed(t, ss)
  {
    var cs := Commands(t, ss);
    SomesMembers(cs);
    forall x | x in Parsed(t, ss)
      ensures exists i :: 0 <= i < |ss| && BlockCommand(t, ss[i]) == Some(x)
    {
      var i :| 0 <= i < |cs| && cs[i] == Some(x);
      assert BlockCommand(t, ss[i]) == Some(x);
    }
    forall i | 0 <= i < |ss| && BlockCommand(t, ss[i]).Some?
      ensures BlockCommand(t, ss[i]).value in Parsed(t, ss)
    {
      assert cs[i] == Some(BlockCommand(t, ss[i]).value);
    }
  }

  /** Both runs of a split block list lie within the text. */
  lemma WithinSplit(t: string, a: seq<Span>, b: seq<Span>)
    requires WithinText(t, a + b)
    ensures WithinText(t, a) && WithinText(t, b)
  {
    forall k | 0 <= k < |a|
      ensures a[k].open < a[k].close <= |t|
    {
      assert a[k] == (a + b)[k];
    }
    forall k | 0 <= k < |b|
      ensures b[k].open < b[k].close <= |t|
    {
      assert b[k] == (a + b)[|a| + k];
    }
  }

  /** Parsing keeps the order of the bodies: the commands of two runs of blocks are those of each, in turn. */
  lemma ParsedAppend(t: string, a: seq<Span>, b: seq<Span>)
    requires WithinText(t, a + b)
    ensures WithinText(t, a) && WithinText(t, b)
    ensures Parsed(t, a + b) == Parsed(t, a) + Parsed(t, b)
  {
    WithinSplit(t, a, b);
    assert Commands(t, a + b) == Commands(t, a) + Commands(t, b);
    SomesAppend(Commands(t, a), Commands(t, b));
  }

  /** One command per block of `prefix` in the text whose body parses, in order of appearance. */
  function TextToolResponses(t: string, prefix: string): (r: seq<ToolResponse>)
    ensures |r| <= |Blocks(t, prefix, 0)|
  {
    Parsed(t, Blocks(t, prefix, 0))
  }

  /** `extractToolResponsesFromText`, as a value: never an empty list, nil instead. */
  function ExtractedFromText(t: string, prefix: string): (r: Option<seq<ToolResponse>>)
    ensures r.None? <==> TextToolResponses(t, prefix) == []
    ensures r.Some? ==> r.value == TextToolResponses(t, prefix) && |r.value| > 0
  {
    var rs := TextToolResponses(t, prefix);
    if rs == [] then None else Some(rs)
  }

  /** A text without the prefix holds no commands. */
  lemma ExtractedNeedsPrefix(t: string, prefix: string)
    requires !Contains(t, prefix)
    ensures ExtractedFromText(t, prefix).None?
  {
    BlocksNeedPrefix(t, prefix, 0);
  }

  /** The blocks of `prefix` in the text, parsed one after the other. */
  method ExtractToolResponsesFromText(text: string, prefix: string) returns (r: Option<seq<ToolResponse>>)
    ensures r == ExtractedFromText(text, prefix)
  {
    var matches := Blocks(text, prefix, 0);
    if |matches| == 0 {
      return None;
    }
    assert WithinText(text, matches);
    var responses: seq<ToolResponse> := [];
    var i := 0;
    while i < |matches|
      invariant 0 <= i <= |matches| && WithinText(text, matches[..i])
      invariant responses == Parsed(text, matches[..i])
    {
      var s := matches[i];
      var parsed := BlockCommand(text, s);
      ParsedStep(text, matches, i);
      if parsed.Some? {
        responses := responses + [parsed.value];
      }
      i := i + 1;
    }
    assert matches[..i] == matches;
    if responses == [] {
      r := None;
    } else {
      r := Some(responses);
    }
  }

  // ---------------------------------------------------------------------------
  // The visible text
  // ---------------------------------------------------------------------------

  /** Every `tool_code{…}` block removed, then every `json{…}` block, then the ends trimmed. */
  function Cleaned(text: string): (r: string)
    ensures Trimmed(r)
  {
    Trim(Removed(Removed(text, "tool_code", 0), "json", 0))
  }

  /** Text without either kind of block is only trimmed. */
  lemma CleanedWithoutBlocks(text: string)
    requires Blocks(text, "tool_code", 0) == []
    requires Blocks(Removed(text, "tool_code", 0), "json", 0) == []
    ensures Cleaned(text) == Trim(text)
  {
    RemovedUnchanged(text, "tool_code", 0);
    RemovedUnchanged(text, "json", 0);
  }

  /** `cleanResponseText`. */
  method CleanResponseText(text: string) returns (cleaned: string)
    ensures cleaned == Cleaned(text)
    ensures Trimmed(cleaned)
    ensures !Contains(text, "tool_code") && !Contains(text, "json") ==> cleaned == Trim(text)
  {
    cleaned := text;
    cleaned := Removed(cleaned, "tool_code", 0);
    cleaned := Removed(cleaned, "json", 0);
    cleaned := Trim(cleaned);
    if !Contains(text, "tool_code") && !Contains(text, "json") {
      BlocksNeedPrefix(text, "tool_code", 0);
      RemovedUnchanged(text, "tool_code", 0);
      BlocksNeedPrefix(text, "json", 0);
      RemovedUnchanged(text, "json", 0);
    }
  }

  // ---------------------------------------------------------------------------
  // The whole reply
  // ---------------------------------------------------------------------------

  /**
   * The commands of a reply. Structured calls are used when at least one converts; otherwise the
   * text is scanned for `tool_code` blocks if it mentions `tool_code` anywhere, else for `json`
   * blocks if it mentions `json`. When neither word occurs, the outcome of the structured step
   * stands: nil without calls, an empty list when every call failed to convert.
   */
  function ReplyTools(text: string, calls: seq<FunctionCall>): Option<seq<ToolResponse>> {
    var structured: Option<seq<ToolResponse>> := if calls == [] then None else Some(Converted(calls));
    if structured.Some? && structured.value != [] then structured
    else if Contains(text, "tool_code") then ExtractedFromText(text, "tool_code")
    else if Contains(text, "json") then ExtractedFromText(text, "json")
    else structured
  }

  /** `generateResponse` after the network call: the cleaned text and the commands. */
  method GenerateResponse(text: string, calls: seq<FunctionCall>)
    returns (cleaned: string, tools: Option<seq<ToolResponse>>)
    ensures cleaned == Cleaned(text)
    ensures tools == ReplyTools(text, calls)
  {
    tools := None;
    if |calls| > 0 {
      var responses: seq<ToolResponse> := [];
      var i := 0;
      while i < |calls|
        invariant 0 <= i <= |calls|
        invariant responses == Converted(calls[..i])
      {
        var response := ProcessToolCall(calls[i]);
        ConvertedStep(calls, i);
        if response.Some? {
          responses := responses + [response.value];
        }
        i := i + 1;
      }
      assert calls[..i] == calls;
      tools := Some(responses);
    }
    assert tools == (if calls == [] then None else Some(Converted(calls)));
    if tools.None? || tools.value == [] {
      if Contains(text, "tool_code") {
        tools := ExtractToolResponsesFromText(text, "tool_code");
      } else if Contains(text, "json") {
        tools := ExtractToolResponsesFromText(text, "json");
      }
    }
    cleaned := CleanResponseText(text);
  }

  /** Structured calls that convert win over anything written in the text. */
  lemma StructuredFirst(text: string, calls: seq<FunctionCall>)
    requires Converted(calls) != []
    ensures ReplyTools(text, calls) == Some(Converted(calls))
  {
  }

  /** Calls that all fail to convert are as good as no calls once the text names a block kind. */
  lemma FailedCallsFallBack(text: string, calls: seq<FunctionCall>)
    requires Converted(calls) == []
    requires Contains(text, "tool_code") || Contains(text, "json")
    ensures ReplyTools(text, calls) == ReplyTools(text, [])
  {
  }

  /** `json` blocks are only looked at when the text never mentions `tool_code`. */
  lemma ToolCodeShadowsJson(text: string, calls: seq<FunctionCall>)
    requires Contains(text, "tool_code")
    ensures ReplyTools(text, calls) == Some(Converted(calls)) ||
      ReplyTools(text, calls) == ExtractedFromText(text, "tool_code")
  {
  }

  /** The only way to get an empty command list rather than nil. */
  lemma EmptyListOnlyFromFailedCalls(text: string, calls: seq<FunctionCall>)
    ensures ReplyTools(text, calls) == Some([]) <==>
      calls != [] && Converted(calls) == [] && !Contains(text, "tool_code") && !Contains(text, "json")
  {
  }

  // ---------------------------------------------------------------------------
  // Worked replies
  // ---------------------------------------------------------------------------

  /**
   * Cleaning is not idempotent: removing a block can join the text around it into a new block.
   * `tool_tool_code {x}code {y}` cleans to `tool_code {y}`, which cleans to the empty string.
   */
  lemma CleanedNotIdempotent(t: string)
    requires t == "tool_tool_code {x}code {y}"
    ensures Cleaned(t) == "tool_code {y}"
    ensures Cleaned(Cleaned(t)) == ""
  {
    JoinedBlockRemoved(t);
    var r := Removed(t, "tool_code", 0);
    NoJsonKept(r);
    assert Trimmed(r);
    SingleBlockRemoved(r);
  }

  lemma JoinedBlockRemoved(t: string)
    requires t == "tool_tool_code {x}code {y}"
    ensures Removed(t, "tool_code", 0) == "tool_code {y}"
  {
    JoinedBlocks(t);
    RemovedIsGaps(t, "tool_code", 0);
    assert t[..5] == "tool_";
    assert t[18..] == "code {y}";
    assert Gaps(t, 0, [Span(5, 15, 17)]) == t[..5] + t[18..];
  }

  lemma JoinedBlocks(t: string)
    requires t == "tool_tool_code {x}code {y}"
    ensures Blocks(t, "tool_code", 0) == [Span(5, 15, 17)]
  {
    var p := "tool_code";
    Mismatch(t, p, 0, 5);
    forall i | 1 <= i < 5 ensures !OccursAt(t, p, i) {
      Mismatch(t, p, i, 0);
    }
    JoinedBlockShape(t);
    BlockAtComplete(t, p, Span(5, 15, 17));
    JoinedTailFree(t);
    BlocksSkip(t, p, 0, 5);
    BlocksSkip(t, p, 18, 26);
  }

  lemma JoinedBlockShape(t: string)
    requires t == "tool_tool_code {x}code {y}"
    ensures IsBlock(t, "tool_code", Span(5, 15, 17))
  {
  }

  lemma JoinedTailFree(t: string)
    requires t == "tool_tool_code {x}code {y}"
    ensures forall i :: 18 <= i <= 26 ==> BlockAt(t, "tool_code", i).None?
  {
  }

  lemma SingleBlockRemoved(t: string)
    requires t == "tool_code {y}"
    ensures Removed(t, "tool_code", 0) == []
    ensures Cleaned(t) == []
  {
    var p := "tool_code";
    Infix([], p, " {y}");
    assert [] + p + " {y}" == t;
    assert IsBlock(t, p, Span(0, 10, 12));
    BlockAtComplete(t, p, Span(0, 10, 12));
    assert Blocks(t, p, 0) == [Span(0, 10, 12)];
    RemovedIsGaps(t, p, 0);
    NoJsonKept([]);
  }

  /** A text without the letter `j` loses nothing to the `json` pass. */
  lemma NoJsonKept(t: string)
    requires 'j' !in t
    ensures Removed(t, "json", 0) == t
  {
    MissingFirstChar(t, "json");
    BlocksNeedPrefix(t, "json", 0);
    RemovedUnchanged(t, "json", 0);
  }

  /**
   * A block whose body holds a nested `{}` ends at the first `}`, so the visible text keeps the
   * outer closing brace: `ok tool_code {x{}}` is shown as `ok }`.
   */
  lemma NestedBraceLeftOver(t: string)
    requires t == "ok tool_code {x{}}"
    ensures Blocks(t, "tool_code", 0) == [Span(3, 13, 16)]
    ensures Cleaned(t) == "ok }"
  {
    NestedBlocks(t);
    RemovedIsGaps(t, "tool_code", 0);
    assert t[..3] == "ok ";
    assert t[17..] == "}";
    assert Gaps(t, 0, [Span(3, 13, 16)]) == t[..3] + t[17..];
    var r := Removed(t, "tool_code", 0);
    NoJsonKept(r);
    assert Trimmed(r);
  }

  lemma NestedBlocks(t: string)
    requires t == "ok tool_code {x{}}"
    ensures Blocks(t, "tool_code", 0) == [Span(3, 13, 16)]
  {
    var p := "tool_code";
    forall i | 0 <= i < 3 ensures !OccursAt(t, p, i) {
      Mismatch(t, p, i, 0);
    }
    Infix("ok ", p, " {x{}}");
    assert "ok " + p + " {x{}}" == t;
    assert IsBlock(t, p, Span(3, 13, 16));
    BlockAtComplete(t, p, Span(3, 13, 16));
    BlocksSkip(t, p, 0, 3);
    BlocksSkip(t, p, 17, 18);
  }

  // ---------------------------------------------------------------------------
  // The prompt
  // ---------------------------------------------------------------------------

  const ContextHeader: string := "    User's fitness context: "
  const HistoryHeader: string := "\n    Conversation history: "
  const MessageHeader: string := "\n    User's latest message: "

  /** `buildPrompt`: three indented lines, the user's message last. */
  function BuildPrompt(userMessage: string, fitnessContext: string, conversationHistory: string): (r: string)
    ensures |r| == |ContextHeader| + |fitnessContext| + |HistoryHeader| + |conversationHistory|
      + |MessageHeader| + |userMessage|
    ensures r[..|ContextHeader|] == ContextHeader
    ensures r[|ContextHeader|..|ContextHeader| + |fitnessContext|] == fitnessContext
    ensures r[|ContextHeader| + |fitnessContext|..|r| - |MessageHeader| - |userMessage|]
      == HistoryHeader + conversationHistory
    ensures r[|r| - |userMessage| - |MessageHeader|..|r| - |userMessage|] == MessageHeader
    ensures r[|r| - |userMessage|..] == userMessage
  {
    var r := ContextHeader + fitnessContext + HistoryHeader + conversationHistory + MessageHeader + userMessage;
    assert r[..|ContextHeader|] == ContextHeader;
    r
  }
}
