/** The model call with its fallback policy, and the extraction of a JSON
    object from a Deepseek response. The backend, `json.loads` and the
    pydantic validation are parameters: `loads` gives `None` where
    `json.loads` raises, `validate` gives `None` where building the output
    model raises. */
module Llm {
  import opened Types
  import opened Text

  /** What `get_model` and `get_model_info` produce: an exception, a falsy
      model, or a model that is or is not a Deepseek model. */
  datatype ModelInit = InitRaised | NoModel | Ready(isDeepseek: bool)

  /** A backend: its initialisation, and `invoke` from the prompt to the
      response text, `None` when the call raises. */
  datatype Backend<!P> = Backend(init: ModelInit, invoke: P -> Option<string>)

  datatype LlmError =
    | InitFailed        // get_model or get_model_info raised
    | ModelMissing      // the ValueError for a falsy model
    | InvokeFailed      // model.invoke raised
    | DecodeFailed      // json.JSONDecodeError, also for a falsy Deepseek extraction
    | ValidationFailed  // the output model rejected the parsed value

  datatype Outcome<T> = Returned(value: T) | Raised(error: LlmError)

  /** The outcome of one `call_llm` and how often it invoked the backend. */
  datatype LlmCall<T> = LlmCall(outcome: Outcome<T>, invocations: nat)

  const JsonFence: string := "```json"
  const Fence: string := "```"

  /** `extract_json_from_deepseek_response`: the whole content if it parses;
      else, when a "```json" fence has a later closing "```", the stripped text
      between them, parsed or nothing; else the text from the first "{"
      through the last "}", parsed or nothing. */
  function ExtractJson<J>(content: string, loads: string -> Option<J>): (r: Option<J>)
    ensures loads(content).Some? ==> r == loads(content)
    ensures r.Some? && loads(content).None? ==> Find(content, "{") != -1 || Find(content, JsonFence) != -1
  {
    match loads(content)
    case Some(j) => Some(j)
    case None =>
      var jsonStart := Find(content, JsonFence);
      if jsonStart != -1 && Find(content[jsonStart + 7..], Fence) != -1 then
        var jsonText := content[jsonStart + 7..];
        var jsonEnd := Find(jsonText, Fence);
        loads(Strip(jsonText[..jsonEnd]))
      else
        var start := Find(content, "{");
        var end := RFind(content, "}");
        if start != -1 && end != -1 then loads(Slice(content, start, end + 1)) else None
  }

  /** Whatever the extraction returns is the parse of some substring of the
      content. */
  lemma ExtractJsonSound<J>(content: string, loads: string -> Option<J>)
    ensures var r := ExtractJson(content, loads);
      r.Some? ==> exists i, j :: 0 <= i <= j <= |content| && r == loads(content[i..j])
  {
    var r := ExtractJson(content, loads);
    if r.Some? {
      var i, j := ExtractedSpan(content, loads);
    }
  }

  /** The bounds of the substring that `ExtractJson` parses. */
  lemma ExtractedSpan<J>(content: string, loads: string -> Option<J>) returns (i: nat, j: nat)
    requires ExtractJson(content, loads).Some?
    ensures i <= j <= |content| && ExtractJson(content, loads) == loads(content[i..j])
    ensures loads(content).Some? ==> i == 0 && j == |content|
    ensures var s := Find(content, JsonFence);
      loads(content).None? && s != -1 && Find(content[s + 7..], Fence) != -1 ==>
      s + 7 <= i <= j <= s + 7 + Find(content[s + 7..], Fence)
    ensures var s := Find(content, JsonFence);
      var st := Find(content, "{");
      var en := RFind(content, "}");
      loads(content).None? && (s == -1 || Find(content[s + 7..], Fence) == -1) && st <= en ==>
      i == st && j == en + 1
  {
    if loads(content).Some? {
      i, j := 0, |content|;
      assert content[i..j] == content;
    } else {
      var jsonStart := Find(content, JsonFence);
      if jsonStart != -1 && Find(content[jsonStart + 7..], Fence) != -1 {
        var jsonText := content[jsonStart + 7..];
        var jsonEnd := Find(jsonText, Fence);
        i, j := StrippedSpan(content, jsonStart + 7, jsonEnd);
        assert content[jsonStart + 7..][..jsonEnd] == jsonText[..jsonEnd];
      } else {
        var start := Find(content, "{");
        var end := RFind(content, "}");
        i, j := BraceSpan(content, start, end);
      }
    }
  }

  /** The text `s[from:][:len].strip()` is the substring `s[i:j]`. */
  lemma StrippedSpan(s: string, from: nat, len: nat) returns (i: nat, j: nat)
    requires from + len <= |s|
    ensures from <= i <= j <= from + len && Strip(s[from..][..len]) == s[i..j]
  {
    var inner := s[from..][..len];
    var a, b := StripBounds(inner);
    i, j := from + a, from + b;
    NestedSlice(s, from, len, a, b);
  }

  lemma NestedSlice(s: string, from: nat, len: nat, a: nat, b: nat)
    requires from + len <= |s| && a <= b <= len
    ensures s[from..][..len][a..b] == s[from + a..from + b]
  {
  }

  /** The brace fallback's text `s[start:end + 1]` is a substring of `s`. */
  lemma BraceSpan(s: string, start: int, end: int) returns (i: nat, j: nat)
    requires 0 <= start < |s| && 0 <= end < |s|
    ensures i <= j <= |s| && Slice(s, start, end + 1) == s[i..j]
    ensures start <= end ==> i == start && j == end + 1
  {
    if end + 1 <= start {
      i, j := start, start;
    } else {
      i, j := start, end + 1;
    }
  }

  /** Once the whole content fails to parse and a closed "```json" fence
      exists, the result is the parse of the stripped fenced text, success or
      failure: the brace fallback is not tried. */
  lemma FencedBranch<J>(content: string, loads: string -> Option<J>, jsonStart: nat, jsonEnd: nat)
    requires loads(content).None?
    requires jsonStart == Find(content, JsonFence) && jsonStart + 7 <= |content|
    requires jsonEnd == Find(content[jsonStart + 7..], Fence) && jsonEnd <= |content| - jsonStart - 7
    ensures ExtractJson(content, loads) == loads(Strip(content[jsonStart + 7..][..jsonEnd]))
  {
  }

  /** Without a closed "```json" fence, an unparsable content yields the
      parse of the text from the first "{" through the last "}", or nothing
      when either brace is missing. */
  lemma BraceBranch<J>(content: string, loads: string -> Option<J>)
    requires loads(content).None?
    requires var s := Find(content, JsonFence); s == -1 || Find(content[s + 7..], Fence) == -1
    ensures var st := Find(content, "{");
      var en := RFind(content, "}");
      ExtractJson(content, loads) == if st != -1 && en != -1 then loads(Slice(content, st, en + 1)) else None
  {
  }

  /** A content without "```json" and without any "{" yields nothing. */
  lemma NoFenceNoBraces<J>(content: string, loads: string -> Option<J>)
    requires loads(content).None?
    requires forall k :: 0 <= k <= |content| ==> !OccursAt(content, JsonFence, k)
    requires forall k :: 0 <= k <= |content| ==> !OccursAt(content, "{", k)
    ensures ExtractJson(content, loads).None?
  {
  }

  /** Building the output model: its value, or a validation error when it raises. */
  function Validate<J, T>(json: J, validate: J -> Option<T>): (r: Result<T, LlmError>)
    ensures r.Ok? <==> validate(json).Some?
    ensures r.Ok? ==> validate(json) == Some(r.value)
    ensures r.Err? ==> r.error == ValidationFailed
  {
    match validate(json)
    case None => Err(ValidationFailed)
    case Some(t) => Ok(t)
  }

  /** The inner `try` of `call_llm`: on the Deepseek path a falsy extraction
      (nothing, or an empty object) is a decode error; otherwise the whole
      content goes through `json.loads`. */
  function ParseResponse<J, T>(
    content: string,
    isDeepseek: bool,
    loads: string -> Option<J>,
    isFalsy: J -> bool,
    validate: J -> Option<T>): (r: Result<T, LlmError>)
    ensures isDeepseek && (ExtractJson(content, loads).None? || isFalsy(ExtractJson(content, loads).value))
      ==> r == Err(DecodeFailed)
    ensures !isDeepseek && loads(content).None? ==> r == Err(DecodeFailed)
    ensures isDeepseek && r.Ok? ==> var e := ExtractJson(content, loads);
      e.Some? && !isFalsy(e.value) && validate(e.value) == Some(r.value)
    ensures !isDeepseek && r.Ok? ==> loads(content).Some? && validate(loads(content).value) == Some(r.value)
    ensures isDeepseek && ExtractJson(content, loads).Some? && !isFalsy(ExtractJson(content, loads).value) ==>
      var v := validate(ExtractJson(content, loads).value);
      r == if v.Some? then Ok(v.value) else Err(ValidationFailed)
    ensures !isDeepseek && loads(content).Some? ==>
      var v := validate(loads(content).value);
      r == if v.Some? then Ok(v.value) else Err(ValidationFailed)
    ensures r.Err? ==> r.error in {DecodeFailed, ValidationFailed}
  {
    if isDeepseek then
      var result := ExtractJson(content, loads);
      if result.None? || isFalsy(result.value) then Err(DecodeFailed)
      else Validate(result.value, validate)
    else
      match loads(content)
      case None => Err(DecodeFailed)
      case Some(result) => Validate(result, validate)
  }

  /** The `try` body of `call_llm` with no handler: the first failure, or
      the validated output. */
  function Attempt<P, J, T>(
    prompt: P,
    backend: Backend<P>,
    loads: string -> Option<J>,
    isFalsy: J -> bool,
    validate: J -> Option<T>): (r: Result<T, LlmError>)
    ensures r == Err(InitFailed) <==> backend.init.InitRaised?
    ensures r == Err(ModelMissing) <==> backend.init.NoModel?
    ensures r == Err(InvokeFailed) <==> backend.init.Ready? && backend.invoke(prompt).None?
    ensures r.Ok? ==> backend.init.Ready? && backend.invoke(prompt).Some?
    ensures backend.init.Ready? && backend.invoke(prompt).Some? ==>
      r.Ok? || r.error == DecodeFailed || r.error == ValidationFailed
    ensures backend.init.Ready? && backend.invoke(prompt).Some? ==>
      r == ParseResponse(backend.invoke(prompt).value, backend.init.isDeepseek, loads, isFalsy, validate)
  {
    match backend.init
    case InitRaised => Err(InitFailed)
    case NoModel => Err(ModelMissing)
    case Ready(isDeepseek) =>
      match backend.invoke(prompt)
      case None => Err(InvokeFailed)
      case Some(content) => ParseResponse(content, isDeepseek, loads, isFalsy, validate)
  }

  /** The outer handler: the default when a factory is given, else re-raise. */
  function Fallback<T>(error: LlmError, defaultFactory: Option<T>, invocations: nat): (r: LlmCall<T>)
    ensures r.invocations == invocations
    ensures defaultFactory.Some? <==> r.outcome.Returned?
    ensures defaultFactory.Some? ==> r.outcome.value == defaultFactory.value
    ensures defaultFactory.None? ==> r.outcome.error == error
  {
    if defaultFactory.Some? then LlmCall(Returned(defaultFactory.value), invocations)
    else LlmCall(Raised(error), invocations)
  }

  /** `call_llm`: one backend invocation once the model is initialised;
      every failure returns the default when a factory is given and is
      raised otherwise. `maxRetries` is accepted and not used. */
  function CallLlm<P, J, T>(
    prompt: P,
    backend: Backend<P>,
    loads: string -> Option<J>,
    isFalsy: J -> bool,
    validate: J -> Option<T>,
    maxRetries: nat,
    defaultFactory: Option<T>): (r: LlmCall<T>)
    ensures r.invocations == if backend.init.Ready? then 1 else 0
    ensures defaultFactory.Some? ==> r.outcome.Returned?
    ensures var a := Attempt(prompt, backend, loads, isFalsy, validate);
      && (a.Ok? ==> r.outcome == Returned(a.value))
      && (a.Err? && defaultFactory.Some? ==> r.outcome == Returned(defaultFactory.value))
      && (a.Err? && defaultFactory.None? ==> r.outcome == Raised(a.error))
  {
    match backend.init
    case InitRaised => Fallback(InitFailed, defaultFactory, 0)
    case NoModel => Fallback(ModelMissing, defaultFactory, 0)
    case Ready(isDeepseek) =>
      match backend.invoke(prompt)
      case None => Fallback(InvokeFailed, defaultFactory, 1)
      case Some(content) =>
        match ParseResponse(content, isDeepseek, loads, isFalsy, validate)
        case Ok(output) => LlmCall(Returned(output), 1)
        case Err(e) =>
          // the inner handler returns the default or re-raises into the outer one
          if defaultFactory.Some? then LlmCall(Returned(defaultFactory.value), 1)
          else Fallback(e, defaultFactory, 1)
  }
}
