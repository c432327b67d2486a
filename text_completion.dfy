/**
 * The completion request builder and the extraction of the reply from a
 * completion response.
 */
module TextCompletion {
  import opened Options

  type U32 = x: int | 0 <= x < 0x1_0000_0000

  const DEFAULT_NUMBER_OF_TOKENS: U32 := 40
  const DEFAULT_MODEL: string := "text-davinci-003"

  /** The request body. The temperature, a 32-bit float, is kept as a real. */
  datatype CompletionRequest = CompletionRequest(prompt: string, model: string, temperature: real, maxTokens: U32)

  /** A builder: each field unset until its setter is called. */
  datatype Builder = Builder(prompt: Option<string>, model: Option<string>, temperature: Option<real>, maxTokens: Option<U32>)

  /** `TextCompletionRequest::builder()`: nothing set. */
  const EMPTY_BUILDER: Builder := Builder(None, None, None, None)

  function WithPrompt(b: Builder, prompt: string): (r: Builder)
    ensures r.prompt == Some(prompt)
    ensures r.model == b.model && r.temperature == b.temperature && r.maxTokens == b.maxTokens
  {
    b.(prompt := Some(prompt))
  }

  function WithModel(b: Builder, model: string): (r: Builder)
    ensures r.model == Some(model)
    ensures r.prompt == b.prompt && r.temperature == b.temperature && r.maxTokens == b.maxTokens
  {
    b.(model := Some(model))
  }

  function WithTemperature(b: Builder, temperature: real): (r: Builder)
    ensures r.temperature == Some(temperature)
    ensures r.prompt == b.prompt && r.model == b.model && r.maxTokens == b.maxTokens
  {
    b.(temperature := Some(temperature))
  }

  function WithMaxTokens(b: Builder, maxTokens: U32): (r: Builder)
    ensures r.maxTokens == Some(maxTokens)
    ensures r.prompt == b.prompt && r.model == b.model && r.temperature == b.temperature
  {
    b.(maxTokens := Some(maxTokens))
  }

  /** Setting a field twice keeps the second value, and setters of different fields commute. */
  lemma LastSetterWins(b: Builder, p: string, q: string, m: string, n: string, t: real, u: real, k: U32, l: U32)
    ensures WithPrompt(WithPrompt(b, p), q) == WithPrompt(b, q)
    ensures WithModel(WithModel(b, m), n) == WithModel(b, n)
    ensures WithTemperature(WithTemperature(b, t), u) == WithTemperature(b, u)
    ensures WithMaxTokens(WithMaxTokens(b, k), l) == WithMaxTokens(b, l)
    ensures WithModel(WithPrompt(b, p), m) == WithPrompt(WithModel(b, m), p)
    ensures WithMaxTokens(WithTemperature(b, t), k) == WithTemperature(WithMaxTokens(b, k), t)
  {
  }

  /**
   * `build`. Without a prompt the source panics, modelled as an error. The
   * model is the builder's, else the one named in the environment (given
   * here as `envModel`), else the default; the temperature defaults to
   * zero and the token limit to 40.
   */
  function Build(b: Builder, envModel: Option<string>): (r: Result<CompletionRequest, string>)
    ensures r.Err? <==> b.prompt.None?
    ensures r.Ok? ==> r.value.prompt == b.prompt.value
  {
    if b.prompt.None? then Err("prompt is required")
    else
      var model :=
        if b.model.Some? then b.model.value
        else if envModel.Some? then envModel.value
        else DEFAULT_MODEL;
      var temperature := if b.temperature.Some? then b.temperature.value else 0.0;
      var maxTokens := if b.maxTokens.Some? then b.maxTokens.value else DEFAULT_NUMBER_OF_TOKENS;
      Ok(CompletionRequest(b.prompt.value, model, temperature, maxTokens))
  }

  /** Every value set on the builder reaches the request; every unset one takes its default. */
  lemma BuildDefaults(b: Builder, envModel: Option<string>)
    requires b.prompt.Some?
    ensures var r := Build(b, envModel).value;
      && (b.maxTokens.Some? ==> r.maxTokens == b.maxTokens.value)
      && (b.maxTokens.None? ==> r.maxTokens == 40)
      && (b.temperature.Some? ==> r.temperature == b.temperature.value)
      && (b.temperature.None? ==> r.temperature == 0.0)
      && (b.model.Some? ==> r.model == b.model.value)
      && (b.model.None? && envModel.Some? ==> r.model == envModel.value)
      && (b.model.None? && envModel.None? ==> r.model == "text-davinci-003")
  {
  }

  /** The only request the legacy client builds: a prompt and nothing else. */
  lemma PromptOnlyRequest(prompt: string, envModel: Option<string>)
    ensures Build(WithPrompt(EMPTY_BUILDER, prompt), envModel)
      == Ok(CompletionRequest(prompt, if envModel.Some? then envModel.value else DEFAULT_MODEL, 0.0, 40))
  {
  }

  /** `char::is_whitespace`: the Unicode White_Space property. */
  predicate IsWhitespace(c: char)
  {
    var n := c as int;
    || (0x09 <= n <= 0x0D) || n == 0x20 || n == 0x85 || n == 0xA0 || n == 0x1680
    || (0x2000 <= n <= 0x200A) || n == 0x2028 || n == 0x2029 || n == 0x202F
    || n == 0x205F || n == 0x3000
  }

  /** Drop leading whitespace: what is left is a suffix that starts with a non-space. */
  function TrimStart(s: string): (r: string)
    ensures |r| <= |s| && r == s[|s| - |r|..]
    ensures forall k :: 0 <= k < |s| - |r| ==> IsWhitespace(s[k])
    ensures r != [] ==> !IsWhitespace(r[0])
  {
    if s != [] && IsWhitespace(s[0]) then TrimStart(s[1..]) else s
  }

  /** Drop trailing whitespace: what is left is a prefix that ends with a non-space. */
  function TrimEnd(s: string): (r: string)
    ensures |r| <= |s| && r == s[..|r|]
    ensures forall k :: |r| <= k < |s| ==> IsWhitespace(s[k])
    ensures r != [] ==> !IsWhitespace(r[|r| - 1])
  {
    if s != [] && IsWhitespace(s[|s| - 1]) then TrimEnd(s[..|s| - 1]) else s
  }

  /** `str::trim`. */
  function Trim(s: string): string
  {
    TrimEnd(TrimStart(s))
  }

  /** What trimming keeps is one contiguous slice of the input. */
  lemma TrimIsASlice(s: string)
    ensures var r, lo := Trim(s), |s| - |TrimStart(s)|;
      lo + |r| <= |s| && r == s[lo..lo + |r|]
  {
    var t := TrimStart(s);
    PrefixOfSuffixIsASlice(s, t, TrimEnd(t));
  }

  lemma PrefixOfSuffixIsASlice(s: string, t: string, r: string)
    requires |t| <= |s| && t == s[|s| - |t|..]
    requires |r| <= |t| && r == t[..|r|]
    ensures r == s[|s| - |t|..|s| - |t| + |r|]
  {
    PrefixOfSuffix(s, |s| - |t|, |r|);
  }

  /** Everything trimming drops, before and after that slice, is whitespace. */
  lemma TrimDropsOnlyWhitespace(s: string)
    ensures var r, lo := Trim(s), |s| - |TrimStart(s)|;
      && lo + |r| <= |s|
      && (forall k :: 0 <= k < lo ==> IsWhitespace(s[k]))
      && (forall k :: lo + |r| <= k < |s| ==> IsWhitespace(s[k]))
  {
    var t := TrimStart(s);
    var r := TrimEnd(t);
    var lo := |s| - |t|;
    PrefixOfSuffix(s, lo, |r|);
    forall k | lo + |r| <= k < |s|
      ensures IsWhitespace(s[k])
    {
      assert s[k] == t[k - lo];
    }
  }

  /** A non-empty trimmed string starts and ends with a non-whitespace character. */
  lemma TrimmedEndsAreNotWhitespace(s: string)
    ensures Trim(s) != [] ==> !IsWhitespace(Trim(s)[0]) && !IsWhitespace(Trim(s)[|Trim(s)| - 1])
  {
    var t := TrimStart(s);
    var r := TrimEnd(t);
    if r != [] {
      assert r[0] == t[0];
    }
  }

  /** A prefix of a suffix of `s` is a slice of `s`, and so is what follows it. */
  lemma PrefixOfSuffix(s: string, lo: nat, n: nat)
    requires lo + n <= |s|
    ensures s[lo..][..n] == s[lo..lo + n]
    ensures forall k :: lo + n <= k < |s| ==> s[lo..][k - lo] == s[k]
  {
  }

  /** Trimming twice is trimming once. */
  lemma TrimIsIdempotent(s: string)
    ensures Trim(Trim(s)) == Trim(s)
  {
    var r := Trim(s);
    if r != [] {
      assert !IsWhitespace(r[0]);
      assert TrimStart(r) == r;
      assert !IsWhitespace(r[|r| - 1]);
    }
  }

  datatype Choice = Choice(text: string, index: U32, logprobs: Option<U32>, finishReason: string)

  datatype Usage = Usage(promptTokens: U32, completionTokens: U32, totalTokens: U32)

  datatype CompletionResponse = CompletionResponse(
    id: string, object: string, created: int, model: string, choices: seq<Choice>, usage: Usage)

  /**
   * `TextCompletionResponse::message`: the trimmed text of the first choice.
   * With no choices the source panics, modelled as an error.
   */
  function MessageOf(response: CompletionResponse): (r: Result<string, string>)
    ensures r.Err? <==> response.choices == []
  {
    if response.choices == [] then Err("choices is not empty")
    else Ok(Trim(response.choices[0].text))
  }

  /** Only the first choice matters: choices after it never change the reply. */
  lemma OnlyFirstChoiceCounts(response: CompletionResponse, first: Choice, rest: seq<Choice>, other: seq<Choice>)
    requires response.choices == [first] + rest
    ensures MessageOf(response) == MessageOf(response.(choices := [first] + other))
    ensures MessageOf(response) == Ok(Trim(first.text))
  {
  }
}
