/**
 Token and cost accounting of the grading client: counting text tokens with a
 fallback when the tokenizer fails, the size-based image token heuristic, and
 the linear dollar cost of a call.
 */
module Tokens {
  import opened Outcomes

  /**
   The tokenizer library, keyed by model name: the number of tokens of a text,
   or `None` when looking up the model's encoding or encoding the text raises.
   */
  type Tokenizer = (string, string) -> Option<nat>

  /** The model whose tokenizer `count_tokens` asks for unless told otherwise. */
  const DefaultTokenModel: string := "gpt-4o"

  /**
   `count_tokens`: the tokenizer's count when it succeeds; otherwise the
   approximation of four characters per token, rounded down. A tokenizer
   failure never reaches the caller.
   */
  function CountTokens(tokenizer: Tokenizer, text: string, model: string := DefaultTokenModel): (n: nat)
    ensures tokenizer(model, text).Some? ==> n == tokenizer(model, text).value
    ensures tokenizer(model, text).None? ==> 4 * n <= |text| < 4 * n + 4
  {
    match tokenizer(model, text)
    case Some(count) => count
    case None => |text| / 4
  }

  /** On the fallback path the count never exceeds the number of characters. */
  lemma FallbackAtMostLength(tokenizer: Tokenizer, text: string, model: string)
    requires tokenizer(model, text).None?
    ensures CountTokens(tokenizer, text, model) <= |text|
    ensures |text| >= 4 ==> CountTokens(tokenizer, text, model) > 0
  {
  }

  /** A tokenizer that always raises. */
  function FailingTokenizer(model: string, text: string): Option<nat> {
    None
  }

  /** With a tokenizer that always fails, a 400-character text counts as 100 tokens. */
  lemma FallbackExample(text: string)
    requires |text| == 400
    ensures CountTokens(FailingTokenizer, text) == 100
  {
  }

  /** Tokens every image is charged before its size is considered. */
  const BaseImageTokens: nat := 85

  /** The size, in bytes, that is charged one more `BaseImageTokens` (100 KiB). */
  const ImageSizeUnit: nat := 100 * 1024

  /**
   `estimate_image_tokens`: 85 tokens plus 85 per 100 KiB of image, the
   per-size part rounded down.
   */
  function EstimateImageTokens(sizeBytes: nat): (t: nat)
    ensures t >= BaseImageTokens
    ensures (t - BaseImageTokens) * ImageSizeUnit <= BaseImageTokens * sizeBytes
    ensures BaseImageTokens * sizeBytes < (t - BaseImageTokens + 1) * ImageSizeUnit
  {
    BaseImageTokens * sizeBytes / ImageSizeUnit + BaseImageTokens
  }

  /** The calibration points of the heuristic: an empty image and one of exactly 100 KiB. */
  lemma ImageTokenLandmarks()
    ensures EstimateImageTokens(0) == 85
    ensures EstimateImageTokens(102400) == 170
  {
  }

  /** A larger image is never estimated at fewer tokens. */
  lemma ImageTokensMonotone(a: nat, b: nat)
    requires a <= b
    ensures EstimateImageTokens(a) <= EstimateImageTokens(b)
  {
  }

  /** Dollars per million input tokens. */
  const InputPricePerMillion: real := 1.10

  /** Dollars per million output tokens. */
  const OutputPricePerMillion: real := 4.40

  /** The dollar cost of `tokens` input tokens. */
  function InputCost(tokens: nat): (c: real)
    ensures c >= 0.0
    ensures c * 1000000.0 == tokens as real * InputPricePerMillion
  {
    tokens as real / 1000000.0 * InputPricePerMillion
  }

  /** The dollar cost of `tokens` output tokens. */
  function OutputCost(tokens: nat): (c: real)
    ensures c >= 0.0
    ensures c * 1000000.0 == tokens as real * OutputPricePerMillion
  {
    tokens as real / 1000000.0 * OutputPricePerMillion
  }

  /** The usage record `log_api_usage` logs and returns, without its timestamp. */
  datatype UsageEntry = UsageEntry(
    functionName: string,
    model: string,
    inputTokens: nat,
    outputTokens: nat,
    inputCost: real,
    outputCost: real,
    totalCost: real)

  /** `log_api_usage`: the costs of one call, the total being the sum of the two parts. */
  function LogApiUsage(inputTokens: nat, outputTokens: nat, model: string, functionName: string := ""): (e: UsageEntry)
    ensures e.inputTokens == inputTokens && e.outputTokens == outputTokens
    ensures e.model == model && e.functionName == functionName
    ensures e.inputCost * 1000000.0 == inputTokens as real * 1.10
    ensures e.outputCost * 1000000.0 == outputTokens as real * 4.40
    ensures e.totalCost == e.inputCost + e.outputCost
    ensures 0.0 <= e.inputCost <= e.totalCost && 0.0 <= e.outputCost <= e.totalCost
  {
    var inputCost := InputCost(inputTokens);
    var outputCost := OutputCost(outputTokens);
    UsageEntry(functionName, model, inputTokens, outputTokens, inputCost, outputCost, inputCost + outputCost)
  }

  /** Costs are additive: billing two calls separately costs what billing their summed tokens costs. */
  lemma CostAdditive(in1: nat, out1: nat, in2: nat, out2: nat)
    ensures LogApiUsage(in1 + in2, out1 + out2, "").totalCost
         == LogApiUsage(in1, out1, "").totalCost + LogApiUsage(in2, out2, "").totalCost
  {
  }

  /** Costs grow with usage, and an output token costs four times an input token. */
  lemma CostMonotone(in1: nat, out1: nat, in2: nat, out2: nat)
    requires in1 <= in2 && out1 <= out2
    ensures LogApiUsage(in1, out1, "").totalCost <= LogApiUsage(in2, out2, "").totalCost
    ensures OutputCost(in1) == 4.0 * InputCost(in1)
  {
  }
}
