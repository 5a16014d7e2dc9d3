/**
 The accounting half of `grade_essay`: the prompt is built, its tokens and the
 image's estimated tokens are billed as input, the reply's tokens as output,
 and the usage is logged under the grading model's name. The network call
 itself is outside the model: the model's reply is a parameter.
 */
module Grading {
  import opened Tokens
  import opened Prompt

  /** The model the essay is sent to. */
  const GradingModel: string := "o4-mini-2025-04-16"

  /** The function name the usage is logged under. */
  const GradingFunction: string := "grade_essay"

  /** What `grade_essay` returns: the model's reply and the logged usage behind the cost summary. */
  datatype Graded = Graded(gradingResult: string, usage: UsageEntry)

  /**
   The input tokens of one grading call: the prompt's tokens, counted with
   the default tokenizer model, plus the image estimate.
   */
  function InputTokens(tokenizer: Tokenizer, prompt: string, imageSize: nat): (n: nat)
    ensures n >= BaseImageTokens
    ensures n - EstimateImageTokens(imageSize) == CountTokens(tokenizer, prompt, DefaultTokenModel)
  {
    CountTokens(tokenizer, prompt) + EstimateImageTokens(imageSize)
  }

  /**
   `grade_essay` with the model's reply given: the prompt the builder produces
   is billed together with the image, the reply is billed as output, both at
   the grading model's prices, and the reply is returned unchanged. The
   logged entry is the one `GradingCostFloor` and `GradingCostGrowsWithImage`
   speak about.
   */
  method GradeEssay(w: Wording, tokenizer: Tokenizer, rubric: Rubric, instructions: string, level: string,
                    leniency: int, imageSize: nat, reply: string)
    returns (result: Graded)
    ensures result.gradingResult == reply
    ensures result.usage.inputTokens
         == CountTokens(tokenizer, Render(w, Layout(w, rubric, instructions, level, leniency)), DefaultTokenModel)
            + EstimateImageTokens(imageSize)
    ensures result.usage.outputTokens == CountTokens(tokenizer, reply, DefaultTokenModel)
    ensures result.usage.model == GradingModel && result.usage.functionName == GradingFunction
    ensures result.usage.inputCost * 1000000.0 == result.usage.inputTokens as real * 1.10
    ensures result.usage.outputCost * 1000000.0 == result.usage.outputTokens as real * 4.40
    ensures result.usage.totalCost == result.usage.inputCost + result.usage.outputCost
    ensures result.usage.totalCost * 1000000.0 >= 85.0 * 1.10
    ensures result.usage
         == LogApiUsage(InputTokens(tokenizer, Render(w, Layout(w, rubric, instructions, level, leniency)), imageSize),
                        CountTokens(tokenizer, reply), GradingModel, GradingFunction)
  {
    var prompt := BuildPrompt(w, rubric, instructions, level, leniency);
    var textTokens := CountTokens(tokenizer, prompt);
    var imageTokens := EstimateImageTokens(imageSize);
    var outputTokens := CountTokens(tokenizer, reply);
    var usage := LogApiUsage(textTokens + imageTokens, outputTokens, GradingModel, GradingFunction);
    result := Graded(reply, usage);
    GradingCostFloor(tokenizer, prompt, imageSize, reply);
  }

  /**
   Every grading call is charged at least the base image tokens, so its cost
   is at least 85 input tokens' worth, whatever the prompt and reply.
   */
  lemma GradingCostFloor(tokenizer: Tokenizer, prompt: string, imageSize: nat, reply: string)
    ensures var e := LogApiUsage(InputTokens(tokenizer, prompt, imageSize), CountTokens(tokenizer, reply),
                                 GradingModel, GradingFunction);
      e.totalCost * 1000000.0 >= 85.0 * 1.10
  {
  }

  /** A larger image never makes the same request cheaper. */
  lemma GradingCostGrowsWithImage(tokenizer: Tokenizer, prompt: string, small: nat, large: nat, reply: string)
    requires small <= large
    ensures LogApiUsage(InputTokens(tokenizer, prompt, small), CountTokens(tokenizer, reply), GradingModel, GradingFunction).totalCost
         <= LogApiUsage(InputTokens(tokenizer, prompt, large), CountTokens(tokenizer, reply), GradingModel, GradingFunction).totalCost
  {
    ImageTokensMonotone(small, large);
    CostMonotone(InputTokens(tokenizer, prompt, small), CountTokens(tokenizer, reply),
                 InputTokens(tokenizer, prompt, large), CountTokens(tokenizer, reply));
  }
}
