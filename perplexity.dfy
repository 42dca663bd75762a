/** `PerplexityModel` (perplexity.py): the Perplexity adapter, text only. */
module Perplexity {
  import opened Wrappers
  import opened Messages
  import opened Flatten

  const MODEL_NAME := "llama-3.1-sonar-large-128k-online"
  const IMAGE_NOTE := " [Note: Image analysis capabilities subject to API support]"
  const ERROR_PREFIX := "Error generating response from Perplexity: "

  /** `PerplexityModel.format_messages` */
  method FormatMessages(history: seq<Message>, imagePath: Option<string>) returns (formatted: seq<Message>)
    ensures formatted == Flattened(history, imagePath, IMAGE_NOTE)
    ensures forall k | |SystemPart(history)| <= k < |formatted| :: formatted[k].content.Plain?
  {
    formatted := FlattenMessages(history, imagePath, IMAGE_NOTE);
    FlattenedShape(history, imagePath, IMAGE_NOTE);
  }

  /** `PerplexityModel.generate_response`: the caller's model choice is ignored in favour of
      `MODEL_NAME`, the image is never sent, and every error is re-raised with `ERROR_PREFIX`.
      The API is the oracle `complete(model, messages)`. */
  method GenerateResponse(history: seq<Message>, model: string, imagePath: Option<string>,
                          complete: (string, seq<Message>) -> Result<string>)
    returns (r: Result<string>)
    ensures r == complete(MODEL_NAME, Flattened(history, imagePath, IMAGE_NOTE)).Wrap(ERROR_PREFIX)
    ensures r.Failure? ==> ERROR_PREFIX <= r.error
  {
    var formatted := FormatMessages(history, imagePath);
    var response := complete(MODEL_NAME, formatted);
    r := response.Wrap(ERROR_PREFIX);
  }
}
