/** `ChatGPTModel` (chatgpt.py): the OpenAI chat adapter. It passes the history through and, when
    it is given an image, attaches the image to the last message. */
module ChatGpt {
  import opened Wrappers
  import opened Messages

  /** `str(e)` of the `IndexError` that `formatted_messages[-1]` raises on an empty list. */
  const INDEX_ERROR := "list index out of range"

  /** The image attached to a message that is still plain text; a message that already holds a
      list keeps it. */
  function Attach(m: Message, base64: string): (r: Message)
    ensures r.role == m.role && r.content.text == m.content.text && r.content.WithImage?
    ensures m.content.Plain? ==> r.content.imageUrl == DataUrl(base64)
    ensures m.content.WithImage? ==> r == m
  {
    if m.content.Plain? then Message(m.role, WithImage(m.content.text, DataUrl(base64))) else m
  }

  /** What `format_messages` returns or raises. The image file is read before the last message is
      looked up, so a missing file wins over an empty history; neither error is wrapped. */
  function Formatted(history: seq<Message>, imagePath: Option<string>, images: ImageStore)
    : Result<seq<Message>>
  {
    if !HasImage(imagePath) then Success(history)
    else
      var image := ReadImage(images, imagePath.value);
      if image.Failure? then Failure(image.error)
      else if |history| == 0 then Failure(INDEX_ERROR)
      else Success(history[..|history| - 1] + [Attach(history[|history| - 1], image.value)])
  }

  /** `ChatGPTModel.format_messages`: every message is copied into a new list, then the copy of
      the last one gets the image. */
  method FormatMessages(history: seq<Message>, imagePath: Option<string>, images: ImageStore)
    returns (r: Result<seq<Message>>)
    ensures r == Formatted(history, imagePath, images)
  {
    var formatted: seq<Message> := [];
    var i := 0;
    while i < |history|
      invariant 0 <= i <= |history|
      invariant formatted == history[..i]
    {
      formatted := formatted + [Message(history[i].role, history[i].content)];
      i := i + 1;
    }
    assert formatted == history;
    if HasImage(imagePath) {
      var image := ReadImage(images, imagePath.value);
      if image.Failure? {
        return Failure(image.error);
      }
      if |formatted| == 0 {
        return Failure(INDEX_ERROR);
      }
      var last := formatted[|formatted| - 1];
      assert history == history[..|history| - 1] + [last];
      if last.content.Plain? {
        formatted := formatted[|formatted| - 1 := Message(last.role, WithImage(last.content.text, DataUrl(image.value)))];
      }
      assert formatted == history[..|history| - 1] + [Attach(last, image.value)];
    }
    return Success(formatted);
  }

  /** Formatting fails exactly when an image is given and its file is missing, or the history is
      empty; the missing file is reported first. */
  lemma FormattedFails(history: seq<Message>, imagePath: Option<string>, images: ImageStore)
    ensures Formatted(history, imagePath, images).Failure?
            <==> HasImage(imagePath) && (imagePath.value !in images || |history| == 0)
    ensures HasImage(imagePath) && imagePath.value !in images
            ==> Formatted(history, imagePath, images) == Failure(NoSuchFile(imagePath.value))
    ensures HasImage(imagePath) && imagePath.value in images && |history| == 0
            ==> Formatted(history, imagePath, images) == Failure(INDEX_ERROR)
  {
  }

  /** The formatted list has the history's length, roles and texts, and only its last message can
      differ from the history's. */
  lemma FormattedKeepsHistory(history: seq<Message>, imagePath: Option<string>, images: ImageStore)
    requires Formatted(history, imagePath, images).Success?
    ensures var f := Formatted(history, imagePath, images).value;
            && |f| == |history|
            && (forall i | 0 <= i < |f| :: f[i].role == history[i].role && f[i].content.text == history[i].content.text)
            && (forall i | 0 <= i < |f| - 1 :: f[i] == history[i])
  {
  }

  /** Without an image the history is sent as it is. */
  lemma NoImageNoChange(history: seq<Message>, imagePath: Option<string>, images: ImageStore)
    requires !HasImage(imagePath)
    ensures Formatted(history, imagePath, images) == Success(history)
  {
  }

  /** With an image the last formatted message holds an image: the given file's, as a data URL,
      when that message was plain text, and its own one otherwise (a second image is never added). */
  lemma ImageOnLastMessage(history: seq<Message>, imagePath: Option<string>, images: ImageStore)
    requires HasImage(imagePath) && Formatted(history, imagePath, images).Success?
    ensures var f := Formatted(history, imagePath, images).value;
            var last := history[|history| - 1];
            && |f| == |history| > 0
            && f[|f| - 1].content.WithImage?
            && (last.content.Plain? ==> f[|f| - 1].content.imageUrl == DataUrl(images[imagePath.value]))
            && (last.content.WithImage? ==> f[|f| - 1] == last)
  {
  }

  /** `ChatGPTModel.generate_response`: the completion of the formatted history by the `model`
      the caller chose (`gpt-4o-mini` or `gpt-4o`); errors of formatting and of the API call
      propagate unwrapped. The API is the oracle `complete(model, messages)`. */
  method GenerateResponse(history: seq<Message>, model: string, imagePath: Option<string>,
                          images: ImageStore, complete: (string, seq<Message>) -> Result<string>)
    returns (r: Result<string>)
    ensures var f := Formatted(history, imagePath, images);
            r == if f.Failure? then Failure(f.error) else complete(model, f.value)
  {
    var formatted := FormatMessages(history, imagePath, images);
    if formatted.Failure? {
      return Failure(formatted.error);
    }
    r := complete(model, formatted.value);
  }
}
