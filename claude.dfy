/** `ClaudeModel` (claude.py): the Anthropic adapter. The system prompt travels apart from the
    messages, only user and assistant messages are sent, each as a list of content blocks, and
    the image goes into the one user message that is the history's last. */
module Claude {
  import opened Wrappers
  import opened Messages

  const MODEL_NAME := "claude-3-5-sonnet-20241022"
  const MEDIA_TYPE := "image/jpeg"
  const IMAGE_ERROR_PREFIX := "Error processing image: "
  const ERROR_PREFIX := "Error generating response from Claude: "

  /** A content block: `{"type": "text", ...}` or `{"type": "image", "source": {"type": "base64", ...}}`. */
  datatype Block = TextBlock(text: string) | ImageBlock(mediaType: string, data: string)

  datatype ClaudeMessage = ClaudeMessage(role: Role, blocks: seq<Block>)

  /** The system prompt: the first message's content when it is a system message, else `""`. */
  function SystemMessage(history: seq<Message>): Content
  {
    if |history| > 0 && history[0].role == System then history[0].content else Plain("")
  }

  /** The user and assistant messages of `ms`, in their order. */
  function Dialogue(ms: seq<Message>): seq<Message>
  {
    if ms == [] then []
    else Dialogue(ms[..|ms| - 1]) + (if ms[|ms| - 1].role != System then [ms[|ms| - 1]] else [])
  }

  /** The message gets the image: a user message holding a list, equal (as a value) to the
      history's last message, while an image is given. */
  predicate NeedsImage(m: Message, history: seq<Message>, imagePath: Option<string>)
  {
    m.role == User && m.content.WithImage? && HasImage(imagePath)
    && |history| > 0 && m == history[|history| - 1]
  }

  /** One message's blocks, when its image (if it needs one) could be read. */
  function Convert(m: Message, history: seq<Message>, imagePath: Option<string>, images: ImageStore)
    : ClaudeMessage
  {
    if NeedsImage(m, history, imagePath) && imagePath.value in images
    then ClaudeMessage(User, [ImageBlock(MEDIA_TYPE, images[imagePath.value]), TextBlock(m.content.text)])
    else ClaudeMessage(m.role, [TextBlock(m.content.text)])
  }

  /** A converted message keeps its role and ends in its text; it has a second, leading block, the
      image, exactly when it needs the image and the file exists. */
  lemma ConvertShape(m: Message, history: seq<Message>, imagePath: Option<string>, images: ImageStore)
    ensures var r := Convert(m, history, imagePath, images);
      && r.role == m.role && |r.blocks| > 0 && r.blocks[|r.blocks| - 1] == TextBlock(m.content.text)
      && (|r.blocks| == 2 <==> NeedsImage(m, history, imagePath) && imagePath.value in images)
      && (|r.blocks| == 2 ==> r.blocks[0] == ImageBlock(MEDIA_TYPE, images[imagePath.value]))
  {
  }

  function ConvertAll(ms: seq<Message>, history: seq<Message>, imagePath: Option<string>, images: ImageStore)
    : seq<ClaudeMessage>
  {
    if ms == [] then []
    else ConvertAll(ms[..|ms| - 1], history, imagePath, images) + [Convert(ms[|ms| - 1], history, imagePath, images)]
  }

  /** The last message needs the image and its file is missing. */
  predicate ImageMissing(history: seq<Message>, imagePath: Option<string>, images: ImageStore)
  {
    |history| >= 2 && NeedsImage(history[|history| - 1], history, imagePath) && imagePath.value !in images
  }

  /** What `format_messages` returns or raises. */
  function Formatted(history: seq<Message>, imagePath: Option<string>, images: ImageStore)
    : Result<(Content, seq<ClaudeMessage>)>
  {
    if ImageMissing(history, imagePath, images)
    then Failure(IMAGE_ERROR_PREFIX + NoSuchFile(imagePath.value))
    else Success((SystemMessage(history), ConvertAll(Dialogue(Rest(history)), history, imagePath, images)))
  }

  /** The loop body of `format_messages` for one user or assistant message. */
  method FormatOne(m: Message, history: seq<Message>, imagePath: Option<string>, images: ImageStore)
    returns (r: Result<ClaudeMessage>)
    requires m in history
    ensures r.Failure? <==> NeedsImage(m, history, imagePath) && imagePath.value !in images
    ensures r.Failure? ==> r.error == IMAGE_ERROR_PREFIX + NoSuchFile(imagePath.value)
    ensures r.Success? ==> r.value == Convert(m, history, imagePath, images)
  {
    if m.content.Plain? {
      return Success(ClaudeMessage(m.role, [TextBlock(m.content.text)]));
    } else if m.role == User && HasImage(imagePath) && m == history[|history| - 1] {
      var image := ReadImage(images, imagePath.value);
      if image.Failure? {
        return Failure(IMAGE_ERROR_PREFIX + image.error);
      }
      return Success(ClaudeMessage(User, [ImageBlock(MEDIA_TYPE, image.value), TextBlock(m.content.text)]));
    } else {
      return Success(ClaudeMessage(m.role, [TextBlock(m.content.text)]));
    }
  }

  /** `ClaudeModel.format_messages` */
  method FormatMessages(history: seq<Message>, imagePath: Option<string>, images: ImageStore)
    returns (r: Result<(Content, seq<ClaudeMessage>)>)
    ensures r == Formatted(history, imagePath, images)
  {
    var systemMessage := Plain("");
    if |history| > 0 && history[0].role == System {
      systemMessage := history[0].content;
    }
    var rest := Rest(history);
    var formatted: seq<ClaudeMessage> := [];
    ghost var dialogue: seq<Message> := [];
    var i := 0;
    while i < |rest|
      invariant 0 <= i <= |rest|
      invariant dialogue == Dialogue(rest[..i])
      invariant formatted == ConvertAll(dialogue, history, imagePath, images)
      invariant i < |rest| || !ImageMissing(history, imagePath, images)
    {
      var m := rest[i];
      assert m == history[i + 1];
      DialogueSnoc(rest, i);
      if m.role == User || m.role == Assistant {
        var one := FormatOne(m, history, imagePath, images);
        if one.Failure? {
          return Failure(one.error);
        }
        ConvertAllSnoc(dialogue, m, history, imagePath, images);
        formatted := formatted + [one.value];
        dialogue := dialogue + [m];
      }
      assert i + 1 == |rest| ==> m == history[|history| - 1];
      i := i + 1;
    }
    assert rest[..i] == rest;
    return Success((systemMessage, formatted));
  }

  lemma DialogueSnoc(rest: seq<Message>, i: nat)
    requires i < |rest|
    ensures Dialogue(rest[..i + 1])
            == Dialogue(rest[..i]) + (if rest[i].role != System then [rest[i]] else [])
  {
    assert rest[..i + 1][..i] == rest[..i];
  }

  lemma ConvertAllSnoc(ms: seq<Message>, m: Message, history: seq<Message>, imagePath: Option<string>, images: ImageStore)
    ensures ConvertAll(ms + [m], history, imagePath, images)
            == ConvertAll(ms, history, imagePath, images) + [Convert(m, history, imagePath, images)]
  {
    assert (ms + [m])[..|ms|] == ms;
  }

  /** The dialogue has no system message and is never longer than its input. */
  lemma {:induction false} DialogueIsShorter(ms: seq<Message>)
    ensures |Dialogue(ms)| <= |ms|
    ensures forall j | 0 <= j < |Dialogue(ms)| :: Dialogue(ms)[j].role != System
  {
    if ms != [] {
      DialogueIsShorter(ms[..|ms| - 1]);
    }
  }

  /** The dialogue holds exactly the non-system messages of its input. */
  lemma {:induction false} DialogueIsFilter(ms: seq<Message>, m: Message)
    ensures m in Dialogue(ms) <==> m in ms && m.role != System
  {
    if ms != [] {
      var init := ms[..|ms| - 1];
      DialogueIsFilter(init, m);
      assert ms == init + [ms[|ms| - 1]];
    }
  }

  /** Converting keeps the count, the roles and the texts: each message's blocks end in its text. */
  lemma {:induction false} ConvertAllKeeps(ms: seq<Message>, history: seq<Message>, imagePath: Option<string>, images: ImageStore)
    ensures var c := ConvertAll(ms, history, imagePath, images);
            && |c| == |ms|
            && (forall j | 0 <= j < |c| :: c[j].role == ms[j].role)
            && (forall j | 0 <= j < |c| :: 1 <= |c[j].blocks| <= 2 && c[j].blocks[|c[j].blocks| - 1] == TextBlock(ms[j].content.text))
  {
    if ms != [] {
      ConvertAllKeeps(ms[..|ms| - 1], history, imagePath, images);
    }
  }

  /** An image block is added only to a message that needs the image, in front of its text, and
      it carries the image file's data. */
  lemma {:induction false} ConvertAllImages(ms: seq<Message>, history: seq<Message>, imagePath: Option<string>, images: ImageStore)
    ensures var c := ConvertAll(ms, history, imagePath, images);
            && |c| == |ms|
            && (forall j | 0 <= j < |c| ::
                  |c[j].blocks| == 2 <==> NeedsImage(ms[j], history, imagePath) && imagePath.value in images)
            && (forall j | 0 <= j < |c| && |c[j].blocks| == 2 ::
                  c[j].blocks[0] == ImageBlock(MEDIA_TYPE, images[imagePath.value]))
  {
    if ms != [] {
      ConvertAllImages(ms[..|ms| - 1], history, imagePath, images);
    }
  }

  /** Formatting fails exactly when the history's last message, a user message with an image
      list, would get the image and the image file is missing. */
  lemma FormattedFails(history: seq<Message>, imagePath: Option<string>, images: ImageStore)
    ensures Formatted(history, imagePath, images).Failure?
            <==> (&& |history| >= 2
                  && history[|history| - 1].role == User
                  && history[|history| - 1].content.WithImage?
                  && HasImage(imagePath)
                  && imagePath.value !in images)
  {
  }

  /** The system prompt is the first message's content exactly when that is a system message. */
  lemma FormattedSystem(history: seq<Message>, imagePath: Option<string>, images: ImageStore)
    requires Formatted(history, imagePath, images).Success?
    ensures var system := Formatted(history, imagePath, images).value.0;
            && (|history| > 0 && history[0].role == System ==> system == history[0].content)
            && (|history| == 0 || history[0].role != System ==> system == Plain(""))
  {
  }

  /** The messages sent: at most `|history| - 1` of them, none with the system role, each ending in
      a text block. */
  lemma FormattedSent(history: seq<Message>, imagePath: Option<string>, images: ImageStore, system: Content, sent: seq<ClaudeMessage>)
    requires Formatted(history, imagePath, images) == Success((system, sent))
    ensures |history| == 0 ==> sent == []
    ensures |history| > 0 ==> |sent| <= |history| - 1
    ensures forall j | 0 <= j < |sent| :: sent[j].role != System
    ensures forall j | 0 <= j < |sent| :: sent[j].blocks != [] && sent[j].blocks[|sent[j].blocks| - 1].TextBlock?
  {
    var d := Dialogue(Rest(history));
    assert sent == ConvertAll(d, history, imagePath, images);
    DialogueIsShorter(Rest(history));
    ConvertAllKeeps(d, history, imagePath, images);
  }

  /** `ClaudeModel.generate_response`: the caller's model choice is ignored, the Anthropic API
      (the oracle `create(model, system, messages)`) is asked with `MODEL_NAME`, and every error
      is re-raised with `ERROR_PREFIX`. */
  method GenerateResponse(history: seq<Message>, model: string, imagePath: Option<string>, images: ImageStore,
                          create: (string, Content, seq<ClaudeMessage>) -> Result<string>)
    returns (r: Result<string>)
    ensures var f := Formatted(history, imagePath, images);
            r == if f.Failure? then Failure(ERROR_PREFIX + f.error)
                 else create(MODEL_NAME, f.value.0, f.value.1).Wrap(ERROR_PREFIX)
    ensures r.Failure? ==> ERROR_PREFIX <= r.error
  {
    var formatted := FormatMessages(history, imagePath, images);
    if formatted.Failure? {
      return Failure(ERROR_PREFIX + formatted.error);
    }
    var (system, messages) := formatted.value;
    var response := create(MODEL_NAME, system, messages);
    r := response.Wrap(ERROR_PREFIX);
  }
}
