/** `GeminiModel` (gemini.py): the Google adapter. Only the history's last message is sent, with
    the adapter's own system context in front; text-only prompts go through a chat session that
    the adapter starts on first use, image prompts through a one-off generation. */
module Gemini {
  import opened Wrappers
  import opened Text
  import opened Messages

  const MODEL_NAME := "gemini-1.5-flash"

  /** `GeminiModel.system_context`, with the indentation of the source's triple-quoted string,
      joined from its lines. */
  const SYSTEM_CONTEXT_1 := "You are a knowledgeable female assistant with expertise in Japanese, \n"
  const SYSTEM_CONTEXT_2 := "                English, Chinese, Christianity, and Biblical studies. There are two cameras in the system:\n"
  const SYSTEM_CONTEXT_3 := "                Camera 1 (front camera) and Camera 2 (rear camera). When asked about 'camera 1' or 'front "
  const SYSTEM_CONTEXT_4 := "camera', \n"
  const SYSTEM_CONTEXT_5 := "                you'll analyze the front view image. When asked about 'camera 2' or 'rear camera', you'll "
  const SYSTEM_CONTEXT_6 := "analyze \n"
  const SYSTEM_CONTEXT_7 := "                the rear view image. Please provide helpful and accurate responses for daily life questions "
  const SYSTEM_CONTEXT_8 := "and \n"
  const SYSTEM_CONTEXT_9 := "                image analysis. Maintain conversation context and provide responses in the same language "
  const SYSTEM_CONTEXT_10 := "as the \n"
  const SYSTEM_CONTEXT_11 := "                user's query."
  const SYSTEM_CONTEXT := SYSTEM_CONTEXT_1 + SYSTEM_CONTEXT_2 + SYSTEM_CONTEXT_3 +
      SYSTEM_CONTEXT_4 + SYSTEM_CONTEXT_5 + SYSTEM_CONTEXT_6 + SYSTEM_CONTEXT_7 + SYSTEM_CONTEXT_8 +
      SYSTEM_CONTEXT_9 + SYSTEM_CONTEXT_10 + SYSTEM_CONTEXT_11

  /** The model's first turn in a new chat session. */
  const ACKNOWLEDGEMENT_1 := "I understand I'm an assistant with access to two cameras and will help analyze images and answer questions "
  const ACKNOWLEDGEMENT_2 := "accordingly."
  const ACKNOWLEDGEMENT := ACKNOWLEDGEMENT_1 + ACKNOWLEDGEMENT_2

  const FRONT_CONTEXT := "front camera (Camera 1)"
  const REAR_CONTEXT := "rear camera (Camera 2)"
  const ANALYZING := "\n\nAnalyzing image from "
  const LOAD_ERROR_PREFIX := "Error loading image in Gemini: "
  const IMAGE_ERROR_PREFIX := "Error generating image response in Gemini: "
  const ERROR_PREFIX := "Error in Gemini generate_response: "
  /** `str(e)` of the `IndexError` that `conversation_history[-1]` raises on an empty list. */
  const INDEX_ERROR := "list index out of range"

  /** An element of the content list: a prompt string or a loaded image. */
  datatype Part = TextPart(text: string) | ImagePart(image: string)

  /** One turn of a chat session's history: `{"role": role, "parts": parts}`. */
  datatype ChatTurn = ChatTurn(role: string, parts: string)

  /** A chat session object returned by `start_chat`, with the history it was started with. */
  class ChatSession {
    const seed: seq<ChatTurn>

    constructor (seed: seq<ChatTurn>)
      ensures this.seed == seed
    {
      this.seed := seed;
    }
  }

  /** The history every session of this adapter starts with. */
  const SEED: seq<ChatTurn> := [ChatTurn("user", SYSTEM_CONTEXT), ChatTurn("model", ACKNOWLEDGEMENT)]

  /** Which camera an image came from, judged by its file name. */
  function CameraContext(path: string): (c: string)
    ensures c == FRONT_CONTEXT <==> Contains(path, "camera1")
    ensures c == REAR_CONTEXT <==> !Contains(path, "camera1")
  {
    if Contains(path, "camera1") then FRONT_CONTEXT else REAR_CONTEXT
  }

  /** `GeminiModel.format_messages`: the last message's text (the first element's text for list
      content) after the system context; with an image, the camera context in between and the
      loaded image as a second part. */
  function FormatMessages(history: seq<Message>, imagePath: Option<string>, images: ImageStore)
    : (r: Result<seq<Part>>)
    ensures r.Success? <==> |history| > 0 && (!HasImage(imagePath) || imagePath.value in images)
    ensures |history| == 0 ==> r == Failure(INDEX_ERROR)
    ensures |history| > 0 && HasImage(imagePath) && imagePath.value !in images
            ==> r == Failure(LOAD_ERROR_PREFIX + NoSuchFile(imagePath.value))
    ensures r.Success? && !HasImage(imagePath)
            ==> r.value == [TextPart(SYSTEM_CONTEXT + "\n\n" + history[|history| - 1].content.text)]
    ensures r.Success? && HasImage(imagePath)
            ==> && |r.value| == 2
                && r.value[1] == ImagePart(images[imagePath.value])
                && r.value[0] == TextPart(SYSTEM_CONTEXT + ANALYZING + CameraContext(imagePath.value) + ". "
                                          + history[|history| - 1].content.text)
  {
    if |history| == 0 then Failure(INDEX_ERROR)
    else
      var text := history[|history| - 1].content.text;
      if HasImage(imagePath) then
        if imagePath.value !in images then Failure(LOAD_ERROR_PREFIX + NoSuchFile(imagePath.value))
        else
          var context := CameraContext(imagePath.value);
          Success([TextPart(SYSTEM_CONTEXT + ANALYZING + context + ". " + text), ImagePart(images[imagePath.value])])
      else Success([TextPart(SYSTEM_CONTEXT + "\n\n" + text)])
  }

  /** Only the last message counts: two histories that end in messages with the same text are
      formatted alike, whatever came before and whatever the roles. */
  lemma OnlyLastMessageMatters(h1: seq<Message>, h2: seq<Message>, imagePath: Option<string>, images: ImageStore)
    requires |h1| > 0 && |h2| > 0
    requires h1[|h1| - 1].content.text == h2[|h2| - 1].content.text
    ensures FormatMessages(h1, imagePath, images) == FormatMessages(h2, imagePath, images)
  {
  }

  /** The `google.generativeai` adapter object; `chat` is `self.chat`. */
  class GeminiModel {
    var chat: Option<ChatSession>

    /** Every session this adapter holds was started with `SEED`. */
    ghost predicate Valid()
      reads this
    {
      chat.Some? ==> chat.value.seed == SEED
    }

    constructor ()
      ensures Valid() && chat == None
    {
      chat := None;
    }

    /** `GeminiModel.generate_response`. The caller's model choice is ignored. An image prompt goes
        to `generateContent` and leaves the session alone; a text prompt starts the session if
        there is none yet and goes to `sendMessage`. Every error is re-raised with `ERROR_PREFIX`,
        one from an image generation first with `IMAGE_ERROR_PREFIX`. */
    method GenerateResponse(history: seq<Message>, model: string, imagePath: Option<string>, images: ImageStore,
                            generateContent: seq<Part> -> Result<string>,
                            sendMessage: (ChatSession, string) -> Result<string>)
      returns (r: Result<string>)
      requires Valid()
      modifies this
      ensures Valid()
      ensures r.Failure? ==> ERROR_PREFIX <= r.error
      ensures var f := FormatMessages(history, imagePath, images);
              f.Failure? ==> r == Failure(ERROR_PREFIX + f.error) && chat == old(chat)
      ensures var f := FormatMessages(history, imagePath, images);
              f.Success? && HasImage(imagePath)
              ==> r == generateContent(f.value).Wrap(IMAGE_ERROR_PREFIX).Wrap(ERROR_PREFIX) && chat == old(chat)
      ensures var f := FormatMessages(history, imagePath, images);
              f.Success? && !HasImage(imagePath)
              ==> chat.Some? && r == sendMessage(chat.value, f.value[0].text).Wrap(ERROR_PREFIX)
      ensures var f := FormatMessages(history, imagePath, images);
              old(chat).None? && f.Success? && !HasImage(imagePath) ==> chat.Some? && fresh(chat.value)
      ensures var f := FormatMessages(history, imagePath, images);
              old(chat).Some? || f.Failure? || HasImage(imagePath) ==> chat == old(chat)
    {
      var formatted := FormatMessages(history, imagePath, images);
      if formatted.Failure? {
        return Failure(ERROR_PREFIX + formatted.error);
      }
      if HasImage(imagePath) {
        var response := generateContent(formatted.value);
        return response.Wrap(IMAGE_ERROR_PREFIX).Wrap(ERROR_PREFIX);
      }
      if chat.None? {
        var session := new ChatSession(SEED);
        chat := Some(session);
      }
      var response := sendMessage(chat.value, formatted.value[0].text);
      r := response.Wrap(ERROR_PREFIX);
    }
  }
}
