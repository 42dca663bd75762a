/** The conversation history's entries, as `ConversationManager.add_message` builds them
    (conversation_manager.py), and the image files the adapters read. */
module Messages {
  import opened Wrappers

  datatype Role = System | User | Assistant

  /** A message's `content`: a plain string, or the two-part list
      `[{"type": "text", "text": text}, {"type": "image_url", "image_url": {"url": imageUrl}}]`. */
  datatype Content = Plain(text: string) | WithImage(text: string, imageUrl: string)

  datatype Message = Message(role: Role, content: Content)

  /** The image files on disk: path to the base64 encoding of the file's bytes. A path that is not a
      key does not exist. */
  type ImageStore = map<string, string>

  const DATA_URL_PREFIX := "data:image/jpeg;base64,"

  /** `f"data:image/jpeg;base64,{image_base64}"` */
  function DataUrl(base64: string): (url: string)
    ensures DATA_URL_PREFIX <= url && url[|DATA_URL_PREFIX|..] == base64
  {
    DATA_URL_PREFIX + base64
  }

  /** `conversation_history[1:]`: everything after the first message (nothing, for an empty
      history). */
  function Rest(history: seq<Message>): (r: seq<Message>)
    ensures |history| > 0 ==> |r| == |history| - 1 && forall k | 0 <= k < |r| :: r[k] == history[k + 1]
    ensures |history| == 0 ==> r == []
  {
    if |history| == 0 then [] else history[1..]
  }

  /** Python's truth value of an `Optional[str]` image path: neither `None` nor `""`. */
  predicate HasImage(path: Option<string>)
  {
    path.Some? && path.value != ""
  }

  /** `str(e)` of the `FileNotFoundError` that `open(path, "rb")` raises for a missing file. */
  function NoSuchFile(path: string): string
  {
    "[Errno 2] No such file or directory: '" + path + "'"
  }

  /** `base64.b64encode(open(path, "rb").read()).decode('utf-8')`. */
  function ReadImage(images: ImageStore, path: string): (r: Result<string>)
    ensures r.Success? <==> path in images
    ensures r.Success? ==> r.value == images[path]
    ensures r.Failure? ==> r.error == NoSuchFile(path)
  {
    if path in images then Success(images[path]) else Failure(NoSuchFile(path))
  }
}
