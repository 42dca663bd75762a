/** `ConversationManager` (conversation_manager.py): the conversation history, the backend switch
    and one turn of `get_response`. The backends, the cameras and the speech engine are oracles:
    the turn itself is the pure function `TurnSpec`, and the class's `GetResponse` performs it step
    by step on the `history` field. */
module Conversation {
  import opened Wrappers
  import opened Text
  import opened Messages
  import opened SystemPrompts
  import opened Commands
  import opened Directives
  import KeyManager

  // ---------------------------------------------------------------- backends

  /** The five adapter classes `set_ai_model` can install. */
  datatype Backend = ChatGPT | Claude | Gemini | Grok | Perplexity

  /** `get_model_name()` of each adapter. */
  function BackendName(b: Backend): string
  {
    match b
    case ChatGPT => "ChatGPT"
    case Claude => "Claude"
    case Gemini => "Gemini"
    case Grok => "Grok"
    case Perplexity => "Perplexity"
  }

  /** The name `set_ai_model` accepts for each backend. */
  function BackendOf(name: string): (r: Option<Backend>)
    ensures r.Some? ==> BackendName(r.value) == name
    ensures r.None? ==> forall b: Backend :: BackendName(b) != name
  {
    if name == "ChatGPT" then Some(ChatGPT)
    else if name == "Claude" then Some(Claude)
    else if name == "Gemini" then Some(Gemini)
    else if name == "Grok" then Some(Grok)
    else if name == "Perplexity" then Some(Perplexity)
    else None
  }

  /** Each backend's name selects that backend again, so no two backends share a name. */
  lemma NameSelectsBackend(b: Backend)
    ensures BackendOf(BackendName(b)) == Some(b)
  {
  }

  /** The service each adapter's constructor loads its key for. */
  function Service(b: Backend): string
  {
    match b
    case ChatGPT => "openai"
    case Claude => "anthropic"
    case Gemini => "google"
    case Grok => "x"
    case Perplexity => "perplexity"
  }

  /** Every adapter's service is one the key manager knows, and no two adapters share one. */
  lemma ServicesKnown(b: Backend, c: Backend)
    ensures Service(b) in KeyManager.DEFAULT_KEYS
    ensures Service(b) == Service(c) ==> b == c
  {
  }

  // ---------------------------------------------------------------- add_message

  function ImageNotFound(path: string): string
  {
    "Image file not found: " + path
  }

  /** `encode_image_to_base64(path)`, which reports a missing file in its own words. */
  function EncodeImage(images: ImageStore, path: string): (r: Result<string>)
    ensures r.Success? <==> path in images
    ensures r.Success? ==> r.value == images[path]
    ensures r.Failure? ==> r.error == ImageNotFound(path)
  {
    if path in images then Success(images[path]) else Failure(ImageNotFound(path))
  }

  /** The entry `add_message(role, content, image_path)` appends: the two-part content with the
      image's data URL when the path is truthy, plain content otherwise. */
  function NewMessage(role: Role, text: string, imagePath: Option<string>, images: ImageStore): (r: Result<Message>)
    ensures !HasImage(imagePath) ==> r == Success(Message(role, Plain(text)))
    ensures HasImage(imagePath) && imagePath.value !in images ==> r == Failure(ImageNotFound(imagePath.value))
    ensures HasImage(imagePath) && imagePath.value in images
            ==> r == Success(Message(role, WithImage(text, DataUrl(images[imagePath.value]))))
  {
    if HasImage(imagePath) then
      var b64 := EncodeImage(images, imagePath.value);
      if b64.Success? then Success(Message(role, WithImage(text, DataUrl(b64.value))))
      else Failure(b64.error)
    else
      Success(Message(role, Plain(text)))
  }

  // ---------------------------------------------------------------- the turn

  /** What one turn may call out to. `generate(b, history, model, image_path)` is
      `generate_response` of backend `b`; `highRes(n)` is `capture_high_res(camera, n)`;
      `commandCapture(n)` and `directiveCapture(n)` are `capture_and_convert(camera, n)` for a
      user's analyze command and for a model's camera directive. */
  datatype Env = Env(
    generate: (Backend, seq<Message>, Option<string>, Option<string>) -> Result<string>,
    highRes: nat -> Option<string>,
    commandCapture: nat -> Option<string>,
    directiveCapture: nat -> Option<string>,
    images: ImageStore)

  /** One `generate_response` call: backend, history, model hint and image path. */
  datatype Call = Call(backend: Backend, history: seq<Message>, hint: Option<string>, image: Option<string>)

  /** One `text_to_speech(text, language, ..., model_name)` call. */
  datatype SpeechRequest = SpeechRequest(text: string, language: Lang, modelName: string)

  /** The outcome of one `get_response`: the returned text, the entries appended to the history, the
      speech request made (if any) and the generate calls made, in order. */
  datatype Turn = Turn(reply: string, appended: seq<Message>, speech: Option<SpeechRequest>, calls: seq<Call>)

  const CAMERA_NOT_INITIALIZED := "Error: Camera not initialized"
  const REQUESTED_CAMERA_NOT_INITIALIZED := "Error: Requested camera not initialized"
  const PHOTO_SAVED := "Photo saved to: "
  const PHOTO_FAILED := "Error taking photo"
  const CAPTURE_FAILED := "Error capturing image"
  const ERROR_PREFIX := "Error: "
  const SEARCH_ERROR_PREFIX := "I encountered an error while searching: "
  const ANALYZE_ANNOUNCEMENT := "Let me analyze that image."
  const ANALYZE_REQUEST := "Please analyze this image."
  const SEARCH_SYSTEM := "You are a helpful search assistant. Provide accurate and concise information."
  const SEARCH_MODEL := "llama-3.1-sonar-large-128k-online"

  /** Whether the camera a command or directive names is set: only "1" and "2" name cameras. */
  predicate CameraReady(c: char, camera1: bool, camera2: bool)
  {
    (c == '1' && camera1) || (c == '2' && camera2)
  }

  function CameraNumber(c: char): nat
  {
    if c == '1' then 1 else 2
  }

  /** The model hint: a ChatGPT backend gets "gpt-4o-mini" for a turn that starts with an image and
      "gpt-4o" otherwise; the other backends pick their own model. */
  function Hint(b: Backend, imagePath: Option<string>): (m: Option<string>)
    ensures m.Some? <==> b == ChatGPT
    ensures m == Some("gpt-4o-mini") <==> b == ChatGPT && HasImage(imagePath)
  {
    if b == ChatGPT then Some(if HasImage(imagePath) then "gpt-4o-mini" else "gpt-4o") else None
  }

  /** The user message that carries the search results. */
  function Combined(input: string, query: string, result: string): string
  {
    "Original query: " + input + "\n\nSearch results for \"" + query + "\":\n" + result
      + "\n\nPlease provide a complete response incorporating this information."
  }

  /** The speech request for a reply: `tts_manager.text_to_speech(text, detect_language(text),
      current_model.get_model_name())`. The name it carries selects the replying backend again. */
  function Speech(b: Backend, text: string): (s: SpeechRequest)
    ensures s.text == text && s.language == DetectLanguage(text)
    ensures BackendOf(s.modelName) == Some(b)
  {
    NameSelectsBackend(b);
    SpeechRequest(text, DetectLanguage(text), BackendName(b))
  }

  /** The assistant entry `{"role": "assistant", "content": text}` stored for a reply. */
  function Said(text: string): Message
  {
    Message(Assistant, Plain(text))
  }

  /** Whether the user's command leaves the turn to the model: not a photo request, and not an
      analysis of a camera that is not set. */
  predicate ReachesModel(cmd: Command, camera1: bool, camera2: bool)
  {
    !cmd.TakePhoto? && !(cmd.Analyze? && !CameraReady(cmd.camera, camera1, camera2))
  }

  /** The image path an analyze command captures; `None` for an ordinary message. */
  function UserImage(cmd: Command, env: Env): Option<string>
  {
    if cmd.Analyze? then env.commandCapture(CameraNumber(cmd.camera)) else None
  }

  /** `get_response(user_input)` on a history `h`, current backend `b` and camera references. */
  function TurnSpec(h: seq<Message>, b: Backend, camera1: bool, camera2: bool, input: string, env: Env): Turn
  {
    var cmd := ParseCommand(input);
    if cmd.TakePhoto? then
      if !CameraReady(cmd.camera, camera1, camera2) then Turn(CAMERA_NOT_INITIALIZED, [], None, [])
      else
        var filepath := env.highRes(CameraNumber(cmd.camera));
        if HasImage(filepath) then Turn(PHOTO_SAVED + filepath.value, [], None, [])
        else Turn(PHOTO_FAILED, [], None, [])
    else if !ReachesModel(cmd, camera1, camera2) then
      Turn(CAMERA_NOT_INITIALIZED, [], None, [])
    else
      AfterCommand(h, b, camera1, camera2, input, UserImage(cmd, env), env)
  }

  /** The first reply of the current backend, once the user's message `u` is in the history. */
  function FirstReply(h: seq<Message>, b: Backend, u: Message, imagePath: Option<string>, env: Env): Result<string>
  {
    env.generate(b, h + [u], Hint(b, imagePath), imagePath)
  }

  /** The rest of the turn once the user's command has been dealt with. */
  function AfterCommand(h: seq<Message>, b: Backend, camera1: bool, camera2: bool, input: string,
                        imagePath: Option<string>, env: Env): Turn
  {
    var user := NewMessage(User, input, imagePath, env.images);
    if user.Failure? then Turn(ERROR_PREFIX + user.error, [], None, [])
    else
      var u := user.value;
      var hint := Hint(b, imagePath);
      var first := Call(b, h + [u], hint, imagePath);
      var initial := FirstReply(h, b, u, imagePath, env);
      if initial.Failure? then Turn(ERROR_PREFIX + initial.error, [u], None, [first])
      else
        match Scan(initial.value)
        case CameraRequest(d) => CameraFollowUp(h + [u], b, camera1, camera2, d, hint, env, [u], [first])
        case SearchRequest(q) => SearchFollowUp(h + [u], b, input, q, imagePath, hint, env, [u], [first])
        case NoDirective =>
          Turn(initial.value, [u, Said(initial.value)], Some(Speech(b, initial.value)), [first])
  }

  /** A camera directive with digit `d` in the first reply: capture, append the two image messages
      and ask again. */
  function CameraFollowUp(h: seq<Message>, b: Backend, camera1: bool, camera2: bool, d: char,
                          hint: Option<string>, env: Env, appended: seq<Message>, calls: seq<Call>): Turn
  {
    if !CameraReady(d, camera1, camera2) then Turn(REQUESTED_CAMERA_NOT_INITIALIZED, appended, None, calls)
    else
      var imagePath := env.directiveCapture(CameraNumber(d));
      if !HasImage(imagePath) then Turn(CAPTURE_FAILED, appended, None, calls)
      else
        var a := Said(ANALYZE_ANNOUNCEMENT);
        var request := NewMessage(User, ANALYZE_REQUEST, imagePath, env.images);
        if request.Failure? then Turn(ERROR_PREFIX + request.error, appended + [a], None, calls)
        else
          var h2 := h + [a, request.value];
          var call := Call(b, h2, hint, imagePath);
          var final := env.generate(b, h2, hint, imagePath);
          if final.Failure? then
            Turn(ERROR_PREFIX + final.error, appended + [a, request.value], None, calls + [call])
          else
            Turn(final.value, appended + [a, request.value, Said(final.value)], Some(Speech(b, final.value)),
                 calls + [call])
  }

  /** A search directive for `q` (and no camera directive) in the first reply: ask the search
      backend, append its results as a user message and ask again. Any failure here is reported as
      a search error. */
  function SearchFollowUp(h: seq<Message>, b: Backend, input: string, q: string, imagePath: Option<string>,
                          hint: Option<string>, env: Env, appended: seq<Message>, calls: seq<Call>): Turn
  {
    var searchMessages := [Message(System, Plain(SEARCH_SYSTEM)), Message(User, Plain(q))];
    var searchCall := Call(Perplexity, searchMessages, Some(SEARCH_MODEL), None);
    var result := env.generate(Perplexity, searchMessages, Some(SEARCH_MODEL), None);
    if result.Failure? then Turn(SEARCH_ERROR_PREFIX + result.error, appended, None, calls + [searchCall])
    else
      var c := Message(User, Plain(Combined(input, q, result.value)));
      var call := Call(b, h + [c], hint, imagePath);
      var final := env.generate(b, h + [c], hint, imagePath);
      if final.Failure? then
        Turn(SEARCH_ERROR_PREFIX + final.error, appended + [c], None, calls + [searchCall, call])
      else
        Turn(final.value, appended + [c, Said(final.value)], Some(Speech(b, final.value)),
             calls + [searchCall, call])
  }

  // ---------------------------------------------------------------- what a turn does

  /** A photo request never reaches a model: nothing is appended, spoken or generated, and the reply
      is the saved path or one of two errors. */
  lemma TakePhotoTurn(h: seq<Message>, b: Backend, camera1: bool, camera2: bool, input: string, env: Env)
    requires ParseCommand(input).TakePhoto?
    ensures var t := TurnSpec(h, b, camera1, camera2, input, env);
      && t.appended == [] && t.speech.None? && t.calls == []
      && (t.reply == CAMERA_NOT_INITIALIZED || t.reply == PHOTO_FAILED || PHOTO_SAVED <= t.reply)
      && (!CameraReady(ParseCommand(input).camera, camera1, camera2) <==> t.reply == CAMERA_NOT_INITIALIZED)
  {
    var c := ParseCommand(input).camera;
    var t := TurnSpec(h, b, camera1, camera2, input, env);
    if !CameraReady(c, camera1, camera2) {
      assert t == Turn(CAMERA_NOT_INITIALIZED, [], None, []);
    } else {
      var filepath := env.highRes(CameraNumber(c));
      if HasImage(filepath) {
        assert t == Turn(PHOTO_SAVED + filepath.value, [], None, []);
        assert t.reply[0] != CAMERA_NOT_INITIALIZED[0];
      } else {
        assert t == Turn(PHOTO_FAILED, [], None, []);
        assert t.reply[5] != CAMERA_NOT_INITIALIZED[5];
      }
    }
  }

  /** A turn that reaches the model and whose first reply has no directive appends exactly the
      user's message and that reply, speaks the reply and asks the model once; for an utterance
      with no command the user's message is the plain text. */
  lemma PlainTurn(h: seq<Message>, b: Backend, camera1: bool, camera2: bool, input: string, env: Env,
                  img: Option<string>, u: Message, r: string)
    requires ReachesModel(ParseCommand(input), camera1, camera2) && img == UserImage(ParseCommand(input), env)
    requires NewMessage(User, input, img, env.images) == Success(u)
    requires FirstReply(h, b, u, img, env) == Success(r)
    requires Scan(r).NoDirective?
    ensures var t := TurnSpec(h, b, camera1, camera2, input, env);
      && t.reply == r
      && t.appended == [u, Message(Assistant, Plain(r))]
      && t.speech == Some(SpeechRequest(r, DetectLanguage(r), BackendName(b)))
      && t.calls == [Call(b, h + [u], Hint(b, img), img)]
    ensures ParseCommand(input).Normal? ==> img == None && u == Message(User, Plain(input))
  {
    TurnReachesModel(h, b, camera1, camera2, input, env);
  }

  /** Once the command lets the turn through, the turn is `AfterCommand` on the captured image. */
  lemma TurnReachesModel(h: seq<Message>, b: Backend, camera1: bool, camera2: bool, input: string, env: Env)
    requires ReachesModel(ParseCommand(input), camera1, camera2)
    ensures TurnSpec(h, b, camera1, camera2, input, env)
         == AfterCommand(h, b, camera1, camera2, input, UserImage(ParseCommand(input), env), env)
  {
  }

  /** A first reply holding a camera directive: the search directive is never looked at; the
      directive reply itself is not stored; a fully successful follow-up appends the user's message,
      the announcement, the image request and the final reply. */
  lemma CameraDirectiveTurn(h: seq<Message>, b: Backend, camera1: bool, camera2: bool, input: string, env: Env,
                            img: Option<string>, u: Message, r: string, d: char)
    requires ReachesModel(ParseCommand(input), camera1, camera2) && img == UserImage(ParseCommand(input), env)
    requires NewMessage(User, input, img, env.images) == Success(u)
    requires FirstReply(h, b, u, img, env) == Success(r) && Scan(r) == CameraRequest(d)
    ensures var t := TurnSpec(h, b, camera1, camera2, input, env);
      && 1 <= |t.appended| <= 4 && t.appended[0] == u
      && (!CameraReady(d, camera1, camera2) ==> t.reply == REQUESTED_CAMERA_NOT_INITIALIZED && t.appended == [u])
      && (forall i | 0 <= i < |t.calls| :: t.calls[i].backend == b && t.calls[i].hint == Hint(b, img))
      && (t.speech.Some? <==> |t.appended| == 4)
      && (|t.appended| == 4 ==>
            && t.appended[1] == Message(Assistant, Plain(ANALYZE_ANNOUNCEMENT))
            && t.appended[2].role == User && t.appended[2].content.WithImage?
            && t.appended[2].content.text == ANALYZE_REQUEST
            && t.appended[3] == Message(Assistant, Plain(t.reply)))
  {
    var first := Call(b, h + [u], Hint(b, img), img);
    TurnReachesModel(h, b, camera1, camera2, input, env);
    AfterCommandCamera(h, b, camera1, camera2, input, img, env, u, r, d);
    assert TurnSpec(h, b, camera1, camera2, input, env)
        == CameraFollowUp(h + [u], b, camera1, camera2, d, Hint(b, img), env, [u], [first]);
    CameraFollowUpFacts(h, b, camera1, camera2, d, img, env, u, first);
  }

  /** The camera follow-up on its own. */
  lemma CameraFollowUpFacts(h: seq<Message>, b: Backend, camera1: bool, camera2: bool, d: char,
                            img: Option<string>, env: Env, u: Message, first: Call)
    requires first == Call(b, h + [u], Hint(b, img), img)
    ensures var t := CameraFollowUp(h + [u], b, camera1, camera2, d, Hint(b, img), env, [u], [first]);
      && 1 <= |t.appended| <= 4 && t.appended[0] == u
      && (!CameraReady(d, camera1, camera2) ==> t.reply == REQUESTED_CAMERA_NOT_INITIALIZED && t.appended == [u])
      && (forall i | 0 <= i < |t.calls| :: t.calls[i].backend == b && t.calls[i].hint == Hint(b, img))
      && (t.speech.Some? <==> |t.appended| == 4)
      && (|t.appended| == 4 ==>
            && t.appended[1] == Message(Assistant, Plain(ANALYZE_ANNOUNCEMENT))
            && t.appended[2].role == User && t.appended[2].content.WithImage?
            && t.appended[2].content.text == ANALYZE_REQUEST
            && t.appended[3] == Message(Assistant, Plain(t.reply)))
  {
    var t := CameraFollowUp(h + [u], b, camera1, camera2, d, Hint(b, img), env, [u], [first]);
    if CameraReady(d, camera1, camera2) {
      var imagePath := env.directiveCapture(CameraNumber(d));
      if HasImage(imagePath) {
        var a := Said(ANALYZE_ANNOUNCEMENT);
        var request := NewMessage(User, ANALYZE_REQUEST, imagePath, env.images);
        if request.Success? {
          var h2 := h + [u] + [a, request.value];
          var call := Call(b, h2, Hint(b, img), imagePath);
          assert t.calls == [first, call];
        }
      }
    }
  }

  /** The errors of the camera follow-up once the camera is set: a failed capture replies
      "Error capturing image" and keeps only the user's message; a failed image request or a failed
      final reply gives "Error: " and the exception's text, keeping what was appended before it.
      None of them is spoken. */
  lemma CameraFollowUpErrors(h: seq<Message>, b: Backend, camera1: bool, camera2: bool, d: char,
                             img: Option<string>, env: Env, u: Message, first: Call)
    requires CameraReady(d, camera1, camera2)
    ensures var t := CameraFollowUp(h + [u], b, camera1, camera2, d, Hint(b, img), env, [u], [first]);
      var shot := env.directiveCapture(CameraNumber(d));
      var a := Message(Assistant, Plain(ANALYZE_ANNOUNCEMENT));
      var request := NewMessage(User, ANALYZE_REQUEST, shot, env.images);
      && (!HasImage(shot) ==> t.reply == CAPTURE_FAILED && t.appended == [u] && t.speech.None? && t.calls == [first])
      && (HasImage(shot) && request.Failure? ==>
            t.reply == ERROR_PREFIX + request.error && t.appended == [u, a] && t.speech.None?)
      && (HasImage(shot) && request.Success? ==>
            var final := env.generate(b, h + [u, a, request.value], Hint(b, img), shot);
            final.Failure? ==>
              t.reply == ERROR_PREFIX + final.error && t.appended == [u, a, request.value] && t.speech.None?)
  {
    var shot := env.directiveCapture(CameraNumber(d));
    var a := Message(Assistant, Plain(ANALYZE_ANNOUNCEMENT));
    var request := NewMessage(User, ANALYZE_REQUEST, shot, env.images);
    if HasImage(shot) && request.Success? {
      assert h + [u] + [a, request.value] == h + [u, a, request.value];
    }
  }

  /** The errors before any directive is read: a missing image file for the user's message replies
      "Error: " and the exception's text and appends nothing; a failed first reply does the same
      after appending the user's message. Neither is spoken. */
  lemma AfterCommandErrors(h: seq<Message>, b: Backend, camera1: bool, camera2: bool, input: string,
                           img: Option<string>, env: Env)
    ensures var t := AfterCommand(h, b, camera1, camera2, input, img, env);
      var user := NewMessage(User, input, img, env.images);
      && (user.Failure? ==> t.reply == ERROR_PREFIX + user.error && t.appended == [] && t.speech.None?)
      && (user.Success? && FirstReply(h, b, user.value, img, env).Failure? ==>
            t.reply == ERROR_PREFIX + FirstReply(h, b, user.value, img, env).error
            && t.appended == [user.value] && t.speech.None?)
  {
  }

  /** The search follow-up on its own. */
  lemma SearchFollowUpFacts(h: seq<Message>, b: Backend, input: string, q: string, img: Option<string>,
                            env: Env, u: Message, first: Call)
    ensures var sm := [Message(System, Plain(SEARCH_SYSTEM)), Message(User, Plain(q))];
      var result := env.generate(Perplexity, sm, Some(SEARCH_MODEL), None);
      var t := SearchFollowUp(h + [u], b, input, q, img, Hint(b, img), env, [u], [first]);
      && 2 <= |t.calls| && t.calls[0] == first && t.calls[1] == Call(Perplexity, sm, Some(SEARCH_MODEL), None)
      && (t.speech.None? ==> SEARCH_ERROR_PREFIX <= t.reply)
      && (result.Failure? ==> t.reply == SEARCH_ERROR_PREFIX + result.error && t.appended == [u])
      && (t.speech.Some? ==>
            && result.Success?
            && var c := Message(User, Plain(Combined(input, q, result.value)));
               t.appended == [u, c, Message(Assistant, Plain(t.reply))]
               && t.calls[2] == Call(b, h + [u, c], Hint(b, img), img))
  {
    var sm := [Message(System, Plain(SEARCH_SYSTEM)), Message(User, Plain(q))];
    var result := env.generate(Perplexity, sm, Some(SEARCH_MODEL), None);
    if result.Success? {
      var c := Message(User, Plain(Combined(input, q, result.value)));
      assert h + [u] + [c] == h + [u, c];
    }
  }

  lemma AfterCommandSearch(h: seq<Message>, b: Backend, camera1: bool, camera2: bool, input: string,
                           img: Option<string>, env: Env, u: Message, r: string, q: string)
    requires NewMessage(User, input, img, env.images) == Success(u)
    requires FirstReply(h, b, u, img, env) == Success(r) && Scan(r) == SearchRequest(q)
    ensures AfterCommand(h, b, camera1, camera2, input, img, env)
         == SearchFollowUp(h + [u], b, input, q, img, Hint(b, img), env, [u], [Call(b, h + [u], Hint(b, img), img)])
  {
  }

  lemma AfterCommandCamera(h: seq<Message>, b: Backend, camera1: bool, camera2: bool, input: string,
                           img: Option<string>, env: Env, u: Message, r: string, d: char)
    requires NewMessage(User, input, img, env.images) == Success(u)
    requires FirstReply(h, b, u, img, env) == Success(r) && Scan(r) == CameraRequest(d)
    ensures AfterCommand(h, b, camera1, camera2, input, img, env)
         == CameraFollowUp(h + [u], b, camera1, camera2, d, Hint(b, img), env, [u], [Call(b, h + [u], Hint(b, img), img)])
  {
  }

  /** A first reply holding a search directive (and no camera directive): the search backend is
      asked with the fixed search prompt; a successful follow-up appends the user's message, the
      combined search message and the final reply; every failure is a search error. */
  lemma SearchDirectiveTurn(h: seq<Message>, b: Backend, camera1: bool, camera2: bool, input: string, env: Env,
                            img: Option<string>, u: Message, r: string, q: string)
    requires ReachesModel(ParseCommand(input), camera1, camera2) && img == UserImage(ParseCommand(input), env)
    requires NewMessage(User, input, img, env.images) == Success(u)
    requires FirstReply(h, b, u, img, env) == Success(r) && Scan(r) == SearchRequest(q)
    ensures var sm := [Message(System, Plain(SEARCH_SYSTEM)), Message(User, Plain(q))];
      var result := env.generate(Perplexity, sm, Some(SEARCH_MODEL), None);
      var t := TurnSpec(h, b, camera1, camera2, input, env);
      && 2 <= |t.calls| && t.calls[1] == Call(Perplexity, sm, Some(SEARCH_MODEL), None)
      && (t.speech.None? ==> SEARCH_ERROR_PREFIX <= t.reply)
      && (result.Failure? ==> t.reply == SEARCH_ERROR_PREFIX + result.error && t.appended == [u])
      && (t.speech.Some? ==>
            && result.Success?
            && var c := Message(User, Plain(Combined(input, q, result.value)));
               t.appended == [u, c, Message(Assistant, Plain(t.reply))]
               && t.calls[2] == Call(b, h + [u, c], Hint(b, img), img))
  {
    var first := Call(b, h + [u], Hint(b, img), img);
    TurnReachesModel(h, b, camera1, camera2, input, env);
    AfterCommandSearch(h, b, camera1, camera2, input, img, env, u, r, q);
    assert TurnSpec(h, b, camera1, camera2, input, env)
        == SearchFollowUp(h + [u], b, input, q, img, Hint(b, img), env, [u], [first]);
    SearchFollowUpFacts(h, b, input, q, img, env, u, first);
  }

  /** The generate call made for the search directive. */
  predicate IsSearchCall(c: Call)
  {
    && c.backend == Perplexity && c.hint == Some(SEARCH_MODEL) && c.image == None
    && |c.history| == 2 && c.history[0] == Message(System, Plain(SEARCH_SYSTEM)) && c.history[1].role == User
  }

  /** The shape every turn that reaches a model has. */
  predicate WellFormedTurn(t: Turn, h: seq<Message>, b: Backend, u: Message, img: Option<string>)
  {
    && |t.appended| <= 4 && |t.calls| <= 3
    && (|t.appended| > 0 ==> t.appended[0] == u)
    && (|t.calls| > 0 ==> t.calls[0] == Call(b, h + [u], Hint(b, img), img))
    && (forall i | 0 <= i < |t.calls| ::
          IsSearchCall(t.calls[i]) || (t.calls[i].backend == b && t.calls[i].hint == Hint(b, img)))
    && (forall i | 0 <= i < |t.calls| :: IsSearchCall(t.calls[i]) ==> i == 1)
    && (t.speech.Some? <==> |t.appended| > 0 && t.appended[|t.appended| - 1] == Message(Assistant, Plain(t.reply)))
    && (t.speech.Some? ==> t.speech.value == SpeechRequest(t.reply, DetectLanguage(t.reply), BackendName(b)))
  }

  lemma {:induction false} ErrorIsNotAnnouncement(e: string)
    ensures ERROR_PREFIX + e != ANALYZE_ANNOUNCEMENT
  {
    assert (ERROR_PREFIX + e)[0] != ANALYZE_ANNOUNCEMENT[0];
  }

  lemma {:induction false} CameraFollowUpShape(h: seq<Message>, b: Backend, camera1: bool, camera2: bool, d: char,
                                               img: Option<string>, env: Env, u: Message, first: Call)
    requires u.role == User && first == Call(b, h + [u], Hint(b, img), img)
    ensures WellFormedTurn(CameraFollowUp(h + [u], b, camera1, camera2, d, Hint(b, img), env, [u], [first]),
                           h, b, u, img)
  {
    if CameraReady(d, camera1, camera2) && HasImage(env.directiveCapture(CameraNumber(d))) {
      var request := NewMessage(User, ANALYZE_REQUEST, env.directiveCapture(CameraNumber(d)), env.images);
      if request.Failure? {
        ErrorIsNotAnnouncement(request.error);
      }
    }
  }

  lemma {:induction false} SearchFollowUpShape(h: seq<Message>, b: Backend, input: string, q: string,
                                               img: Option<string>, env: Env, u: Message, first: Call)
    requires u.role == User && first == Call(b, h + [u], Hint(b, img), img)
    ensures WellFormedTurn(SearchFollowUp(h + [u], b, input, q, img, Hint(b, img), env, [u], [first]),
                           h, b, u, img)
  {
    var t := SearchFollowUp(h + [u], b, input, q, img, Hint(b, img), env, [u], [first]);
    var sm := SearchMessages(q);
    var searchCall := Call(Perplexity, sm, Some(SEARCH_MODEL), None);
    var result := env.generate(Perplexity, sm, Some(SEARCH_MODEL), None);
    if result.Failure? {
      assert t == Turn(SEARCH_ERROR_PREFIX + result.error, [u], None, [first, searchCall]);
      SearchFailedShape(h, b, u, img, first, q, result.error);
    } else {
      var c := Message(User, Plain(Combined(input, q, result.value)));
      var call := Call(b, h + [u] + [c], Hint(b, img), img);
      var final := env.generate(b, h + [u] + [c], Hint(b, img), img);
      if final.Failure? {
        assert t == Turn(SEARCH_ERROR_PREFIX + final.error, [u, c], None, [first, searchCall, call]);
        SearchFinalFailedShape(h, b, u, img, first, q, c, final.error);
      } else {
        assert t == Turn(final.value, [u, c, Said(final.value)], Some(Speech(b, final.value)), [first, searchCall, call]);
        SearchAnsweredShape(h, b, u, img, first, q, c, final.value);
      }
    }
  }

  function SearchMessages(q: string): seq<Message>
  {
    [Message(System, Plain(SEARCH_SYSTEM)), Message(User, Plain(q))]
  }

  lemma HintIsNotSearch(b: Backend, img: Option<string>)
    ensures Hint(b, img) != Some(SEARCH_MODEL)
  {
    assert "gpt-4o-mini"[0] != SEARCH_MODEL[0] && "gpt-4o"[0] != SEARCH_MODEL[0];
  }

  lemma SearchFailedShape(h: seq<Message>, b: Backend, u: Message, img: Option<string>, first: Call,
                          q: string, e: string)
    requires u.role == User && first == Call(b, h + [u], Hint(b, img), img)
    ensures WellFormedTurn(Turn(SEARCH_ERROR_PREFIX + e, [u], None,
                                [first, Call(Perplexity, SearchMessages(q), Some(SEARCH_MODEL), None)]), h, b, u, img)
  {
    HintIsNotSearch(b, img);
  }

  lemma SearchFinalFailedShape(h: seq<Message>, b: Backend, u: Message, img: Option<string>, first: Call,
                               q: string, c: Message, e: string)
    requires u.role == User && c.role == User && first == Call(b, h + [u], Hint(b, img), img)
    ensures WellFormedTurn(Turn(SEARCH_ERROR_PREFIX + e, [u, c], None,
                                [first, Call(Perplexity, SearchMessages(q), Some(SEARCH_MODEL), None),
                                 Call(b, h + [u] + [c], Hint(b, img), img)]), h, b, u, img)
  {
    HintIsNotSearch(b, img);
  }

  lemma SearchAnsweredShape(h: seq<Message>, b: Backend, u: Message, img: Option<string>, first: Call,
                            q: string, c: Message, v: string)
    requires u.role == User && first == Call(b, h + [u], Hint(b, img), img)
    ensures WellFormedTurn(Turn(v, [u, c, Said(v)], Some(Speech(b, v)),
                                [first, Call(Perplexity, SearchMessages(q), Some(SEARCH_MODEL), None),
                                 Call(b, h + [u] + [c], Hint(b, img), img)]), h, b, u, img)
  {
    HintIsNotSearch(b, img);
  }

  lemma {:induction false} AfterCommandShape(h: seq<Message>, b: Backend, camera1: bool, camera2: bool, input: string,
                                             img: Option<string>, env: Env)
    ensures var user := NewMessage(User, input, img, env.images);
      var t := AfterCommand(h, b, camera1, camera2, input, img, env);
      && (user.Failure? ==> t == Turn(ERROR_PREFIX + user.error, [], None, []))
      && (user.Success? ==> WellFormedTurn(t, h, b, user.value, img))
  {
    var user := NewMessage(User, input, img, env.images);
    if user.Success? {
      var u := user.value;
      var first := Call(b, h + [u], Hint(b, img), img);
      var initial := FirstReply(h, b, u, img, env);
      if initial.Success? {
        match Scan(initial.value)
        case CameraRequest(d) => CameraFollowUpShape(h, b, camera1, camera2, d, img, env, u, first);
        case SearchRequest(q) => SearchFollowUpShape(h, b, input, q, img, env, u, first);
        case NoDirective =>
      }
    }
  }

  /** Over every turn: at most four entries are appended, the first of them the user's own
      message; the user's request goes first to the current backend; every generate call except the
      one search call uses the current backend with the hint computed once at the start; and the
      reply is spoken exactly when the turn ends by storing that reply as the assistant's entry. */
  lemma {:induction false} TurnShape(h: seq<Message>, b: Backend, camera1: bool, camera2: bool, input: string, env: Env)
    ensures var cmd := ParseCommand(input);
      var img := UserImage(cmd, env);
      var user := NewMessage(User, input, img, env.images);
      var t := TurnSpec(h, b, camera1, camera2, input, env);
      && (!ReachesModel(cmd, camera1, camera2) ==> t.appended == [] && t.calls == [] && t.speech.None?)
      && (ReachesModel(cmd, camera1, camera2) && user.Failure? ==> t == Turn(ERROR_PREFIX + user.error, [], None, []))
      && (ReachesModel(cmd, camera1, camera2) && user.Success? ==> WellFormedTurn(t, h, b, user.value, img))
  {
    var cmd := ParseCommand(input);
    if ReachesModel(cmd, camera1, camera2) {
      TurnReachesModel(h, b, camera1, camera2, input, env);
      AfterCommandShape(h, b, camera1, camera2, input, UserImage(cmd, env), env);
    }
  }

  /** The follow-ups only extend what they are given. */
  lemma CameraFollowUpExtends(h: seq<Message>, b: Backend, camera1: bool, camera2: bool, d: char,
                              hint: Option<string>, env: Env, appended: seq<Message>, calls: seq<Call>)
    ensures var t := CameraFollowUp(h, b, camera1, camera2, d, hint, env, appended, calls);
      var t0 := CameraFollowUp(h, b, camera1, camera2, d, hint, env, [], []);
      t == Turn(t0.reply, appended + t0.appended, t0.speech, calls + t0.calls)
  {
  }

  lemma SearchFollowUpExtends(h: seq<Message>, b: Backend, input: string, q: string, imagePath: Option<string>,
                              hint: Option<string>, env: Env, appended: seq<Message>, calls: seq<Call>)
    ensures var t := SearchFollowUp(h, b, input, q, imagePath, hint, env, appended, calls);
      var t0 := SearchFollowUp(h, b, input, q, imagePath, hint, env, [], []);
      t == Turn(t0.reply, appended + t0.appended, t0.speech, calls + t0.calls)
  {
  }

  lemma AppendAssoc(a: seq<Message>, b: seq<Message>, c: seq<Message>)
    ensures a + b + c == a + (b + c)
  {
  }

  // ---------------------------------------------------------------- the manager object

  function SwitchError(name: string, e: string): string
  {
    "Error switching to " + name + ": " + e
  }

  function Unsupported(name: string): string
  {
    "Unsupported model: " + name
  }

  class ConversationManager {
    /** `conversation_history` */
    var history: seq<Message>
    /** the class of `current_model` */
    var current: Backend
    /** whether `camera1` / `camera2` are set */
    var camera1: bool
    var camera2: bool
    /** the `text_to_speech` calls made so far, oldest first */
    var speechLog: seq<SpeechRequest>

    /** The history always starts with the system message. Which prompt it holds is stated by the
        constructor and `SetAiModel`, and every other method leaves `history[0]` alone. */
    ghost predicate Valid()
      reads this
    {
      |history| >= 1 && history[0].role == System && history[0].content.Plain?
    }

    /** The state after `__init__` succeeds. */
    constructor ()
      ensures Valid()
      ensures history == [Message(System, Plain(GetPrompt("ChatGPT")))]
      ensures current == ChatGPT && !camera1 && !camera2 && speechLog == []
    {
      history := [Message(System, Plain(GetPrompt("ChatGPT")))];
      current := ChatGPT;
      camera1, camera2 := false, false;
      speechLog := [];
    }

    /** `set_cameras` */
    method SetCameras(c1: bool, c2: bool)
      modifies this
      ensures camera1 == c1 && camera2 == c2
      ensures history == old(history) && current == old(current) && speechLog == old(speechLog)
    {
      camera1, camera2 := c1, c2;
    }

    /** `add_message`: appends one entry, or fails (changing nothing) when the image is missing. */
    method AddMessage(role: Role, text: string, imagePath: Option<string>, images: ImageStore)
      returns (r: Result<Message>)
      modifies this
      ensures r == NewMessage(role, text, imagePath, images)
      ensures r.Success? ==> history == old(history) + [r.value]
      ensures r.Failure? ==> history == old(history)
      ensures current == old(current) && camera1 == old(camera1) && camera2 == old(camera2)
      ensures speechLog == old(speechLog)
      ensures old(Valid()) ==> Valid()
    {
      if HasImage(imagePath) {
        var imageBase64 := EncodeImage(images, imagePath.value);
        if imageBase64.Failure? {
          return Failure(imageBase64.error);
        }
        var m := Message(role, WithImage(text, DataUrl(imageBase64.value)));
        history := history + [m];
        r := Success(m);
      } else {
        var m := Message(role, Plain(text));
        history := history + [m];
        r := Success(m);
      }
    }

    /** `clear_history`: only the system message stays. */
    method ClearHistory()
      requires Valid()
      modifies this
      ensures history == [old(history)[0]]
      ensures current == old(current) && camera1 == old(camera1) && camera2 == old(camera2)
      ensures speechLog == old(speechLog)
      ensures Valid()
    {
      history := [history[0]];
    }

    /** `set_ai_model(name)`: the system message is rewritten first, whatever follows; a known name
        whose key loads installs the backend, and every backend but ChatGPT starts a fresh
        history. Failures are returned as the message of the exception raised. */
    method SetAiModel(name: string, files: KeyManager.Files) returns (r: Result<Backend>)
      requires Valid()
      modifies this
      ensures Valid()
      ensures history[0] == Message(System, Plain(GetPrompt(name)))
      ensures BackendOf(name).None? ==> r == Failure(SwitchError(name, Unsupported(name)))
      ensures BackendOf(name).Some? && KeyManager.LoadKey(Service(BackendOf(name).value), files).Failure?
              ==> r == Failure(SwitchError(name, KeyManager.LoadKey(Service(BackendOf(name).value), files).error))
      ensures r.Failure? ==> current == old(current) && history[1..] == old(history)[1..]
      ensures r.Success? <==> BackendOf(name).Some? && KeyManager.LoadKey(Service(BackendOf(name).value), files).Success?
      ensures r.Success? ==> r.value == BackendOf(name).value && current == r.value
      ensures r.Success? && r.value == ChatGPT ==> history[1..] == old(history)[1..]
      ensures r.Success? && r.value != ChatGPT ==> |history| == 1
      ensures camera1 == old(camera1) && camera2 == old(camera2) && speechLog == old(speechLog)
    {
      history := history[0 := history[0].(content := Plain(GetPrompt(name)))];
      var b := BackendOf(name);
      if b.None? {
        return Failure(SwitchError(name, Unsupported(name)));
      }
      var key := KeyManager.LoadKey(Service(b.value), files);
      if key.Failure? {
        return Failure(SwitchError(name, key.error));
      }
      current := b.value;
      if b.value != ChatGPT {
        ClearHistory();
      }
      r := Success(b.value);
    }

    /** `text_to_speech(text, detect_language(text), ..., model_name=...)` */
    method Speak(text: string)
      modifies this
      ensures speechLog == old(speechLog) + [Speech(current, text)]
      ensures history == old(history) && current == old(current)
      ensures camera1 == old(camera1) && camera2 == old(camera2)
    {
      speechLog := speechLog + [Speech(current, text)];
    }

    /** `get_response(user_input)`: performs one turn, appending to the history and speaking as
        `TurnSpec` says; it never fails, every error being returned as the reply. */
    method GetResponse(input: string, env: Env) returns (reply: string)
      requires Valid()
      modifies this
      ensures var t := TurnSpec(old(history), current, camera1, camera2, input, env);
        && reply == t.reply
        && history == old(history) + t.appended
        && speechLog == old(speechLog) + (if t.speech.Some? then [t.speech.value] else [])
      ensures current == old(current) && camera1 == old(camera1) && camera2 == old(camera2)
      ensures Valid()
    {
      var cmd := ParseCommand(input);
      var imagePath: Option<string> := None;
      if cmd.TakePhoto? {
        var filepath: Option<string>;
        if cmd.camera == '1' && camera1 {
          filepath := env.highRes(1);
        } else if cmd.camera == '2' && camera2 {
          filepath := env.highRes(2);
        } else {
          return CAMERA_NOT_INITIALIZED;
        }
        if HasImage(filepath) {
          return PHOTO_SAVED + filepath.value;
        }
        return PHOTO_FAILED;
      } else if cmd.Analyze? {
        if cmd.camera == '1' && camera1 {
          imagePath := env.commandCapture(1);
        } else if cmd.camera == '2' && camera2 {
          imagePath := env.commandCapture(2);
        } else {
          return CAMERA_NOT_INITIALIZED;
        }
      }
      TurnReachesModel(history, current, camera1, camera2, input, env);
      reply := Converse(input, imagePath, env);
    }

    /** From adding the user's message on: `AfterCommand`. */
    method Converse(input: string, imagePath: Option<string>, env: Env) returns (reply: string)
      requires Valid()
      modifies this
      ensures var t := AfterCommand(old(history), current, camera1, camera2, input, imagePath, env);
        && reply == t.reply
        && history == old(history) + t.appended
        && speechLog == old(speechLog) + (if t.speech.Some? then [t.speech.value] else [])
      ensures current == old(current) && camera1 == old(camera1) && camera2 == old(camera2)
      ensures Valid()
    {
      ghost var h := history;
      var user := AddMessage(User, input, imagePath, env.images);
      if user.Failure? {
        return ERROR_PREFIX + user.error;
      }
      var model := Hint(current, imagePath);
      var initial := env.generate(current, history, model, imagePath);
      assert initial == FirstReply(h, current, user.value, imagePath, env);
      if initial.Failure? {
        return ERROR_PREFIX + initial.error;
      }
      var first := Call(current, history, model, imagePath);
      // the camera pattern is searched for first, the search pattern only when it is absent
      var directive := Scan(initial.value);
      match directive {
        case CameraRequest(d) =>
          AfterCommandCamera(h, current, camera1, camera2, input, imagePath, env, user.value, initial.value, d);
          CameraFollowUpExtends(history, current, camera1, camera2, d, model, env, [user.value], [first]);
          reply := FollowCameraDirective(d, model, env);
          AppendAssoc(h, [user.value], CameraFollowUp(h + [user.value], current, camera1, camera2, d, model, env, [], []).appended);
          return;
        case SearchRequest(q) =>
          AfterCommandSearch(h, current, camera1, camera2, input, imagePath, env, user.value, initial.value, q);
          SearchFollowUpExtends(history, current, input, q, imagePath, model, env, [user.value], [first]);
          reply := FollowSearchDirective(input, q, imagePath, model, env);
          AppendAssoc(h, [user.value], SearchFollowUp(h + [user.value], current, input, q, imagePath, model, env, [], []).appended);
          return;
        case NoDirective =>
      }
      var stored := AddMessage(Assistant, initial.value, None, env.images);
      assert history == h + [user.value, stored.value];
      Speak(initial.value);
      reply := initial.value;
    }

    /** The camera directive's follow-up: `CameraFollowUp`. */
    method FollowCameraDirective(d: char, model: Option<string>, env: Env) returns (reply: string)
      requires Valid()
      modifies this
      ensures var t := CameraFollowUp(old(history), current, camera1, camera2, d, model, env, [], []);
        && reply == t.reply
        && history == old(history) + t.appended
        && speechLog == old(speechLog) + (if t.speech.Some? then [t.speech.value] else [])
      ensures current == old(current) && camera1 == old(camera1) && camera2 == old(camera2)
      ensures Valid()
    {
      ghost var h := history;
      var imagePath: Option<string>;
      if d == '1' && camera1 {
        imagePath := env.directiveCapture(1);
      } else if d == '2' && camera2 {
        imagePath := env.directiveCapture(2);
      } else {
        return REQUESTED_CAMERA_NOT_INITIALIZED;
      }
      assert imagePath == env.directiveCapture(CameraNumber(d));
      if !HasImage(imagePath) {
        return CAPTURE_FAILED;
      }
      var announced := AddMessage(Assistant, ANALYZE_ANNOUNCEMENT, None, env.images);
      var request := AddMessage(User, ANALYZE_REQUEST, imagePath, env.images);
      if request.Failure? {
        assert history == h + [announced.value];
        return ERROR_PREFIX + request.error;
      }
      assert history == h + [announced.value, request.value];
      var final := env.generate(current, history, model, imagePath);
      if final.Failure? {
        return ERROR_PREFIX + final.error;
      }
      var stored := AddMessage(Assistant, final.value, None, env.images);
      assert history == h + [announced.value, request.value, stored.value];
      Speak(final.value);
      reply := final.value;
    }

    /** The search directive's follow-up: `SearchFollowUp`; every failure inside it is reported as a
        search error. */
    method FollowSearchDirective(input: string, q: string, imagePath: Option<string>, model: Option<string>, env: Env)
      returns (reply: string)
      requires Valid()
      modifies this
      ensures var t := SearchFollowUp(old(history), current, input, q, imagePath, model, env, [], []);
        && reply == t.reply
        && history == old(history) + t.appended
        && speechLog == old(speechLog) + (if t.speech.Some? then [t.speech.value] else [])
      ensures current == old(current) && camera1 == old(camera1) && camera2 == old(camera2)
      ensures Valid()
    {
      ghost var h := history;
      ghost var t := SearchFollowUp(h, current, input, q, imagePath, model, env, [], []);
      var searchMessages := SearchMessages(q);
      var searchResult := env.generate(Perplexity, searchMessages, Some(SEARCH_MODEL), None);
      if searchResult.Failure? {
        assert t.reply == SEARCH_ERROR_PREFIX + searchResult.error && t.appended == [] && t.speech == None;
        return SEARCH_ERROR_PREFIX + searchResult.error;
      }
      var c := Message(User, Plain(Combined(input, q, searchResult.value)));
      var combined := AddMessage(User, Combined(input, q, searchResult.value), None, env.images);
      var final := env.generate(current, history, model, imagePath);
      if final.Failure? {
        assert t.reply == SEARCH_ERROR_PREFIX + final.error && t.appended == [c] && t.speech == None;
        return SEARCH_ERROR_PREFIX + final.error;
      }
      assert t.reply == final.value && t.appended == [c, Said(final.value)] && t.speech.Some?;
      var stored := AddMessage(Assistant, final.value, None, env.images);
      Speak(final.value);
      reply := final.value;
    }
  }
}
