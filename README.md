# chatbot4kids core, modelled in Dafny

chatbot4kids is a voice and camera chat assistant for a Raspberry Pi. The user types or speaks.
The `ConversationManager` classifies the utterance as a photo command, an analysis command or an
ordinary message. It keeps an OpenAI-style conversation history and asks the current backend for
a reply. The backend is one of ChatGPT, Claude, Gemini, Grok and Perplexity. The manager then
reads the reply for two directives that the system prompt teaches:

- `{"camera": "1"}` makes it capture an image and ask again with the image attached.
- `{"Online search": "…"}` makes it ask Perplexity and ask again with the search results.

The final reply is stored and spoken.

The model covers the following:

- **Conversation and commands.** The history entries, the command parser, the directive scanner,
  and one whole `get_response` turn. The turn is a pure function `TurnSpec`, and the class
  method `GetResponse` performs it step by step on the `history` field. The backend switch and
  the model-specific system prompts are modelled too.
- **Adapters.** Each adapter's `format_messages` is modelled, and so is its `generate_response`
  around an oracle for the vendor API.
- **Key loading and speech.** The key manager, and the speech manager's state: the playing flag,
  the current file, the temporary files, the mixer and the requests sent.
- **Camera helpers.** Camera detection, camera configuration, file names and the crop geometry.
- **App logic.** The non-widget logic of the Tk app: command recall, display height, the record
  button, chat line labels and `handle_input`.

Every vendor SDK, the camera, the file system, the clock and the process id are parameters of the
operations. Backends, image files and captures are total functions or maps passed in, usually
bundled in an `Env` value. `Result` stands for a call that returns or raises: its `error` is the
`str(e)` of the exception. `Option` stands for a value that may be `None`.

One module per source file:

| file | module |
|---|---|
| conversation_manager.py | `Messages`, `Commands`, `Directives`, `Conversation` |
| system_prompts.py | `SystemPrompts` |
| chatgpt.py | `ChatGpt` |
| claude.py | `Claude` |
| gemini.py | `Gemini` |
| grok.py | `Grok`, with `Flatten` |
| perplexity.py | `Perplexity`, with `Flatten` |
| key_manager.py | `KeyManager` |
| tts_manager.py | `Tts` |
| camera_utils.py | `CameraUtils` |
| dual_camera_gpt_app.py | `App` |

`Wrappers` (Option, Result) and `Text` (substring search, `lower`, `strip`, `str(n)`) are shared.

## Model

| member | source | states |
|---|---|---|
| Wrappers.Result.Wrap | claude.py:103-104 | re-raising with a prefix keeps a success unchanged and turns a failure's message into prefix + message |
| Text.Lower | conversation_manager.py:147 | the ASCII case fold standing for `lower()`: it keeps the length and maps every character through the ASCII lower-casing |
| Text.StripBounds | conversation_manager.py:147 | the kept slice of `strip()` starts after only whitespace, ends before only whitespace, and starts and ends on non-whitespace when non-empty |
| Text.Strip | key_manager.py:34 | `strip()` is the slice between the strip bounds, never longer than its input |
| Text.StripKeepsWords | conversation_manager.py:147 | a word that starts and ends with non-whitespace occurs in `s.strip()` exactly when it occurs in `s` |
| Text.IsSpace | key_manager.py:34 | the characters `str.isspace()` accepts, which `strip()` removes; a definition used by `Text.StripBounds` |
| Text.Contains | conversation_manager.py:162-165 | Python's substring test `w in s`: `w` occurs at some position of `s`; a definition |
| Text.NatToString | camera_utils.py:122 | `str(n)` is a non-empty string of decimal digits, and the single digit for `n < 10` |
| Text.NatToStringInjective | tts_manager.py:61 | different numbers have different decimal forms |
| Text.NatToStringLength | camera_utils.py:119 | a number below `10^k` takes at most `k` digits |
| Text.ZeroPad | camera_utils.py:119 | zero padding gives digits only, at least `width` of them, and exactly `width` when the number fits |
| Messages.DataUrl | conversation_manager.py:186 | the data URL is the JPEG base64 prefix followed by exactly the encoded bytes |
| Messages.Rest | claude.py:33 | `history[1:]` drops exactly the first entry, and is empty for an empty history |
| Messages.HasImage | conversation_manager.py:177 | an image path counts when it is neither `None` nor empty; a definition |
| Messages.ReadImage | chatgpt.py:16-19 | reading an image succeeds exactly for an existing file, with its encoding; otherwise it fails with the `FileNotFoundError` text |
| Messages.NoSuchFile | chatgpt.py:17 | the text of the `FileNotFoundError` for a missing file, for paths whose `repr` is the path in single quotes; a definition |
| SystemPrompts.WithExtra | system_prompts.py:65-71 | an addition always extends the base prompt strictly |
| SystemPrompts.GetPrompt | system_prompts.py:60-73 | every prompt starts with the base prompt, and it is the base prompt alone exactly for names other than ChatGPT, Claude, Gemini and Grok |
| Commands.SearchIgnoresQuestionMark | conversation_manager.py:81-89 | a `body\??` pattern is found exactly when `body` occurs in the text |
| Commands.SearchOptionalSpace | conversation_manager.py:65-78 | a `before ?after` pattern is found exactly when the text holds the phrase with or without the space |
| Commands.FirstMatchingEntry | conversation_manager.py:150-151 | the table scan stops at the first entry that has a matching pattern; every entry before it has none |
| Commands.Search | conversation_manager.py:151 | `re.search` of one pattern of the table; a definition, characterised by `Commands.SearchOptionalSpace` and `Commands.SearchIgnoresQuestionMark` |
| Commands.AnySearch | conversation_manager.py:151 | some pattern of the list matches; a definition |
| Commands.GroupCommand | conversation_manager.py:152-159 | the command each entry of the table stands for: photo for cameras 1 and 2, analysis of camera 2 for "this" and of camera 1 for "that"; a definition |
| Commands.Normalize | conversation_manager.py:147 | `text.lower().strip()`; a definition |
| Commands.Mentions | conversation_manager.py:162-165 | some phrase of the list occurs in the text; a definition |
| Commands.Classify | conversation_manager.py:150-165 | the first-match classification over the phrase lists, the reference that `Commands.ParseCommandClassifies` proves `parse_command` equal to |
| Commands.ParseCommand | conversation_manager.py:141-167 | every command other than `normal` names camera '1' or '2' |
| Commands.PatternsWithinPhrases | conversation_manager.py:151 | a pattern list whose phrases are all listed matches only texts that mention a listed phrase |
| Commands.PhrasesWithinPatterns | conversation_manager.py:151 | a phrase list that patterns cover is mentioned only when a pattern matches |
| Commands.TakePhoto1Phrases | conversation_manager.py:64-71 | the camera-1 photo patterns match exactly the texts that contain one of the eight phrases they expand to |
| Commands.TakePhoto1Sound | conversation_manager.py:64-71 | a camera-1 photo pattern match means one of its phrases occurs |
| Commands.TakePhoto1Complete | conversation_manager.py:64-71 | each camera-1 photo phrase is matched by a pattern |
| Commands.TakePhoto2Phrases | conversation_manager.py:72-79 | the camera-2 photo patterns match exactly the texts that contain one of their eight phrases |
| Commands.TakePhoto2Sound | conversation_manager.py:72-79 | a camera-2 photo pattern match means one of its phrases occurs |
| Commands.TakePhoto2Complete | conversation_manager.py:72-79 | each camera-2 photo phrase is matched by a pattern |
| Commands.WhatIsThisPhrases | conversation_manager.py:80-84 | the "what is this" patterns match exactly the texts that contain one of their three phrases |
| Commands.WhatIsThatPhrases | conversation_manager.py:85-90 | the "what is that" patterns match exactly the texts that contain one of their four phrases |
| Commands.MentionsIgnoresStrip | conversation_manager.py:147 | stripping the text never changes which trimmed phrases it mentions |
| Commands.AllPhrasesTrimmed | conversation_manager.py:63-91 | no phrase of any list starts or ends with whitespace |
| Commands.PhotoPhrasesTrimmed | conversation_manager.py:64-79 | no photo phrase starts or ends with whitespace |
| Commands.ParseCommandClassifies | conversation_manager.py:141-167 | `parse_command` is the first-match classification over the phrase lists: camera 1, camera 2, "this" (camera 2), "that" (camera 1), then the bare camera 1 and camera 2 mentions, else normal; the `strip()` never matters |
| Commands.NoWideWordInAscii | conversation_manager.py:63-91 | a phrase with a non-ASCII character never occurs in ASCII text |
| Commands.ShortAsciiText | conversation_manager.py:150-167 | in ASCII text under twelve characters only the bare camera mentions can classify it |
| Commands.ShortAsciiCommand | conversation_manager.py:147-167 | short lower-case ASCII text is an analysis of camera 1 or 2 exactly when it mentions that camera, and normal otherwise |
| Commands.BareCameraMention | conversation_manager.py:162-163 | "camera 1" alone asks for an analysis of camera 1 |
| Commands.BareCameraNeedsSpace | conversation_manager.py:162-167 | "camera1" without the space is an ordinary message |
| Commands.HasCharIn | conversation_manager.py:205-208 | the range search is true exactly when some character at or after `i` lies in the range |
| Commands.IsKana | conversation_manager.py:205 | the hiragana and katakana ranges; a definition |
| Commands.IsHan | conversation_manager.py:208 | the CJK unified ideograph range; a definition |
| Commands.LangCode | conversation_manager.py:206-211 | the language code returned for each language; a definition |
| Commands.DetectLanguage | conversation_manager.py:199-211 | Japanese exactly when there is a kana; Chinese exactly when there is no kana but an ideograph; English exactly when there is neither |
| Directives.CameraDirective | conversation_manager.py:273 | the camera directive text is 14 characters, or 15 with the optional space |
| Directives.CameraDigitAt | conversation_manager.py:273 | a digit is read at `i` exactly when a camera directive with that digit, with or without the space, is written there |
| Directives.CameraDigitAtComplete | conversation_manager.py:273 | a camera directive written at `i` is read there with its digit |
| Directives.FirstCamera | conversation_manager.py:274 | the leftmost camera directive from `i` on: no directive before it, none at all when absent |
| Directives.FindCamera | conversation_manager.py:273-277 | `re.search(camera_pattern)` gives a digit exactly when some position holds a camera directive with it |
| Directives.QuoteFreeEnd | conversation_manager.py:323 | `[^"]+` ends at the first quote or the end of the text |
| Directives.QuoteFree | conversation_manager.py:323 | the text holds no double quote, as `[^"]` demands; a definition |
| Directives.SearchQueryAt | conversation_manager.py:323 | a query read at `i` is non-empty, free of quotes, and written there as a search directive |
| Directives.SearchQueryAtComplete | conversation_manager.py:323 | a non-empty quote-free query written as a search directive at `i` is read there |
| Directives.FirstSearch | conversation_manager.py:324 | the leftmost search directive from `i` on: no directive before it, none at all when absent |
| Directives.FindSearch | conversation_manager.py:323-327 | `re.search(search_pattern)` gives a query exactly when some position holds a search directive with it |
| Directives.Scan | conversation_manager.py:273-326 | a reply is a camera request exactly when it has a camera directive; it is a search request exactly when it has a search directive and no camera directive; each request carries the matched group |
| Directives.CameraDirectiveWins | conversation_manager.py:273-289 | a camera directive anywhere makes the reply a camera request, whatever else it holds |
| Directives.SearchDirectiveRecognised | conversation_manager.py:322-327 | a search directive and no camera directive make the reply a search request |
| Directives.ExamplesInPrompt | system_prompts.py:3-10 | in every prompt extending the base prompt, the camera example and the search example sit at fixed positions |
| Directives.ExampleShapes | system_prompts.py:6-10 | the base prompt's camera example is the spaced directive for camera 1, and its search example is the directive for "your search query" |
| Directives.PromptCameraExample | system_prompts.py:6-7 | the camera example in a prompt is read as camera 1, so a reply that repeats the prompt is a camera request |
| Directives.PromptSearchExample | system_prompts.py:9-10 | the search example in a prompt is read as a search for "your search query" |
| Directives.SearchExampleRecognised | system_prompts.py:10 | the search example, wherever it is written, is read as a search for "your search query" |
| Directives.GetPromptTeachesDirectives | system_prompts.py:60-73 | for every model name, the prompt holds a camera directive and a readable search directive |
| Conversation.BackendOf | conversation_manager.py:103-127 | a name selects a backend only when it is exactly that backend's name, and the five names are the only ones accepted |
| Conversation.BackendName | claude.py:15-16 | each adapter's `get_model_name()`; a definition, made injective by `Conversation.NameSelectsBackend` |
| Conversation.NameSelectsBackend | conversation_manager.py:103-127 | a backend's own name selects that backend again, so no two share a name |
| Conversation.Service | claude.py:9 | the service each adapter's constructor loads its key for; a definition, characterised by `Conversation.ServicesKnown` |
| Conversation.ServicesKnown | key_manager.py:8-14 | every adapter's service is one the key manager has a key file for, and no two adapters share a service |
| Conversation.EncodeImage | conversation_manager.py:169-174 | encoding succeeds exactly for an existing file, with its encoding; otherwise it fails with "Image file not found: path" |
| Conversation.ImageNotFound | conversation_manager.py:173-174 | the text of the error `encode_image_to_base64` raises; a definition |
| Conversation.NewMessage | conversation_manager.py:176-194 | without an image path the entry is plain text; with one, it holds the text and the file's data URL, or fails when the file is missing |
| Conversation.Hint | conversation_manager.py:256-261 | only ChatGPT gets a model hint, and it is `gpt-4o-mini` exactly when the turn starts with an image |
| Conversation.CameraReady | conversation_manager.py:284-289 | a camera request can be served only for "1" with camera 1 set or "2" with camera 2 set; a definition |
| Conversation.CameraNumber | conversation_manager.py:284-287 | the camera number passed to the capture; a definition |
| Conversation.SearchMessages | conversation_manager.py:335-344 | the search request: the fixed system prompt and the query; a definition |
| Conversation.Combined | conversation_manager.py:354-359 | the user message carrying the search results; a definition |
| Conversation.ReachesModel | conversation_manager.py:230-248 | a command reaches the model unless it is a photo request or an analysis of a camera that is not set, the two early returns; a definition, characterised by `Conversation.TakePhotoTurn` and `Conversation.TurnReachesModel` |
| Conversation.UserImage | conversation_manager.py:242-248 | the image path an analyze command captures from its camera, and `None` for an ordinary message; a definition |
| Conversation.FirstReply | conversation_manager.py:257-270 | the first `generate_response` on the history with the user entry appended, with the ChatGPT model hint and the turn's image; a definition |
| Conversation.Speech | conversation_manager.py:308-314 | the speech request sent for a reply (also 376-382 and 401-407): the reply, its detected language, and a model name that selects the replying backend again |
| Conversation.Said | conversation_manager.py:398 | the assistant entry stored for a reply, as `add_message("assistant", text)` makes it; a definition |
| Conversation.TurnSpec | conversation_manager.py:214-419 | the specification of one turn: the photo commands, the not-set camera, or the rest of the turn; its properties are the lemmas below, and `GetResponse` is proved to perform it |
| Conversation.AfterCommand | conversation_manager.py:250-419 | the turn after the command: the user entry, the first reply and its directive; its properties are `Conversation.AfterCommandErrors`, `Conversation.AfterCommandShape` and the directive lemmas |
| Conversation.CameraFollowUp | conversation_manager.py:276-320 | the camera follow-up; its properties are `Conversation.CameraFollowUpFacts`, `Conversation.CameraFollowUpErrors` and `Conversation.CameraFollowUpShape` |
| Conversation.SearchFollowUp | conversation_manager.py:326-394 | the search follow-up; its properties are `Conversation.SearchFollowUpFacts` and `Conversation.SearchFollowUpShape` |
| Conversation.TakePhotoTurn | conversation_manager.py:230-240 | a photo command appends, speaks and generates nothing; the reply is the saved path, the photo error, or the camera error exactly when that camera is not set |
| Conversation.PlainTurn | conversation_manager.py:396-412 | a turn that reaches the model and whose first reply has no directive appends the user entry and the reply, speaks the reply and makes one generate call; for an ordinary message the user entry is the plain text |
| Conversation.TurnReachesModel | conversation_manager.py:242-270 | a command that reaches the model continues with the user entry and image of that command |
| Conversation.AfterCommandErrors | conversation_manager.py:250-270 | a missing image file for the user entry replies "Error: " and the error text and appends nothing; a failed first reply does the same after appending the user entry; neither is spoken |
| Conversation.CameraDirectiveTurn | conversation_manager.py:272-320 | a first reply with a camera directive appends one to four entries starting with the user's; an unset camera gives its error; every call uses the current backend and hint; the reply is spoken exactly when the announcement, image request and reply are all stored |
| Conversation.CameraFollowUpFacts | conversation_manager.py:283-320 | the same facts about the camera follow-up on its own |
| Conversation.CameraFollowUpErrors | conversation_manager.py:283-320 | with the camera set, a failed capture replies "Error capturing image" and keeps only the user entry; a missing image file for the request, or a failed final reply, replies "Error: " and the error text and keeps what was appended before; none is spoken |
| Conversation.SearchFollowUpFacts | conversation_manager.py:326-394 | the follow-up asks the search backend second with the fixed search prompt; every failure is a search error; success appends the user entry, the combined message and the reply, and asks the current backend with them |
| Conversation.AfterCommandSearch | conversation_manager.py:322-328 | a first reply with only a search directive continues with the search follow-up |
| Conversation.AfterCommandCamera | conversation_manager.py:272-277 | a first reply with a camera directive continues with the camera follow-up |
| Conversation.SearchDirectiveTurn | conversation_manager.py:322-394 | the search follow-up facts, for a whole turn whose first reply has a search directive |
| Conversation.CameraFollowUpShape | conversation_manager.py:283-320 | the camera follow-up gives a well-formed turn |
| Conversation.SearchFollowUpShape | conversation_manager.py:333-394 | the search follow-up gives a well-formed turn, whose only search call is the second one |
| Conversation.AfterCommandShape | conversation_manager.py:250-412 | after the command, a missing image file is the only error that appends nothing; otherwise the turn is well formed |
| Conversation.TurnShape | conversation_manager.py:214-419 | every turn: at most four entries, the user's first; the first call goes to the current backend; each other call is the single search call or uses the current backend and hint; the reply is spoken exactly when it ends the history |
| Conversation.ConversationManager.constructor | conversation_manager.py:19-47 | the history is the ChatGPT system prompt alone, on the ChatGPT backend, with no camera |
| Conversation.ConversationManager.SetCameras | conversation_manager.py:136-139 | sets both camera references and nothing else |
| Conversation.ConversationManager.AddMessage | conversation_manager.py:176-194 | appends the new entry, or on a missing image changes nothing and fails |
| Conversation.ConversationManager.ClearHistory | conversation_manager.py:196-197 | only the system message stays |
| Conversation.ConversationManager.SetAiModel | conversation_manager.py:93-133 | the system message becomes the new name's prompt in every case; an unknown name or a missing key fails with the switch error and keeps backend and history; success installs the backend and clears the history for all but ChatGPT |
| Conversation.SwitchError | conversation_manager.py:131-133 | the text of the error a failed switch raises; a definition |
| Conversation.Unsupported | conversation_manager.py:126-127 | the text of the error for an unknown model name; a definition |
| Conversation.ConversationManager.Speak | conversation_manager.py:308-314 | appends exactly the `Conversation.Speech` request for the current backend to the speech log and changes nothing else |
| Conversation.ConversationManager.GetResponse | conversation_manager.py:214-419 | the reply, the appended entries and the speech request are those of `TurnSpec`, and the system message is kept |
| Conversation.ConversationManager.Converse | conversation_manager.py:250-412 | from the user entry on, the method does what the specification of the rest of the turn says |
| Conversation.ConversationManager.FollowCameraDirective | conversation_manager.py:283-320 | the camera follow-up is performed as specified |
| Conversation.ConversationManager.FollowSearchDirective | conversation_manager.py:333-394 | the search follow-up is performed as specified |
| ChatGpt.FormatMessages | chatgpt.py:21-54 | the copy loop with the image step gives exactly the specified formatting result |
| ChatGpt.Attach | chatgpt.py:39-52 | the attached message keeps its role and text and holds an image: the data URL of the file for a plain entry; an entry with an image already is unchanged |
| ChatGpt.Formatted | chatgpt.py:21-54 | what `format_messages` returns or raises; the reference `ChatGpt.FormatMessages` is proved equal to, with its properties in the lemmas below |
| ChatGpt.FormattedFails | chatgpt.py:39-43 | formatting fails exactly when an image is given and its file is missing or the history is empty; the missing file is reported first |
| ChatGpt.FormattedKeepsHistory | chatgpt.py:25-37 | the result has the history's length, roles and texts, and only its last entry may differ |
| ChatGpt.NoImageNoChange | chatgpt.py:40 | without an image the history is sent unchanged |
| ChatGpt.ImageOnLastMessage | chatgpt.py:39-52 | with an image the last entry holds an image: the file's data URL for a plain entry, its own image otherwise |
| ChatGpt.GenerateResponse | chatgpt.py:56-70 | the API is asked with the caller's model and the formatted history; errors pass through unwrapped |
| Claude.FormatOne | claude.py:35-81 | one entry's conversion fails exactly when it needs the image and the file is missing, with the "Error processing image" text; otherwise it is `Convert` |
| Claude.FormatMessages | claude.py:18-83 | the loop gives exactly the specified formatting result |
| Claude.Dialogue | claude.py:33-34 | the user and assistant entries in order; a definition, characterised by `Claude.DialogueIsFilter` |
| Claude.NeedsImage | claude.py:47 | an entry gets the image when it is a user entry with an image, an image is given, and it equals the history's last entry; a definition |
| Claude.Convert | claude.py:35-81 | one entry's conversion; a definition, characterised by `Claude.ConvertShape` |
| Claude.ConvertShape | claude.py:35-81 | a converted entry keeps its role and ends in its text; it has two blocks, the first the image, exactly when it needs the image and the file exists |
| Claude.ConvertAll | claude.py:33-81 | the conversion of every entry in order; a definition, characterised by `Claude.ConvertAllKeeps` and `Claude.ConvertAllImages` |
| Claude.Formatted | claude.py:18-83 | what `format_messages` returns or raises; the reference `Claude.FormatMessages` is proved equal to |
| Claude.SystemMessage | claude.py:27-29 | the system prompt taken from the history; a definition, characterised by `Claude.FormattedSystem` |
| Claude.ImageMissing | claude.py:47-70 | the last entry needs the image and its file is missing; a definition, characterised by `Claude.FormattedFails` |
| Claude.DialogueIsShorter | claude.py:33-34 | the dialogue is never longer than its input and holds no system entry |
| Claude.DialogueIsFilter | claude.py:33-34 | the dialogue holds exactly the non-system entries of its input |
| Claude.ConvertAllKeeps | claude.py:35-81 | conversion keeps count and roles, and each entry's blocks end with its text |
| Claude.ConvertAllImages | claude.py:47-68 | an image block is added exactly to an entry that needs the image when the file exists, in front, carrying the file's data |
| Claude.FormattedFails | claude.py:47-70 | formatting fails exactly when the last entry is a user entry with an image, an image is given, and its file is missing |
| Claude.FormattedSystem | claude.py:27-29 | the system prompt is the first entry's content exactly when that entry is a system entry, and empty otherwise |
| Claude.FormattedSent | claude.py:32-83 | at most `len(history) - 1` entries are sent, none a system entry, each ending in a text block |
| Claude.GenerateResponse | claude.py:85-104 | the API is asked with the fixed model and the formatted system prompt and entries; every error carries the Claude prefix |
| Flatten.FlattenMessages | grok.py:28-66 | the loop gives exactly the specified flattening |
| Flatten.FlatOne | grok.py:45-64 | a flattened entry keeps its role and is plain text: its own text, with the note added exactly for an image entry equal to the last when an image is given |
| Flatten.Flattened | grok.py:28-66 | what `format_messages` returns; the reference `Flatten.FlattenMessages` is proved equal to |
| Flatten.IsLast | grok.py:52 | `message == conversation_history[-1]`, a comparison of values; a definition |
| Flatten.FlatAll | grok.py:45-64 | the flattening of every entry after the first, in order; a definition, characterised by `Flatten.FlatAllKeeps` |
| Flatten.SystemPart | grok.py:37-42 | the leading system entry when the history starts with one; a definition |
| Flatten.FlatAllKeeps | grok.py:44-64 | flattening keeps count, roles and texts and makes every entry plain; the note is added only to an image entry equal to the history's last when an image is given |
| Flatten.NoteOnLastImageMessage | grok.py:51-58 | an image entry gets the note exactly when an image is given and it equals the history's last entry |
| Flatten.FlattenedShape | grok.py:35-66 | the system entry goes first exactly when the history starts with one; the first entry is always skipped; every later entry is sent in order as text |
| Flatten.AllPlain | grok.py:37-64 | with a plain system prompt everything sent is plain text |
| Grok.FormatMessages | grok.py:28-66 | Grok's formatting is the shared flattening with its note, all plain after the system entry |
| Grok.GenerateResponse | grok.py:68-92 | the API is asked with `grok-beta` and the flattened history; every error carries the Grok prefix |
| Perplexity.FormatMessages | perplexity.py:28-66 | Perplexity's formatting is the shared flattening with its note, all plain after the system entry |
| Perplexity.GenerateResponse | perplexity.py:68-92 | the API is asked with the fixed sonar model and the flattened history; every error carries the Perplexity prefix |
| Gemini.CameraContext | gemini.py:55 | the front-camera context exactly when the path contains "camera1", the rear one otherwise |
| Gemini.FormatMessages | gemini.py:27-66 | formatting fails exactly for an empty history or a missing image file; a text prompt is the context, a blank line and the last text; an image prompt is the context, "Analyzing image from", the camera context, ". " and the last text, followed by the image |
| Gemini.OnlyLastMessageMatters | gemini.py:35-43 | two histories whose last entries have the same text are formatted alike |
| Gemini.GeminiModel.constructor | gemini.py:8-22 | a new adapter has no chat session |
| Gemini.GeminiModel.GenerateResponse | gemini.py:68-114 | image prompts go to one-off generation and leave the session alone; a text prompt starts a fresh session seeded with the system context only when there is none, and otherwise sends to the very session object already held; a failed format or an image prompt leaves the session as it was; every error carries the Gemini prefix |
| KeyManager.GetKeyPath | key_manager.py:41-46 | a known service gives its key file, and any other fails with "Unknown service" |
| KeyManager.UnknownService | key_manager.py:28-29 | the text of the unknown-service error; a definition |
| KeyManager.MissingKeyFile | key_manager.py:35-39 | the text of the missing-key-file error; a definition |
| KeyManager.LoadKey | key_manager.py:16-39 | the unknown-service check comes first; a missing key file fails with its message; otherwise the key is the stripped contents |
| KeyManager.UnknownServiceReadsNoFile | key_manager.py:28-29 | the files never matter for an unknown service |
| KeyManager.AdapterServicesHaveKeys | key_manager.py:8-14 | the five adapter services all have key files, and the five files differ |
| Tts.Voice | tts_manager.py:64 | a mapped name gets its voice, any other name `nova` |
| Tts.DistinctVoices | tts_manager.py:25-32 | the five backends speak with five different voices |
| Tts.LoadApiKey | tts_manager.py:34-46 | an existing file gives its stripped contents; a missing one fails with its message |
| Tts.AudioPath | tts_manager.py:61 | the speech file lies under `/tmp/tts_` and ends in `.mp3` |
| Tts.AudioPathsDiffer | tts_manager.py:61 | two clock readings never give the same file name |
| Tts.Stopped | tts_manager.py:143-160 | the state after `stop_playback`; its properties are `Tts.StopWhenIdle`, `Tts.StopWhenPlaying` and `Tts.StopIdempotent` |
| Tts.Spoken | tts_manager.py:49-93 | the state after `text_to_speech`; its properties are `Tts.SpeakStopsFirst`, `Tts.FailedSynthesisPlaysNothing` and `Tts.StreamedStartsPlayback` |
| Tts.PlayedOut | tts_manager.py:97-140 | the state after the playback thread; its properties are `Tts.PlaybackCleansUp` and `Tts.SpeakThenPlay` |
| Tts.StopWhenIdle | tts_manager.py:143-146 | stopping while idle changes nothing, a stale current path included |
| Tts.StopWhenPlaying | tts_manager.py:143-160 | stopping while playing ends playback, deletes and forgets the current file, and keeps everything else |
| Tts.StopIdempotent | tts_manager.py:143-160 | stopping twice is stopping once |
| Tts.SpeakStopsFirst | tts_manager.py:49-69 | speech stops playback first, leaves nothing playing, and sends exactly one request with the backend's voice |
| Tts.FailedSynthesisPlaysNothing | tts_manager.py:85-93 | a failed synthesis leaves no file and starts no playback |
| Tts.StreamedStartsPlayback | tts_manager.py:76-83 | a streamed file becomes current and its playback is started |
| Tts.PlaybackCleansUp | tts_manager.py:97-140 | after playback nothing plays, no file is current, and the file is deleted; it was played exactly when nothing else played and it existed |
| Tts.SpeakThenPlay | tts_manager.py:49-140 | a synthesized file played right away is played once and then deleted |
| Tts.TtsManager.constructor | tts_manager.py:11-22 | a new manager plays nothing and has no current file or thread |
| Tts.TtsManager.StopPlayback | tts_manager.py:143-160 | the new state is the specified stopped state |
| Tts.TtsManager.TextToSpeech | tts_manager.py:49-93 | the new state is the specified spoken state for the file name and the synthesis outcome |
| Tts.TtsManager.PlayAudio | tts_manager.py:97-140 | the new state is the specified played-out state |
| App.Pushed | dual_camera_gpt_app.py:38 | the recall holds at most ten entries and ends with the new one |
| App.PushedKeepsNewest | dual_camera_gpt_app.py:500 | the recall keeps the newest entries: a full deque drops exactly the oldest |
| App.Up | dual_camera_gpt_app.py:391-396 | the up key moves one entry back while there is one and shows that entry |
| App.Down | dual_camera_gpt_app.py:398-403 | the down key moves one entry forward and shows it, or an empty field once back at the start |
| App.DownUndoesUp | dual_camera_gpt_app.py:391-403 | down after up restores the cursor and the shown text |
| App.UpTimes | dual_camera_gpt_app.py:391-396 | `k` presses of the up key keep the cursor within the recalled entries |
| App.UpRecallsNewestFirst | dual_camera_gpt_app.py:391-396 | pressing up `k` times from the start shows the `k`-th newest entry |
| App.DisplayHeight | dual_camera_gpt_app.py:369-376 | the height is 10, 8, 6 or 5 lines, each exactly on its font-size band |
| App.DisplayHeightNonIncreasing | dual_camera_gpt_app.py:369-376 | a larger font never gets more lines |
| App.ClearedStatusDisablesRecording | dual_camera_gpt_app.py:482-491 | an empty status is not one that enables recording |
| App.ColourTag | dual_camera_gpt_app.py:692 | the tag is the speaker exactly when the speaker has a colour, and `human` otherwise |
| App.SpeakerLabel | dual_camera_gpt_app.py:695-698 | the label is "You: " for the user and "name: " for anyone else |
| App.PerplexityLooksHuman | dual_camera_gpt_app.py:46-52 | Perplexity's lines get the user's colour tag but its own label |
| App.ChatLine | dual_camera_gpt_app.py:689-706 | a chat line: the speaker's colour tag, label and text; a definition |
| App.AsksAboutCamera | dual_camera_gpt_app.py:521-523 | the input mentions "camera", "what is this" or "what is that", compared lower-case; a definition |
| App.ChatApp.constructor | dual_camera_gpt_app.py:37-42 | a new window has nothing recalled, an empty chat, font size 12 and its height |
| App.ChatApp.UpKey | dual_camera_gpt_app.py:391-396 | the up key step, keeping the recall invariant and leaving all else alone |
| App.ChatApp.DownKey | dual_camera_gpt_app.py:398-403 | the down key step, keeping the recall invariant and leaving all else alone |
| App.ChatApp.UpdateStatus | dual_camera_gpt_app.py:480-492 | the status is shown, and recording is enabled exactly for the eight enabling messages |
| App.ChatApp.UpdateFontSize | dual_camera_gpt_app.py:353-385 | the font size is set and the height follows the size bands |
| App.ChatApp.HandleInput | dual_camera_gpt_app.py:494-542 | an empty input changes nothing, the record button included; any other input is recalled and shown; an exit word ends before any reply and leaves the status and the record button as they were; a failed capture shows the error with the "Processing image" status up and recording disabled; otherwise the answer is shown under the model's name and the status cleared |
| CameraUtils.DetectCameras | camera_utils.py:11-43 | camera 0 is probed first, camera 1 only after camera 0 was found; the result lists the cameras found in order |
| CameraUtils.DetectionResults | camera_utils.py:17-40 | detection gives `[]`, `[0]` or `[0, 1]`, so camera 1 never appears without camera 0 |
| CameraUtils.PreviewStream | camera_utils.py:54-73 | the preview is 640x480, in XBGR8888 exactly when the board model contains "Raspberry Pi 5" and in YUV420 otherwise |
| CameraUtils.SetupConfig | camera_utils.py:75-86 | the main stream is 1640x1232 XBGR8888, with the board's preview stream |
| CameraUtils.Timestamp | camera_utils.py:119 | the timestamp is fifteen characters: the zero-padded year, month and day, a dash, then the zero-padded hour, minute and second |
| CameraUtils.PicturesDir | camera_utils.py:120 | the Pictures folder is joined to the home directory with exactly one separator |
| CameraUtils.HighResPath | camera_utils.py:120-123 | the snapshot path is the Pictures folder, a separator and `Camera<n>_<timestamp>.jpg`, the name ending the path |
| CameraUtils.ConvertedPath | camera_utils.py:159 | the converted file name starts with "camera" |
| CameraUtils.ConvertedPaths | camera_utils.py:159 | the two cameras write different files, and only camera 1's name contains "camera1" |
| CameraUtils.ResizedSize | camera_utils.py:166-173 | the shorter side becomes 512 and the longer one at least 512 |
| CameraUtils.CropBox | camera_utils.py:178-181 | the crop is 512x512, and inside and centred within one pixel on any side of at least 512 |
| CameraUtils.NarrowFrameCrop | camera_utils.py:179 | floor division gives a box left of a frame narrower than 512 |
| CameraUtils.CropInsideResized | camera_utils.py:166-181 | for every frame the crop lies inside the resized image and starts at 0 on a side of exactly 512 |
| CameraUtils.CaptureAndConvert | camera_utils.py:157-188 | the converted path comes back exactly when capture succeeds and the frame has pixels |
| CameraUtils.Camera.constructor | camera_utils.py:47-91 | a set-up camera runs with the setup configuration |
| CameraUtils.Camera.CaptureHighRes | camera_utils.py:98-154 | the path comes back exactly when capture and restore succeed; the preview is restored whenever it can be, and otherwise the camera is left stopped |

## Left out

- Console `print` output, the `status_callback` messages and the debug narration change no state and are not modelled.
- Vendor SDK calls are oracles: OpenAI chat and speech, Anthropic, Google generative AI and the xAI and Perplexity endpoints. So are Picamera2, PIL, pygame, Whisper, OpenCC and sounddevice. What they compute is not modelled.
- The Tk widgets, focus timers, preview canvas and preview thread, audio recording and transcription in dual_camera_gpt_app.py are user-interface and device code.
- Threads and the lock in tts_manager.py are not modelled. The playback thread is run to its end in one step, and the mixer's polling loop is folded into it.
- The first `handle_input` definition (dual_camera_gpt_app.py:298-308) is dead code: the later definition replaces it.
- The app calls functions that do not exist in the modelled code: `detect_camera`, `setup_camera()` without an argument, `set_camera`, and `capture_and_convert` with one argument. They are not reproduced. The orchestrator takes its camera references as inputs, and the app's capture is an input.
- Messages.NoSuchFile: `str(FileNotFoundError)` shows the path as `repr(path)`; the model always wraps the raw path in single quotes, which agrees with `repr` only for paths without quotes, backslashes or non-printable characters. The program only opens `camera1.jpg`, `camera2.jpg` and the paths its callers pass.
- App.ChatApp.HandleInput: `capture` stands for the result of the app's one-argument `capture_and_convert` call, which the source cannot make as written.
- Conversation.ConversationManager.constructor: models only the successful start. A missing OpenAI key raising in `__init__` is not modelled, and neither are the OpenCC converter and the camera image table.
- Conversation.ConversationManager.SetAiModel: an adapter constructor's failure is modelled only as its key failing to load. Gemini's SDK configuration is not modelled.
- Conversation.TurnSpec: the generate oracle is a function of backend, history, model hint and image. Gemini's chat-session memory is modelled separately, in `Gemini.GeminiModel`.
- Text.Lower: folds only ASCII letters and always keeps the length, while Python's `str.lower` follows full Unicode rules and can change the length ('İ' becomes two characters).
- Conversation.ConversationManager.GetResponse: `parse_command` in the source lower-cases with full Unicode rules; `Text.Lower` folds only ASCII letters.
- Commands.ParseCommand: `re.IGNORECASE` and `lower()` are ASCII-only here. Every pattern and phrase of the table is lower-case already.
- Directives.CameraDigitAt: `\d` is modelled as the ASCII digits 0-9, while Python's `\d` on `str` also accepts other Unicode decimal digits.
- Directives.Scan: the camera directive allows exactly one optional space after the colon, as the pattern `{"camera": ?"(\d)"}` says.
- Gemini.GeminiModel.GenerateResponse: the chat session is an object known by its identity and its seed history; the turns it accumulates inside the SDK are not modelled.
- CameraUtils.ResizedSize: `int(512 * aspect_ratio)` is computed in floating point in the source and exactly (`512 * long / short`, rounded down) here, which can differ in the last pixel.
- CameraUtils.CaptureAndConvert: the capture, conversion, resize and save are one oracle, `frame`. A PIL failure is `None` like any other exception.
- CameraUtils.Camera.CaptureHighRes: every failure between the first `stop()` and the final save, including `os.makedirs`, is the single oracle `shot`.
- CameraUtils.PicturesDir: `Path.home()` is taken as given. Its normalisation of repeated or trailing separators is not modelled.
- Tts.TtsManager.TextToSpeech: the `language` argument is unused by the source and ignored here. The process id and the clock are parameters.
- Tts.LoadApiKey: only the missing-file error is modelled. Other I/O errors propagate in the source.
- `main.py` only starts the Tk application and is not modelled.
- `ai_interface.py` is the abstract base class. Its one behaviour, loading the key in `__init__`, is `KeyManager.LoadKey`.
