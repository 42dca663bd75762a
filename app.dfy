/** `GPTChatApp` (dual_camera_gpt_app.py): the parts of the Tk front end that are logic rather than
    widgets. They are the recall of earlier inputs with the arrow keys, the chat area's height for
    a font size, the record button's state for a status message, the colour tag and label of a
    chat line, and the handling of a submitted input up to the call into the conversation manager. */
module App {
  import opened Wrappers
  import opened Text
  import opened Messages

  // ---------------------------------------------------------------- command recall

  /** `deque(maxlen=10)` */
  const RECALL_SIZE := 10

  /** `command_history.append(entry)` on a deque of at most ten: the newest ten entries of the old
      ones and the new one. */
  function Pushed(entries: seq<string>, entry: string): (r: seq<string>)
    requires |entries| <= RECALL_SIZE
    ensures |r| == if |entries| < RECALL_SIZE then |entries| + 1 else RECALL_SIZE
    ensures r[|r| - 1] == entry
  {
    if |entries| < RECALL_SIZE then entries + [entry] else entries[1..] + [entry]
  }

  /** The deque keeps the newest entries: appending to a full one drops exactly the oldest. */
  lemma PushedKeepsNewest(entries: seq<string>, entry: string)
    requires |entries| <= RECALL_SIZE
    ensures var r := Pushed(entries, entry);
            r == (entries + [entry])[|entries| + 1 - |r|..]
  {
  }

  /** The cursor into the recalled entries and the input field's text. */
  datatype Recall = Recall(index: nat, input: string)

  /** `handle_up_key`: one entry further back, as long as there is one; the input field then shows
      the `index`-th newest entry. */
  function Up(entries: seq<string>, r: Recall): (r': Recall)
    requires r.index <= |entries|
    ensures r'.index <= |entries|
    ensures r.index < |entries| ==> r'.index == r.index + 1 && r'.input == entries[|entries| - r'.index]
    ensures r.index == |entries| ==> r' == r
  {
    if |entries| > 0 && r.index < |entries| then Recall(r.index + 1, entries[|entries| - (r.index + 1)])
    else r
  }

  /** `handle_down_key`: one entry forward; back at the start the input field is left empty. */
  function Down(entries: seq<string>, r: Recall): (r': Recall)
    requires r.index <= |entries|
    ensures r'.index <= |entries|
    ensures r.index > 0 ==> r'.index == r.index - 1
    ensures r.index > 1 ==> r'.input == entries[|entries| - r'.index]
    ensures r.index == 1 ==> r'.input == ""
    ensures r.index == 0 ==> r' == r
  {
    if r.index > 0 then
      var i := r.index - 1;
      Recall(i, if i > 0 then entries[|entries| - i] else "")
    else r
  }

  /** Down undoes Up: after one step back and one forward the cursor is where it was, showing the
      entry it showed, or nothing at the start. */
  lemma DownUndoesUp(entries: seq<string>, r: Recall)
    requires r.index < |entries|
    requires r.index > 0 ==> r.input == entries[|entries| - r.index]
    requires r.index == 0 ==> r.input == ""
    ensures Down(entries, Up(entries, r)) == r
  {
  }

  /** Up from the start `k` times recalls the `k`-th newest entry. */
  function UpTimes(entries: seq<string>, r: Recall, k: nat): (r': Recall)
    requires r.index <= |entries|
    ensures r'.index <= |entries|
  {
    if k == 0 then r else Up(entries, UpTimes(entries, r, k - 1))
  }

  lemma {:induction false} UpRecallsNewestFirst(entries: seq<string>, input: string, k: nat)
    requires 0 < k <= |entries|
    ensures UpTimes(entries, Recall(0, input), k) == Recall(k, entries[|entries| - k])
  {
    if k > 1 {
      UpRecallsNewestFirst(entries, input, k - 1);
    }
  }

  // ---------------------------------------------------------------- display

  /** The chat area's height, in lines, for a font size (`update_font_size`). */
  function DisplayHeight(size: int): (h: nat)
    ensures h == 10 <==> size <= 12
    ensures h == 8 <==> 12 < size <= 16
    ensures h == 6 <==> 16 < size <= 20
    ensures h == 5 <==> 20 < size
  {
    if size <= 12 then 10 else if size <= 16 then 8 else if size <= 20 then 6 else 5
  }

  /** A larger font never gets more lines. */
  lemma DisplayHeightNonIncreasing(a: int, b: int)
    requires a <= b
    ensures DisplayHeight(b) <= DisplayHeight(a)
  {
  }

  /** The status messages under which `update_status` enables the record button. */
  const RECORD_ENABLING: set<string> := {
    "---",
    "Switched to ChatGPT",
    "Switched to Claude",
    "Switched to Gemini",
    "Switched to Grok",
    "Switched to Perplexity",
    "Recording audio...",
    "Generating speech"
  }

  /** Clearing the status disables the record button. */
  lemma ClearedStatusDisablesRecording()
    ensures "" !in RECORD_ENABLING
  {
  }

  /** The speakers `chat_colors` has a colour for. */
  const COLOURED: set<string> := {"human", "ChatGPT", "Claude", "Gemini", "Grok"}

  /** `insert_colored_message`: the text tag of a speaker's line. */
  function ColourTag(speaker: string): (tag: string)
    ensures tag in COLOURED
    ensures tag == speaker <==> speaker in COLOURED
    ensures speaker !in COLOURED ==> tag == "human"
  {
    if speaker in COLOURED then speaker else "human"
  }

  /** `insert_colored_message`: the label in front of a speaker's line. */
  function SpeakerLabel(speaker: string): (l: string)
    ensures speaker == "human" ==> l == "You: "
    ensures speaker != "human" ==> l == speaker + ": "
  {
    if speaker == "human" then "You: " else speaker + ": "
  }

  /** Perplexity has no colour of its own: its lines are tagged like the user's but labelled with its name. */
  lemma PerplexityLooksHuman()
    ensures ColourTag("Perplexity") == "human" && SpeakerLabel("Perplexity") == "Perplexity: "
  {
  }

  /** A line of the chat display. */
  datatype Line = Line(tag: string, speakerText: string, text: string)

  function ChatLine(speaker: string, text: string): Line
  {
    Line(ColourTag(speaker), SpeakerLabel(speaker), text)
  }

  /** The inputs that end the program, compared lower-case. */
  const EXIT_WORDS: set<string> := {"quit", "exit", "bye"}

  /** The input asks about a camera, so the app captures an image first. */
  predicate AsksAboutCamera(input: string)
  {
    Contains(Lower(input), "camera") || Contains(Lower(input), "what is this") || Contains(Lower(input), "what is that")
  }

  const CAPTURE_STATUS := "Processing image... Please wait."
  const CAPTURE_ERROR := "Error capturing image."

  /** How `handle_input` ended. */
  datatype Submission = Ignored | Exited | CaptureFailed | Answered(input: string, reply: string)

  class ChatApp {
    var entries: seq<string>
    var recall: Recall
    var transcript: seq<Line>
    var status: string
    var recordEnabled: bool
    var fontSize: int
    var displayHeight: nat

    /** The cursor never points past the recalled entries, of which there are at most ten. */
    ghost predicate Valid()
      reads this
    {
      recall.index <= |entries| <= RECALL_SIZE
    }

    /** The recall state of a new window: nothing recalled, font size 12. */
    constructor ()
      ensures Valid()
      ensures entries == [] && recall == Recall(0, "") && transcript == []
      ensures fontSize == 12 && displayHeight == DisplayHeight(12)
    {
      entries := [];
      recall := Recall(0, "");
      transcript := [];
      status := "";
      recordEnabled := false;
      fontSize := 12;
      displayHeight := DisplayHeight(12);
    }

    /** `handle_up_key` */
    method UpKey()
      requires Valid()
      modifies this
      ensures Valid()
      ensures entries == old(entries) && transcript == old(transcript) && status == old(status)
      ensures recall == Up(entries, old(recall))
      ensures recordEnabled == old(recordEnabled) && fontSize == old(fontSize) && displayHeight == old(displayHeight)
    {
      if |entries| > 0 {
        if recall.index < |entries| {
          var i := recall.index + 1;
          recall := Recall(i, entries[|entries| - i]);
        }
      }
    }

    /** `handle_down_key` */
    method DownKey()
      requires Valid()
      modifies this
      ensures Valid()
      ensures entries == old(entries) && transcript == old(transcript) && status == old(status)
      ensures recall == Down(entries, old(recall))
      ensures recordEnabled == old(recordEnabled) && fontSize == old(fontSize) && displayHeight == old(displayHeight)
    {
      if recall.index > 0 {
        var i := recall.index - 1;
        recall := Recall(i, "");
        if i > 0 {
          recall := Recall(i, entries[|entries| - i]);
        }
      }
    }

    /** `update_status` */
    method UpdateStatus(message: string)
      modifies this
      ensures status == message && (recordEnabled <==> message in RECORD_ENABLING)
      ensures entries == old(entries) && recall == old(recall) && transcript == old(transcript)
      ensures fontSize == old(fontSize) && displayHeight == old(displayHeight)
    {
      status := message;
      recordEnabled := message in RECORD_ENABLING;
    }

    /** `update_font_size` */
    method UpdateFontSize(newSize: int)
      modifies this
      ensures fontSize == newSize && displayHeight == DisplayHeight(newSize)
      ensures entries == old(entries) && recall == old(recall) && transcript == old(transcript)
      ensures status == old(status) && recordEnabled == old(recordEnabled)
    {
      fontSize := newSize;
      var height: nat;
      if newSize <= 12 {
        height := 10;
      } else if newSize <= 16 {
        height := 8;
      } else if newSize <= 20 {
        height := 6;
      } else {
        height := 5;
      }
      displayHeight := height;
    }

    /** `handle_input` (the definition at line 494). `raw` is the input field's text. With a camera
        attached, `capture` is what `capture_and_convert` returned. `respond` stands for
        `ConversationManager.get_response` and `modelName` for the current model's name. An empty
        input changes nothing. Any other input is recalled, the field cleared and the line shown.
        Then: an exit word ends the program; a camera question whose capture failed shows the
        error; everything else is answered under the model's name. */
    method HandleInput(raw: string, cameraAttached: bool, capture: Option<string>,
                       modelName: string, respond: string -> string)
      returns (s: Submission)
      requires Valid()
      modifies this
      ensures Valid()
      ensures var input := Strip(raw);
              input == "" ==> s == Ignored && entries == old(entries) && recall == old(recall)
                              && transcript == old(transcript) && status == old(status)
                              && recordEnabled == old(recordEnabled)
      ensures var input := Strip(raw);
              input != "" ==> entries == Pushed(old(entries), input) && recall == Recall(0, "")
      ensures var input := Strip(raw);
              input != "" && Lower(input) in EXIT_WORDS
              ==> s == Exited && transcript == old(transcript) + [ChatLine("human", input)] && status == old(status)
                  && recordEnabled == old(recordEnabled)
      ensures var input := Strip(raw);
              input != "" && Lower(input) !in EXIT_WORDS && AsksAboutCamera(input) && cameraAttached && !HasImage(capture)
              ==> s == CaptureFailed && status == CAPTURE_STATUS && !recordEnabled
                  && transcript == old(transcript) + [ChatLine("human", input), ChatLine("system", CAPTURE_ERROR)]
      ensures var input := Strip(raw);
              input != "" && Lower(input) !in EXIT_WORDS && !(AsksAboutCamera(input) && cameraAttached && !HasImage(capture))
              ==> s == Answered(input, respond(input)) && status == "" && !recordEnabled
                  && transcript == old(transcript) + [ChatLine("human", input), ChatLine(modelName, respond(input))]
      ensures fontSize == old(fontSize) && displayHeight == old(displayHeight)
    {
      var input := Strip(raw);
      if input == "" {
        return Ignored;
      }
      entries := Pushed(entries, input);
      recall := Recall(0, "");
      transcript := transcript + [ChatLine("human", input)];
      if Lower(input) in EXIT_WORDS {
        return Exited;
      }
      if AsksAboutCamera(input) && cameraAttached {
        UpdateStatus(CAPTURE_STATUS);
        if !HasImage(capture) {
          transcript := transcript + [ChatLine("system", CAPTURE_ERROR)];
          return CaptureFailed;
        }
      }
      var reply := respond(input);
      transcript := transcript + [ChatLine(modelName, reply)];
      ClearedStatusDisablesRecording();
      UpdateStatus("");
      s := Answered(input, reply);
    }
  }
}
