/** `ConversationManager.parse_command` and `ConversationManager.detect_language`
    (conversation_manager.py): classifying an utterance into a camera command, and guessing the
    language of a reply. */
module Commands {
  import opened Wrappers
  import opened Text

  // ---------------------------------------------------------------- the pattern table

  /** The two regular-expression shapes that occur in `photo_commands`: `before ?after` (an optional
      space) and `body\??` (an optional trailing question mark). Neither uses any other regex syntax. */
  datatype Pattern =
    | OptionalSpace(before: string, after: string)
    | OptionalQuestion(body: string)

  /** The strings a pattern matches. */
  function Words(p: Pattern): seq<string>
  {
    match p
    case OptionalSpace(b, a) => [b + " " + a, b + a]
    case OptionalQuestion(body) => [body, body + "?"]
  }

  /** `re.search(pattern, text)` finds a match: some string the pattern matches occurs in `text`. */
  predicate Search(text: string, p: Pattern)
  {
    exists w | w in Words(p) :: Contains(text, w)
  }

  /** The optional trailing `?` never changes whether a search succeeds. */
  lemma {:induction false} SearchIgnoresQuestionMark(text: string, body: string)
    ensures Search(text, OptionalQuestion(body)) <==> Contains(text, body)
  {
    if Contains(text, body + "?") {
      ContainsPrefixOfWord(text, body, "?");
    }
    assert body in Words(OptionalQuestion(body));
  }

  /** `r'camera ?1'` and its kind match the phrase with and without the space. */
  lemma SearchOptionalSpace(text: string, before: string, after: string)
    ensures Search(text, OptionalSpace(before, after))
        <==> Contains(text, before + " " + after) || Contains(text, before + after)
  {
    assert Words(OptionalSpace(before, after))[0] == before + " " + after;
    assert Words(OptionalSpace(before, after))[1] == before + after;
  }

  /** The keys of `photo_commands`, in the dictionary's (insertion) order. */
  datatype Group = TakePhotoCamera1 | TakePhotoCamera2 | WhatIsThis | WhatIsThat

  /** The patterns of `self.photo_commands`, entry for entry (the table lists two Chinese patterns
      twice). */
  const TAKE_PHOTO_1_PATTERNS: seq<Pattern> := [
    OptionalSpace("take photo from camera", "1"),
    OptionalSpace("camera", "1\U{3067}\U{5199}\U{771F}\U{3092}\U{64AE}\U{3063}\U{3066}"),
    OptionalSpace("\U{7528}camera", "\U{4E00}\U{62CD}\U{7167}"),
    OptionalSpace("\U{7528}camera", "\U{4E00}\U{62CD}\U{7167}"),
    OptionalSpace("\U{5F9E}camera", "1\U{62CD}\U{7167}"),
    OptionalSpace("\U{5F9E}camera", "1\U{62CD}\U{7167}")]
  const TAKE_PHOTO_2_PATTERNS: seq<Pattern> := [
    OptionalSpace("take photo from camera", "2"),
    OptionalSpace("camera", "2\U{3067}\U{5199}\U{771F}\U{3092}\U{64AE}\U{3063}\U{3066}"),
    OptionalSpace("\U{7528}camera", "\U{4E8C}\U{62CD}\U{7167}"),
    OptionalSpace("\U{7528}camera", "\U{4E8C}\U{62CD}\U{7167}"),
    OptionalSpace("\U{5F9E}camera", "2\U{62CD}\U{7167}"),
    OptionalSpace("\U{5F9E}camera", "2\U{62CD}\U{7167}")]
  const WHAT_IS_THIS_PATTERNS: seq<Pattern> := [
    OptionalQuestion("what is this"),
    OptionalQuestion("\U{3053}\U{308C}\U{306F}\U{4F55}"),
    OptionalQuestion("\U{9019}\U{662F}\U{4EC0}\U{9EBC}")]
  const WHAT_IS_THAT_PATTERNS: seq<Pattern> := [
    OptionalQuestion("what is that"),
    OptionalQuestion("\U{3042}\U{308C}\U{306F}\U{4F55}"),
    OptionalQuestion("\U{305D}\U{308C}\U{306F}\U{4F55}"),
    OptionalQuestion("\U{90A3}\U{662F}\U{4EC0}\U{9EBC}")]

  /** `self.photo_commands`, in the dictionary's order. */
  const PHOTO_COMMANDS: seq<(Group, seq<Pattern>)> := [
    (TakePhotoCamera1, TAKE_PHOTO_1_PATTERNS),
    (TakePhotoCamera2, TAKE_PHOTO_2_PATTERNS),
    (WhatIsThis, WHAT_IS_THIS_PATTERNS),
    (WhatIsThat, WHAT_IS_THAT_PATTERNS)
  ]

  /** `any(re.search(pattern, text, re.IGNORECASE) for pattern in patterns)` on lower-cased text. */
  predicate AnySearch(text: string, patterns: seq<Pattern>)
  {
    exists p | p in patterns :: Search(text, p)
  }

  /** The index of the first entry of the table, at or after `k`, one of whose patterns matches;
      `|PHOTO_COMMANDS|` when there is none. */
  function FirstMatchingEntry(text: string, k: nat): (r: nat)
    requires k <= |PHOTO_COMMANDS|
    ensures k <= r <= |PHOTO_COMMANDS|
    ensures forall j :: k <= j < r ==> !AnySearch(text, PHOTO_COMMANDS[j].1)
    ensures r < |PHOTO_COMMANDS| ==> AnySearch(text, PHOTO_COMMANDS[r].1)
    decreases |PHOTO_COMMANDS| - k
  {
    if k == |PHOTO_COMMANDS| || AnySearch(text, PHOTO_COMMANDS[k].1) then k
    else FirstMatchingEntry(text, k + 1)
  }

  // ---------------------------------------------------------------- parse_command

  /** The `(command_type, camera_number)` pair: `('take_photo', n)`, `('analyze', n)` or
      `('normal', None)`. */
  datatype Command = TakePhoto(camera: char) | Analyze(camera: char) | Normal

  function GroupCommand(g: Group): Command
  {
    match g
    case TakePhotoCamera1 => TakePhoto('1')
    case TakePhotoCamera2 => TakePhoto('2')
    case WhatIsThis => Analyze('2')
    case WhatIsThat => Analyze('1')
  }

  /** `text.lower().strip()` */
  function Normalize(text: string): string
  {
    Strip(Lower(text))
  }

  function ParseCommand(text: string): (c: Command)
    ensures !c.Normal? ==> c.camera == '1' || c.camera == '2'
  {
    var t := Normalize(text);
    var k := FirstMatchingEntry(t, 0);
    if k < |PHOTO_COMMANDS| then GroupCommand(PHOTO_COMMANDS[k].0)
    else if Contains(t, "camera 1") || Contains(t, "front camera") then Analyze('1')
    else if Contains(t, "camera 2") || Contains(t, "rear camera") then Analyze('2')
    else Normal
  }

  // ---------------------------------------------------------------- reference classification

  /** The phrases each table entry recognises, written out: every regex expanded to the literal
      strings it can match, the optional trailing `?` dropped. */
  const TAKE_PHOTO_1_PHRASES: seq<string> := [
    "take photo from camera 1", "take photo from camera1",
    "camera 1\U{3067}\U{5199}\U{771F}\U{3092}\U{64AE}\U{3063}\U{3066}",
    "camera1\U{3067}\U{5199}\U{771F}\U{3092}\U{64AE}\U{3063}\U{3066}",
    "\U{7528}camera \U{4E00}\U{62CD}\U{7167}", "\U{7528}camera\U{4E00}\U{62CD}\U{7167}",
    "\U{5F9E}camera 1\U{62CD}\U{7167}", "\U{5F9E}camera1\U{62CD}\U{7167}"]
  const TAKE_PHOTO_2_PHRASES: seq<string> := [
    "take photo from camera 2", "take photo from camera2",
    "camera 2\U{3067}\U{5199}\U{771F}\U{3092}\U{64AE}\U{3063}\U{3066}",
    "camera2\U{3067}\U{5199}\U{771F}\U{3092}\U{64AE}\U{3063}\U{3066}",
    "\U{7528}camera \U{4E8C}\U{62CD}\U{7167}", "\U{7528}camera\U{4E8C}\U{62CD}\U{7167}",
    "\U{5F9E}camera 2\U{62CD}\U{7167}", "\U{5F9E}camera2\U{62CD}\U{7167}"]
  const WHAT_IS_THIS_PHRASES: seq<string> := [
    "what is this", "\U{3053}\U{308C}\U{306F}\U{4F55}", "\U{9019}\U{662F}\U{4EC0}\U{9EBC}"]
  const WHAT_IS_THAT_PHRASES: seq<string> := [
    "what is that", "\U{3042}\U{308C}\U{306F}\U{4F55}", "\U{305D}\U{308C}\U{306F}\U{4F55}",
    "\U{90A3}\U{662F}\U{4EC0}\U{9EBC}"]
  const CAMERA_1_MENTIONS: seq<string> := ["camera 1", "front camera"]
  const CAMERA_2_MENTIONS: seq<string> := ["camera 2", "rear camera"]

  predicate Mentions(text: string, phrases: seq<string>)
  {
    exists w | w in phrases :: Contains(text, w)
  }

  /** The classification as a plain first-match over phrase lists, on the lower-cased text
      (no stripping). */
  ghost function Classify(t: string): Command
  {
    if Mentions(t, TAKE_PHOTO_1_PHRASES) then TakePhoto('1')
    else if Mentions(t, TAKE_PHOTO_2_PHRASES) then TakePhoto('2')
    else if Mentions(t, WHAT_IS_THIS_PHRASES) then Analyze('2')
    else if Mentions(t, WHAT_IS_THAT_PHRASES) then Analyze('1')
    else if Mentions(t, CAMERA_1_MENTIONS) then Analyze('1')
    else if Mentions(t, CAMERA_2_MENTIONS) then Analyze('2')
    else Normal
  }

  /** Every string a pattern of `ps` matches is among `phrases`, up to a dropped trailing `?`. */
  lemma {:induction false} PatternsWithinPhrases(text: string, ps: seq<Pattern>, phrases: seq<string>)
    requires forall i | 0 <= i < |ps| :: ps[i].OptionalSpace? ==>
               ps[i].before + " " + ps[i].after in phrases && ps[i].before + ps[i].after in phrases
    requires forall i | 0 <= i < |ps| :: ps[i].OptionalQuestion? ==> ps[i].body in phrases
    ensures AnySearch(text, ps) ==> Mentions(text, phrases)
  {
    if AnySearch(text, ps) {
      var p :| p in ps && Search(text, p);
      var i :| 0 <= i < |ps| && ps[i] == p;
      match p
      case OptionalSpace(b, a) =>
        SearchOptionalSpace(text, b, a);
      case OptionalQuestion(body) =>
        SearchIgnoresQuestionMark(text, body);
    }
  }

  /** Every phrase is matched by some pattern of `ps`. */
  lemma {:induction false} PhrasesWithinPatterns(text: string, ps: seq<Pattern>, phrases: seq<string>)
    requires forall j | 0 <= j < |phrases| :: exists i | 0 <= i < |ps| :: phrases[j] in Words(ps[i])
    ensures Mentions(text, phrases) ==> AnySearch(text, ps)
  {
    if Mentions(text, phrases) {
      var w :| w in phrases && Contains(text, w);
      var j :| 0 <= j < |phrases| && phrases[j] == w;
      var i :| 0 <= i < |ps| && phrases[j] in Words(ps[i]);
      assert Search(text, ps[i]);
    }
  }

  lemma {:induction false} TakePhoto1Phrases(text: string)
    ensures AnySearch(text, TAKE_PHOTO_1_PATTERNS) <==> Mentions(text, TAKE_PHOTO_1_PHRASES)
  {
    TakePhoto1Sound(text);
    TakePhoto1Complete(text);
  }

  lemma {:induction false} TakePhoto1Sound(text: string)
    ensures AnySearch(text, TAKE_PHOTO_1_PATTERNS) ==> Mentions(text, TAKE_PHOTO_1_PHRASES)
  {
    var ps, ph := TAKE_PHOTO_1_PATTERNS, TAKE_PHOTO_1_PHRASES;
    forall i | 0 <= i < |ps|
      ensures ps[i].OptionalSpace? && ps[i].before + " " + ps[i].after in ph && ps[i].before + ps[i].after in ph
    {
      var k := if i < 3 then 2 * i else if i == 3 then 4 else 6;
      assert ps[i].before + " " + ps[i].after == ph[k] && ps[i].before + ps[i].after == ph[k + 1];
    }
    PatternsWithinPhrases(text, ps, ph);
  }

  lemma {:induction false} TakePhoto1Complete(text: string)
    ensures Mentions(text, TAKE_PHOTO_1_PHRASES) ==> AnySearch(text, TAKE_PHOTO_1_PATTERNS)
  {
    var ps, ph := TAKE_PHOTO_1_PATTERNS, TAKE_PHOTO_1_PHRASES;
    assert ps[0].before + " " + ps[0].after == ph[0] && ps[0].before + ps[0].after == ph[1];
    assert ps[1].before + " " + ps[1].after == ph[2] && ps[1].before + ps[1].after == ph[3];
    assert ps[2].before + " " + ps[2].after == ph[4] && ps[2].before + ps[2].after == ph[5];
    assert ps[4].before + " " + ps[4].after == ph[6] && ps[4].before + ps[4].after == ph[7];
    PhrasesWithinPatterns(text, ps, ph);
  }

  lemma {:induction false} TakePhoto2Phrases(text: string)
    ensures AnySearch(text, TAKE_PHOTO_2_PATTERNS) <==> Mentions(text, TAKE_PHOTO_2_PHRASES)
  {
    TakePhoto2Sound(text);
    TakePhoto2Complete(text);
  }

  lemma {:induction false} TakePhoto2Sound(text: string)
    ensures AnySearch(text, TAKE_PHOTO_2_PATTERNS) ==> Mentions(text, TAKE_PHOTO_2_PHRASES)
  {
    var ps, ph := TAKE_PHOTO_2_PATTERNS, TAKE_PHOTO_2_PHRASES;
    forall i | 0 <= i < |ps|
      ensures ps[i].OptionalSpace? && ps[i].before + " " + ps[i].after in ph && ps[i].before + ps[i].after in ph
    {
      var k := if i < 3 then 2 * i else if i == 3 then 4 else 6;
      assert ps[i].before + " " + ps[i].after == ph[k] && ps[i].before + ps[i].after == ph[k + 1];
    }
    PatternsWithinPhrases(text, ps, ph);
  }

  lemma {:induction false} TakePhoto2Complete(text: string)
    ensures Mentions(text, TAKE_PHOTO_2_PHRASES) ==> AnySearch(text, TAKE_PHOTO_2_PATTERNS)
  {
    var ps, ph := TAKE_PHOTO_2_PATTERNS, TAKE_PHOTO_2_PHRASES;
    assert ps[0].before + " " + ps[0].after == ph[0] && ps[0].before + ps[0].after == ph[1];
    assert ps[1].before + " " + ps[1].after == ph[2] && ps[1].before + ps[1].after == ph[3];
    assert ps[2].before + " " + ps[2].after == ph[4] && ps[2].before + ps[2].after == ph[5];
    assert ps[4].before + " " + ps[4].after == ph[6] && ps[4].before + ps[4].after == ph[7];
    PhrasesWithinPatterns(text, ps, ph);
  }

  lemma {:induction false} WhatIsThisPhrases(text: string)
    ensures AnySearch(text, WHAT_IS_THIS_PATTERNS) <==> Mentions(text, WHAT_IS_THIS_PHRASES)
  {
    var ps, ph := WHAT_IS_THIS_PATTERNS, WHAT_IS_THIS_PHRASES;
    assert ps[0].body == ph[0] && ps[1].body == ph[1] && ps[2].body == ph[2];
    PatternsWithinPhrases(text, ps, ph);
    PhrasesWithinPatterns(text, ps, ph);
  }

  lemma {:induction false} WhatIsThatPhrases(text: string)
    ensures AnySearch(text, WHAT_IS_THAT_PATTERNS) <==> Mentions(text, WHAT_IS_THAT_PHRASES)
  {
    var ps, ph := WHAT_IS_THAT_PATTERNS, WHAT_IS_THAT_PHRASES;
    assert ps[0].body == ph[0] && ps[1].body == ph[1] && ps[2].body == ph[2] && ps[3].body == ph[3];
    PatternsWithinPhrases(text, ps, ph);
    PhrasesWithinPatterns(text, ps, ph);
  }

  /** No phrase starts or ends with whitespace. */
  predicate Trimmed(phrases: seq<string>)
  {
    forall j | 0 <= j < |phrases| ::
      |phrases[j]| > 0 && !IsSpace(phrases[j][0]) && !IsSpace(phrases[j][|phrases[j]| - 1])
  }

  /** Stripping the text does not change which of a list of trimmed phrases it mentions. */
  lemma {:induction false} MentionsIgnoresStrip(text: string, phrases: seq<string>)
    requires Trimmed(phrases)
    ensures Mentions(Strip(text), phrases) <==> Mentions(text, phrases)
  {
    forall j | 0 <= j < |phrases|
      ensures Contains(Strip(text), phrases[j]) <==> Contains(text, phrases[j])
    {
      StripKeepsWords(text, phrases[j]);
    }
  }

  lemma AllPhrasesTrimmed()
    ensures Trimmed(TAKE_PHOTO_1_PHRASES) && Trimmed(TAKE_PHOTO_2_PHRASES)
    ensures Trimmed(WHAT_IS_THIS_PHRASES) && Trimmed(WHAT_IS_THAT_PHRASES)
    ensures Trimmed(CAMERA_1_MENTIONS) && Trimmed(CAMERA_2_MENTIONS)
  {
    PhotoPhrasesTrimmed();
  }

  /** The two photo lists, the longest ones. */
  lemma PhotoPhrasesTrimmed()
    ensures Trimmed(TAKE_PHOTO_1_PHRASES) && Trimmed(TAKE_PHOTO_2_PHRASES)
  {
  }

  /** `parse_command` is the first-match classification of the lower-cased text over the phrases
      its patterns expand to; the `strip()` never changes the outcome. */
  lemma {:induction false} ParseCommandClassifies(text: string)
    ensures ParseCommand(text) == Classify(Lower(text))
  {
    var l := Lower(text);
    var t := Strip(l);
    AllPhrasesTrimmed();
    TakePhoto1Phrases(t);
    TakePhoto2Phrases(t);
    WhatIsThisPhrases(t);
    WhatIsThatPhrases(t);
    MentionsIgnoresStrip(l, TAKE_PHOTO_1_PHRASES);
    MentionsIgnoresStrip(l, TAKE_PHOTO_2_PHRASES);
    MentionsIgnoresStrip(l, WHAT_IS_THIS_PHRASES);
    MentionsIgnoresStrip(l, WHAT_IS_THAT_PHRASES);
    MentionsIgnoresStrip(l, CAMERA_1_MENTIONS);
    MentionsIgnoresStrip(l, CAMERA_2_MENTIONS);
    assert Mentions(t, CAMERA_1_MENTIONS) <==> Contains(t, "camera 1") || Contains(t, "front camera") by {
      assert CAMERA_1_MENTIONS[0] == "camera 1" && CAMERA_1_MENTIONS[1] == "front camera";
    }
    assert Mentions(t, CAMERA_2_MENTIONS) <==> Contains(t, "camera 2") || Contains(t, "rear camera") by {
      assert CAMERA_2_MENTIONS[0] == "camera 2" && CAMERA_2_MENTIONS[1] == "rear camera";
    }
    var k := FirstMatchingEntry(t, 0);
    if k == 0 {
    } else if k == 1 {
    } else if k == 2 {
    } else if k == 3 {
    } else {
      assert !AnySearch(t, PHOTO_COMMANDS[0].1);
      assert !AnySearch(t, PHOTO_COMMANDS[1].1);
      assert !AnySearch(t, PHOTO_COMMANDS[2].1);
      assert !AnySearch(t, PHOTO_COMMANDS[3].1);
    }
  }

  predicate IsAscii(s: string)
  {
    forall k | 0 <= k < |s| :: s[k] as int < 0x80
  }

  /** A phrase holding a non-ASCII character never occurs in ASCII text. */
  lemma NoWideWordInAscii(s: string, w: string, j: nat)
    requires IsAscii(s) && j < |w| && w[j] as int >= 0x80
    ensures !Contains(s, w)
  {
  }

  /** In ASCII text of at most eleven characters only the two bare mentions can match: the Latin
      command phrases are all longer, the others hold non-ASCII characters. */
  lemma {:induction false} ShortAsciiText(t: string)
    requires IsAscii(t) && |t| < 12
    ensures Classify(t) == (if Mentions(t, CAMERA_1_MENTIONS) then Analyze('1')
                            else if Mentions(t, CAMERA_2_MENTIONS) then Analyze('2')
                            else Normal)
  {
    forall j | 0 <= j < |TAKE_PHOTO_1_PHRASES| ensures !Contains(t, TAKE_PHOTO_1_PHRASES[j]) {
      if j >= 2 { NoWideWordInAscii(t, TAKE_PHOTO_1_PHRASES[j], if j == 2 then 8 else if j == 3 then 7 else 0); }
    }
    forall j | 0 <= j < |TAKE_PHOTO_2_PHRASES| ensures !Contains(t, TAKE_PHOTO_2_PHRASES[j]) {
      if j >= 2 { NoWideWordInAscii(t, TAKE_PHOTO_2_PHRASES[j], if j == 2 then 8 else if j == 3 then 7 else 0); }
    }
    forall j | 0 <= j < |WHAT_IS_THIS_PHRASES| ensures !Contains(t, WHAT_IS_THIS_PHRASES[j]) {
      if j >= 1 { NoWideWordInAscii(t, WHAT_IS_THIS_PHRASES[j], 0); }
    }
    forall j | 0 <= j < |WHAT_IS_THAT_PHRASES| ensures !Contains(t, WHAT_IS_THAT_PHRASES[j]) {
      if j >= 1 { NoWideWordInAscii(t, WHAT_IS_THAT_PHRASES[j], 0); }
    }
  }

  /** Lower-case ASCII text of at most eleven characters is an analysis request exactly when it
      holds one of the bare mentions. */
  lemma {:induction false} ShortAsciiCommand(t: string)
    requires Lower(t) == t && IsAscii(t) && |t| < 12
    ensures ParseCommand(t) == (if Contains(t, "camera 1") || Contains(t, "front camera") then Analyze('1')
                                else if Contains(t, "camera 2") || Contains(t, "rear camera") then Analyze('2')
                                else Normal)
  {
    ParseCommandClassifies(t);
    ShortAsciiText(t);
    assert CAMERA_1_MENTIONS[0] == "camera 1" && CAMERA_1_MENTIONS[1] == "front camera";
    assert CAMERA_2_MENTIONS[0] == "camera 2" && CAMERA_2_MENTIONS[1] == "rear camera";
  }

  /** "camera 1" on its own asks for an analysis of camera 1 ... */
  lemma {:induction false} BareCameraMention()
    ensures ParseCommand("camera 1") == Analyze('1')
  {
    var t := "camera 1";
    assert Lower(t) == t;
    ShortAsciiCommand(t);
    assert OccursAt(t, "camera 1", 0);
  }

  /** ... but "camera1" written without the space is an ordinary message: the fallback checks look
      for "camera 1" and "front camera" only. */
  lemma {:induction false} BareCameraNeedsSpace()
    ensures ParseCommand("camera1") == Normal
  {
    var t := "camera1";
    assert Lower(t) == t;
    ShortAsciiCommand(t);
    assert |"camera 1"| > |t| && |"front camera"| > |t| && |"camera 2"| > |t| && |"rear camera"| > |t|;
  }

  // ---------------------------------------------------------------- detect_language

  /** The language codes `detect_language` returns. */
  datatype Lang = Ja | Zh | En

  /** Hiragana (U+3040-U+309F) and katakana (U+30A0-U+30FF). */
  predicate IsKana(c: char) { 0x3040 <= c as int <= 0x30FF }

  /** CJK unified ideographs (U+4E00-U+9FFF). */
  predicate IsHan(c: char) { 0x4E00 <= c as int <= 0x9FFF }

  /** Whether some character of `s[i..]` lies in the code-point range `lo..hi`. */
  function HasCharIn(s: string, i: nat, lo: int, hi: int): (r: bool)
    requires i <= |s|
    ensures r <==> exists k | i <= k < |s| :: lo <= s[k] as int <= hi
    decreases |s| - i
  {
    if i == |s| then false
    else (lo <= s[i] as int <= hi) || HasCharIn(s, i + 1, lo, hi)
  }

  /** Japanese as soon as there is any kana, else Chinese as soon as there is any ideograph, else
      English: a text of ideographs alone counts as Chinese even when it is Japanese kanji. */
  function DetectLanguage(text: string): (l: Lang)
    ensures l == Ja <==> exists k | 0 <= k < |text| :: IsKana(text[k])
    ensures l == Zh <==>
              (forall k | 0 <= k < |text| :: !IsKana(text[k])) && (exists k | 0 <= k < |text| :: IsHan(text[k]))
    ensures l == En <==> forall k | 0 <= k < |text| :: !IsKana(text[k]) && !IsHan(text[k])
  {
    if HasCharIn(text, 0, 0x3040, 0x30FF) then Ja
    else if HasCharIn(text, 0, 0x4E00, 0x9FFF) then Zh
    else En
  }

  function LangCode(l: Lang): string
  {
    match l
    case Ja => "ja"
    case Zh => "zh"
    case En => "en"
  }
}
