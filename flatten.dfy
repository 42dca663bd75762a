/** The history reshaping that `GrokModel.format_messages` (grok.py) and
    `PerplexityModel.format_messages` (perplexity.py) share, word for word but for the note they
    append: the system message first when the history starts with one, then every later message
    with its content flattened to text; the history's last message, when it holds an image list
    and an image is given, gets the adapter's note instead of the image. */
module Flatten {
  import opened Wrappers
  import opened Messages

  /** `message == conversation_history[-1]`: a comparison of values, so an earlier message equal
      to the last one also matches. */
  predicate IsLast(m: Message, history: seq<Message>)
  {
    |history| > 0 && m == history[|history| - 1]
  }

  /** One message after the first, flattened. */
  function FlatOne(m: Message, history: seq<Message>, imagePath: Option<string>, note: string): (r: Message)
    ensures r.role == m.role && r.content.Plain?
    ensures m.content.WithImage? && HasImage(imagePath) && IsLast(m, history) ==> r.content.text == m.content.text + note
    ensures !(m.content.WithImage? && HasImage(imagePath) && IsLast(m, history)) ==> r.content.text == m.content.text
  {
    if m.content.Plain? then Message(m.role, m.content)
    else if HasImage(imagePath) && IsLast(m, history)
    then Message(m.role, Plain(m.content.text + note))
    else Message(m.role, Plain(m.content.text))
  }

  function FlatAll(ms: seq<Message>, history: seq<Message>, imagePath: Option<string>, note: string): seq<Message>
  {
    if ms == [] then []
    else FlatAll(ms[..|ms| - 1], history, imagePath, note) + [FlatOne(ms[|ms| - 1], history, imagePath, note)]
  }

  /** The leading system message, when the history has one. */
  function SystemPart(history: seq<Message>): seq<Message>
  {
    if |history| > 0 && history[0].role == System then [Message(System, history[0].content)] else []
  }

  /** What `format_messages` returns. */
  function Flattened(history: seq<Message>, imagePath: Option<string>, note: string): seq<Message>
  {
    SystemPart(history) + FlatAll(Rest(history), history, imagePath, note)
  }

  /** The shared `format_messages` loop. */
  method FlattenMessages(history: seq<Message>, imagePath: Option<string>, note: string)
    returns (formatted: seq<Message>)
    ensures formatted == Flattened(history, imagePath, note)
  {
    formatted := [];
    if |history| > 0 && history[0].role == System {
      formatted := formatted + [Message(System, history[0].content)];
    }
    ghost var head := formatted;
    var rest := Rest(history);
    var i := 0;
    while i < |rest|
      invariant 0 <= i <= |rest|
      invariant formatted == head + FlatAll(rest[..i], history, imagePath, note)
    {
      var m := rest[i];
      assert rest[..i + 1][..i] == rest[..i];
      if m.content.Plain? {
        formatted := formatted + [Message(m.role, m.content)];
      } else if HasImage(imagePath) && IsLast(m, history) {
        formatted := formatted + [Message(m.role, Plain(m.content.text + note))];
      } else {
        formatted := formatted + [Message(m.role, Plain(m.content.text))];
      }
      i := i + 1;
    }
    assert rest[..i] == rest;
  }

  /** Flattening keeps every message's role and text, gives every message plain content, and
      adds the note at most to copies of the history's last message. */
  lemma {:induction false} FlatAllKeeps(ms: seq<Message>, history: seq<Message>, imagePath: Option<string>, note: string)
    ensures var f := FlatAll(ms, history, imagePath, note);
            && |f| == |ms|
            && (forall k | 0 <= k < |f| :: f[k].role == ms[k].role && f[k].content.Plain?)
            && (forall k | 0 <= k < |f| ::
                  f[k].content.text == ms[k].content.text
                  || (&& f[k].content.text == ms[k].content.text + note
                      && ms[k].content.WithImage?
                      && HasImage(imagePath)
                      && IsLast(ms[k], history)))
  {
    if ms != [] {
      FlatAllKeeps(ms[..|ms| - 1], history, imagePath, note);
    }
  }

  /** The note is added to the copy of a list message that is the history's last exactly when an
      image is given. */
  lemma {:induction false} NoteOnLastImageMessage(ms: seq<Message>, history: seq<Message>, imagePath: Option<string>, note: string, k: nat)
    requires k < |ms| && ms[k].content.WithImage?
    ensures |FlatAll(ms, history, imagePath, note)| == |ms|
    ensures FlatAll(ms, history, imagePath, note)[k].content.text
            == if HasImage(imagePath) && IsLast(ms[k], history) then ms[k].content.text + note
               else ms[k].content.text
  {
    FlatAllKeeps(ms, history, imagePath, note);
    if k < |ms| - 1 {
      NoteOnLastImageMessage(ms[..|ms| - 1], history, imagePath, note, k);
    }
  }

  /** The system message is sent first exactly when the history starts with one; the first
      message is dropped otherwise, and every later message is sent, in order, as text. */
  lemma FlattenedShape(history: seq<Message>, imagePath: Option<string>, note: string)
    ensures var f := Flattened(history, imagePath, note);
            var off := |SystemPart(history)|;
            && (off == 1 <==> |history| > 0 && history[0].role == System)
            && |f| == |Rest(history)| + off
            && (off == 1 ==> f[0] == Message(System, history[0].content))
            && (forall k | off <= k < |f| :: f[k].role == history[k + 1 - off].role && f[k].content.Plain?)
  {
    var f := Flattened(history, imagePath, note);
    var off := |SystemPart(history)|;
    var flat := FlatAll(Rest(history), history, imagePath, note);
    FlatAllKeeps(Rest(history), history, imagePath, note);
    assert f == SystemPart(history) + flat;
    assert forall k | off <= k < |f| :: f[k] == flat[k - off];
  }

  /** When the system prompt is plain text, so is everything sent. */
  lemma AllPlain(history: seq<Message>, imagePath: Option<string>, note: string)
    requires |history| > 0 && history[0].role == System && history[0].content.Plain?
    ensures forall k | 0 <= k < |Flattened(history, imagePath, note)| :: Flattened(history, imagePath, note)[k].content.Plain?
  {
    FlattenedShape(history, imagePath, note);
  }
}
