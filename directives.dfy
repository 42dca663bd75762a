/** The two directives `get_response` looks for in a model's reply (conversation_manager.py): the
    camera request `{"camera": ?"(\d)"}` and the search request `{"Online search": "([^"]+)"}`, each
    found by `re.search`, i.e. at the leftmost position where it matches. */
module Directives {
  import opened Wrappers
  import opened Text
  import opened SystemPrompts

  // ---------------------------------------------------------------- camera directive

  const CAMERA_KEY := "{\"camera\":"

  /** The text of a camera directive for digit `d`, with or without the one optional space. */
  function CameraDirective(d: char, spaced: bool): (w: string)
    ensures |w| == if spaced then 15 else 14
  {
    CAMERA_KEY + (if spaced then " " else "") + "\"" + [d] + "\"}"
  }

  /** The digit of a camera directive that starts exactly at position `i` of `s`. */
  function CameraDigitAt(s: string, i: nat): (r: Option<char>)
    ensures r.Some? ==> IsDigit(r.value)
    ensures r.Some? ==>
              OccursAt(s, CameraDirective(r.value, true), i) || OccursAt(s, CameraDirective(r.value, false), i)
    ensures r.None? ==> forall d: char, spaced: bool | IsDigit(d) ::
                          !OccursAt(s, CameraDirective(d, spaced), i)
  {
    var j := if i + 10 < |s| && s[i + 10] == ' ' then i + 11 else i + 10;
    if OccursAt(s, CAMERA_KEY, i) && j + 4 <= |s| && s[j] == '"' && IsDigit(s[j + 1]) && s[j + 2] == '"' && s[j + 3] == '}' then
      DirectiveFound(s, i, j);
      Some(s[j + 1])
    else
      assert forall d: char, spaced: bool | IsDigit(d) :: !OccursAt(s, CameraDirective(d, spaced), i) by {
        forall d: char, spaced: bool | IsDigit(d) ensures !OccursAt(s, CameraDirective(d, spaced), i) {
          DirectiveShape(s, i, d, spaced);
        }
      }
      None
  }

  /** What an occurrence of a camera directive at `i` says about the characters of `s`. */
  lemma DirectiveShape(s: string, i: nat, d: char, spaced: bool)
    ensures OccursAt(s, CameraDirective(d, spaced), i) ==>
              var j := i + (if spaced then 11 else 10);
              && OccursAt(s, CAMERA_KEY, i) && j + 4 <= |s|
              && s[j] == '"' && s[j + 1] == d && s[j + 2] == '"' && s[j + 3] == '}'
              && i + 10 < |s| && (s[i + 10] == ' ' <==> spaced)
  {
    var w := CameraDirective(d, spaced);
    if OccursAt(s, w, i) {
      var n := if spaced then 11 else 10;
      var t := s[i..i + |w|];
      assert t == w;
      assert w[10] == if spaced then ' ' else '"';
      assert w[n] == '"' && w[n + 1] == d && w[n + 2] == '"' && w[n + 3] == '}';
      assert w[..10] == CAMERA_KEY;
      SliceOfSlice(s, i, i + |w|, 0, 10);
      assert s[i + 10] == t[10];
      assert s[i + n] == t[n] && s[i + n + 1] == t[n + 1] && s[i + n + 2] == t[n + 2] && s[i + n + 3] == t[n + 3];
    }
  }

  /** The characters the scan checks at `i` and `j` spell a camera directive. */
  lemma DirectiveFound(s: string, i: nat, j: nat)
    requires j == if i + 10 < |s| && s[i + 10] == ' ' then i + 11 else i + 10
    requires OccursAt(s, CAMERA_KEY, i) && j + 4 <= |s|
    requires s[j] == '"' && s[j + 2] == '"' && s[j + 3] == '}'
    ensures OccursAt(s, CameraDirective(s[j + 1], j == i + 11), i)
  {
    var w := CameraDirective(s[j + 1], j == i + 11);
    var spacer := if j == i + 11 then " " else "";
    assert w == CAMERA_KEY + spacer + "\"" + [s[j + 1]] + "\"}";
    var t := s[i..j + 4];
    assert |t| == |w|;
    forall k | 0 <= k < |w| ensures t[k] == w[k] {
      if k < 10 {
        assert t[k] == s[i..i + 10][k];
      }
    }
  }

  /** Conversely, a camera directive written out at `i` is found there, with its digit. */
  lemma CameraDigitAtComplete(s: string, i: nat, d: char, spaced: bool)
    requires IsDigit(d) && OccursAt(s, CameraDirective(d, spaced), i)
    ensures CameraDigitAt(s, i) == Some(d)
  {
    DirectiveShape(s, i, d, spaced);
  }

  /** An occurrence of `w + x` is an occurrence of `w`. */
  lemma OccursAtPrefix(s: string, w: string, x: string, i: nat)
    ensures OccursAt(s, w + x, i) ==> OccursAt(s, w, i)
  {
    if OccursAt(s, w + x, i) {
      assert s[i..i + |w|] == s[i..i + |w + x|][..|w|];
    }
  }

  /** The leftmost camera directive in `s[i..]`, as its position and digit. */
  function FirstCamera(s: string, i: nat): (r: Option<(nat, char)>)
    requires i <= |s|
    ensures r.Some? ==> i <= r.value.0 <= |s| && CameraDigitAt(s, r.value.0) == Some(r.value.1)
    ensures r.Some? ==> forall k | i <= k < r.value.0 :: CameraDigitAt(s, k).None?
    ensures r.None? ==> forall k | i <= k <= |s| :: CameraDigitAt(s, k).None?
    decreases |s| - i
  {
    if CameraDigitAt(s, i).Some? then Some((i, CameraDigitAt(s, i).value))
    else if i == |s| then None
    else FirstCamera(s, i + 1)
  }

  /** `re.search(camera_pattern, response).group(1)`, when there is a match. */
  function FindCamera(s: string): (r: Option<char>)
    ensures r.Some? ==> exists k | 0 <= k <= |s| :: CameraDigitAt(s, k) == Some(r.value)
    ensures r.None? ==> forall k | 0 <= k <= |s| :: CameraDigitAt(s, k).None?
  {
    var m := FirstCamera(s, 0);
    if m.Some? then Some(m.value.1) else None
  }

  // ---------------------------------------------------------------- search directive

  const SEARCH_KEY := "{\"Online search\": \""

  predicate QuoteFree(q: string)
  {
    forall k | 0 <= k < |q| :: q[k] != '"'
  }

  /** The end of the longest run of non-quote characters of `s` that starts at `j`. */
  function QuoteFreeEnd(s: string, j: nat): (e: nat)
    requires j <= |s|
    ensures j <= e <= |s|
    ensures QuoteFree(s[j..e])
    ensures e < |s| ==> s[e] == '"'
    decreases |s| - j
  {
    if j == |s| || s[j] == '"' then j
    else
      var e := QuoteFreeEnd(s, j + 1);
      assert s[j..e] == [s[j]] + s[j + 1..e];
      e
  }

  /** The query of a search directive that starts exactly at position `i` of `s`: the `[^"]+`
      group extends to the first quote, which must be followed by `}`. */
  function SearchQueryAt(s: string, i: nat): (r: Option<string>)
    ensures r.Some? ==> |r.value| > 0 && QuoteFree(r.value)
    ensures r.Some? ==> OccursAt(s, SEARCH_KEY + r.value + "\"}", i)
  {
    if !OccursAt(s, SEARCH_KEY, i) then None
    else
      var e := QuoteFreeEnd(s, i + 19);
      if e > i + 19 && OccursAt(s, "\"}", e) then
        var q := s[i + 19..e];
        assert s[i..e + 2] == s[i..i + 19] + q + s[e..e + 2];
        Some(q)
      else
        None
  }

  /** Conversely, a nonempty quote-free query written out as a search directive is recognised. */
  lemma {:induction false} SearchQueryAtComplete(s: string, i: nat, q: string)
    requires |q| > 0 && QuoteFree(q)
    requires OccursAt(s, SEARCH_KEY + q + "\"}", i)
    ensures SearchQueryAt(s, i) == Some(q)
  {
    var w := SEARCH_KEY + q + "\"}";
    var n := |w|;
    assert |SEARCH_KEY| == 19 && n == 19 + |q| + 2;
    assert s[i..i + n] == w;
    PiecesOf(SEARCH_KEY, q, "\"}");
    SliceOfSlice(s, i, i + n, 0, 19);
    SliceOfSlice(s, i, i + n, 19, 19 + |q|);
    SliceOfSlice(s, i, i + n, 19 + |q|, n);
    assert OccursAt(s, SEARCH_KEY, i);
    assert s[i + 19 + |q|..i + n] == "\"}";
    assert s[i + 19 + |q|] == '"';
    QuoteFreeRunEnds(s, i + 19, q);
    assert OccursAt(s, "\"}", i + 19 + |q|);
  }

  /** A quote-free stretch followed by a quote is exactly the longest quote-free run. */
  lemma {:induction false} QuoteFreeRunEnds(s: string, j: nat, q: string)
    requires j + |q| < |s| && s[j..j + |q|] == q && QuoteFree(q) && s[j + |q|] == '"'
    ensures QuoteFreeEnd(s, j) == j + |q|
    decreases |q|
  {
    if |q| > 0 {
      assert s[j] == q[0];
      assert s[j + 1..j + 1 + |q[1..]|] == q[1..];
      QuoteFreeRunEnds(s, j + 1, q[1..]);
    }
  }

  /** The leftmost search directive in `s[i..]`, as its position and query. */
  function FirstSearch(s: string, i: nat): (r: Option<(nat, string)>)
    requires i <= |s|
    ensures r.Some? ==> i <= r.value.0 <= |s| && SearchQueryAt(s, r.value.0) == Some(r.value.1)
    ensures r.Some? ==> forall k | i <= k < r.value.0 :: SearchQueryAt(s, k).None?
    ensures r.None? ==> forall k | i <= k <= |s| :: SearchQueryAt(s, k).None?
    decreases |s| - i
  {
    if SearchQueryAt(s, i).Some? then Some((i, SearchQueryAt(s, i).value))
    else if i == |s| then None
    else FirstSearch(s, i + 1)
  }

  /** `re.search(search_pattern, response).group(1)`, when there is a match. */
  function FindSearch(s: string): (r: Option<string>)
    ensures r.Some? ==> exists k | 0 <= k <= |s| :: SearchQueryAt(s, k) == Some(r.value)
    ensures r.None? ==> forall k | 0 <= k <= |s| :: SearchQueryAt(s, k).None?
  {
    var m := FirstSearch(s, 0);
    if m.Some? then Some(m.value.1) else None
  }

  // ---------------------------------------------------------------- priority

  /** What a reply asks for: the camera directive is looked at first, the search directive only
      when there is none. */
  datatype Directive = CameraRequest(digit: char) | SearchRequest(query: string) | NoDirective

  function Scan(response: string): (d: Directive)
    ensures d.CameraRequest? <==> FindCamera(response).Some?
    ensures d.SearchRequest? <==> FindCamera(response).None? && FindSearch(response).Some?
    ensures d.CameraRequest? ==> d.digit == FindCamera(response).value
    ensures d.SearchRequest? ==> d.query == FindSearch(response).value
  {
    match FindCamera(response)
    case Some(digit) => CameraRequest(digit)
    case None =>
      match FindSearch(response)
      case Some(q) => SearchRequest(q)
      case None => NoDirective
  }

  /** A reply holding a camera directive anywhere is a camera request, whatever else it holds. */
  lemma {:induction false} CameraDirectiveWins(s: string, i: nat, d: char, spaced: bool)
    requires IsDigit(d) && OccursAt(s, CameraDirective(d, spaced), i)
    ensures Scan(s).CameraRequest?
  {
    assert CameraDigitAt(s, i).Some?;
  }

  /** A reply with a search directive and no camera directive is a search request. */
  lemma {:induction false} SearchDirectiveRecognised(s: string, i: nat, q: string)
    requires |q| > 0 && QuoteFree(q) && OccursAt(s, SEARCH_KEY + q + "\"}", i)
    requires forall k | 0 <= k <= |s| :: CameraDigitAt(s, k).None?
    ensures Scan(s).SearchRequest?
  {
    SearchQueryAtComplete(s, i, q);
  }

  // ---------------------------------------------------------------- the prompt's own examples

  /** In anything that starts with `a + c + b + x + o`, `c` sits at `|a|` and `x` after `b`. */
  lemma ExamplesAt(p: string, a: string, c: string, b: string, x: string, o: string)
    requires a + c + b + x + o <= p
    ensures OccursAt(p, c, |a|)
    ensures OccursAt(p, x, |a| + |c| + |b|)
  {
    var full := a + c + b + x + o;
    assert full == a + c + (b + x + o);
    OccursInMiddle(a, c, b + x + o);
    assert full == (a + c + b) + x + o;
    OccursInMiddle(a + c + b, x, o);
    assert p[0..|full|] == full;
    SliceOfSlice(p, 0, |full|, |a|, |a| + |c|);
    SliceOfSlice(p, 0, |full|, |a| + |c| + |b|, |a| + |c| + |b| + |x|);
  }

  /** Where the two examples sit in anything that starts with the base prompt. */
  lemma ExamplesInPrompt(p: string)
    requires BASE_PROMPT <= p
    ensures OccursAt(p, CAMERA_EXAMPLE, |BASE_INTRO|)
    ensures OccursAt(p, SEARCH_EXAMPLE, |BASE_INTRO| + |CAMERA_EXAMPLE| + |BASE_BETWEEN|)
  {
    ExamplesAt(p, BASE_INTRO, CAMERA_EXAMPLE, BASE_BETWEEN, SEARCH_EXAMPLE, BASE_OUTRO);
  }

  lemma ExampleShapes()
    ensures CAMERA_EXAMPLE == CameraDirective('1', true)
    ensures SEARCH_EXAMPLE == SEARCH_KEY + "your search query" + "\"}"
    ensures QuoteFree("your search query")
  {
  }

  /** The camera example the base prompt teaches is a directive for camera 1 ... */
  lemma {:induction false} PromptCameraExample(p: string)
    requires BASE_PROMPT <= p
    ensures CameraDigitAt(p, |BASE_INTRO|) == Some('1')
    ensures Scan(p).CameraRequest?
  {
    ExamplesInPrompt(p);
    ExampleShapes();
    CameraDigitAtComplete(p, |BASE_INTRO|, '1', true);
    CameraDirectiveWins(p, |BASE_INTRO|, '1', true);
  }

  /** ... and its search example, at position `i`, is a search directive for "your search query". */
  lemma {:induction false} PromptSearchExample(p: string, i: nat)
    requires BASE_PROMPT <= p
    requires i == |BASE_INTRO| + |CAMERA_EXAMPLE| + |BASE_BETWEEN|
    ensures SearchQueryAt(p, i) == Some("your search query")
  {
    ExamplesInPrompt(p);
    SearchExampleRecognised(p, i);
  }

  lemma SearchExampleRecognised(p: string, i: nat)
    requires OccursAt(p, SEARCH_EXAMPLE, i)
    ensures SearchQueryAt(p, i) == Some("your search query")
  {
    ExampleShapes();
    SearchQueryAtComplete(p, i, "your search query");
  }

  /** Whatever the model name, the prompt `get_prompt` returns teaches both directives: it is
      itself a camera request, and its search example is read as a search for "your search query". */
  lemma {:induction false} GetPromptTeachesDirectives(modelName: string, i: nat)
    requires i == |BASE_INTRO| + |CAMERA_EXAMPLE| + |BASE_BETWEEN|
    ensures Scan(GetPrompt(modelName)).CameraRequest?
    ensures SearchQueryAt(GetPrompt(modelName), i) == Some("your search query")
  {
    PromptCameraExample(GetPrompt(modelName));
    PromptSearchExample(GetPrompt(modelName), i);
  }
}
