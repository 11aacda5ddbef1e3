/**
 * `ModelClient._parse_plan_response`: the generative model's raw text is
 * trimmed, un-fenced and cut down to its outermost braces before it is parsed;
 * the parsed document must then contain `days`. The JSON parser itself
 * (`json.loads`) is the parameter `parse`.
 */
module PlanResponse {
  import opened Wrappers
  import opened Text
  import opened Json

  const OpeningFence := "```json"
  const ClosingFence := "```"

  datatype ParseError =
    | InvalidJson     // json.loads raised
    | MissingDays     // the document has no "days"
    | NotSearchable   // `"days" in parsed` raised: the document is a number, a boolean or null

  /** Removes a leading "```json" when present, and only then. */
  function DropOpeningFence(s: string): (r: string)
    ensures StartsWith(s, OpeningFence) ==> s == OpeningFence + r
    ensures !StartsWith(s, OpeningFence) ==> r == s
  {
    if StartsWith(s, OpeningFence) then s[|OpeningFence|..] else s
  }

  /** Removes a trailing "```" when present, and only then. */
  function DropClosingFence(s: string): (r: string)
    ensures EndsWith(s, ClosingFence) ==> s == r + ClosingFence
    ensures !EndsWith(s, ClosingFence) ==> r == s
  {
    if EndsWith(s, ClosingFence) then s[..|s| - |ClosingFence|] else s
  }

  /**
   * `response[start:end]` with `start = find("{")` and `end = rfind("}") + 1`,
   * applied only when `start != -1 and end > start`: the text is cut to run
   * from its first '{' to its last '}' exactly when some '}' follows the first
   * '{', and is otherwise left as it is.
   */
  function SliceObject(s: string): (r: string)
    ensures '{' in s && RFind(s, '}') > Find(s, '{') ==>
      && r == s[Find(s, '{')..RFind(s, '}') + 1]
      && |r| >= 2 && r[0] == '{' && r[|r| - 1] == '}'
      && '{' !in s[..Find(s, '{')] && '}' !in s[RFind(s, '}') + 1..]
    ensures !('{' in s && RFind(s, '}') > Find(s, '{')) ==> r == s
  {
    var start := Find(s, '{');
    var end := RFind(s, '}') + 1;
    if start != -1 && end > start then s[start..end] else s
  }

  /** The text handed to `json.loads`. */
  function CleanResponse(raw: string): string {
    SliceObject(DropClosingFence(DropOpeningFence(Strip(raw))))
  }

  /** Python's `needle in s` for strings. */
  predicate Contains(s: string, needle: string) {
    StartsWith(s, needle) || (|s| > 0 && Contains(s[1..], needle))
  }

  /**
   * `"days" in parsed`: a key of an object, an element of a list, a substring
   * of a string; `None` when Python raises a TypeError.
   */
  function HasDays(parsed: Json): (r: Option<bool>)
    ensures r.None? <==> !(parsed.JObj? || parsed.JArr? || parsed.JStr?)
    ensures parsed.JObj? ==> r == Some("days" in parsed.fields)
  {
    match parsed
    case JObj(m) => Some("days" in m)
    case JArr(items) => Some(JStr("days") in items)
    case JStr(s) => Some(Contains(s, "days"))
    case _ => None
  }

  /** `_parse_plan_response`: the parsed document, or why it was rejected. */
  function ParsePlanResponse(raw: string, parse: string -> Option<Json>): (r: Result<Json, ParseError>)
    ensures parse(CleanResponse(raw)).None? <==> r == Err(InvalidJson)
    ensures r.Ok? ==> parse(CleanResponse(raw)) == Some(r.value) && HasDays(r.value) == Some(true)
    ensures r.Ok? && r.value.JObj? ==> "days" in r.value.fields
    ensures (match parse(CleanResponse(raw))
             case Some(JObj(m)) => "days" !in m
             case _ => false) ==> r == Err(MissingDays)
    ensures parse(CleanResponse(raw)).Some? ==>
      var v := parse(CleanResponse(raw)).value;
      && (r == Ok(v) <==> HasDays(v) == Some(true))
      && (r == Err(MissingDays) <==> HasDays(v) == Some(false))
      && (r == Err(NotSearchable) <==> HasDays(v).None?)
  {
    match parse(CleanResponse(raw))
    case None => Err(InvalidJson)
    case Some(parsed) =>
      match HasDays(parsed)
      case None => Err(NotSearchable)
      case Some(false) => Err(MissingDays)
      case Some(true) => Ok(parsed)
  }

  lemma {:induction false} StripLeadingStopsAt(x: string, y: string)
    requires y != [] && !IsSpace(y[0])
    ensures StripLeading(x + y) == StripLeading(x) + y
  {
    if x != [] {
      assert (x + y)[1..] == x[1..] + y;
      StripLeadingStopsAt(x[1..], y);
    } else {
      assert x + y == y;
    }
  }

  lemma {:induction false} StripTrailingStopsAt(x: string, y: string)
    requires x != [] && !IsSpace(x[|x| - 1])
    ensures StripTrailing(x + y) == x + StripTrailing(y)
  {
    if y != [] {
      assert (x + y)[..|x + y| - 1] == x + y[..|y| - 1];
      StripTrailingStopsAt(x, y[..|y| - 1]);
    } else {
      assert x + y == x;
    }
  }

  /** Stripping whitespace around a text with non-blank ends only shortens what surrounds it. */
  lemma StripAround(pre: string, body: string, post: string)
    requires body != [] && !IsSpace(body[0]) && !IsSpace(body[|body| - 1])
    ensures Strip(pre + body + post) == StripLeading(pre) + body + StripTrailing(post)
  {
    var pre1 := StripLeading(pre);
    calc {
      StripLeading(pre + body + post);
      { assert pre + body + post == pre + (body + post); }
      StripLeading(pre + (body + post));
      { StripLeadingStopsAt(pre, body + post); }
      pre1 + (body + post);
      { assert pre1 + (body + post) == (pre1 + body) + post; }
      (pre1 + body) + post;
    }
    assert (pre1 + body)[|pre1 + body| - 1] == body[|body| - 1];
    StripTrailingStopsAt(pre1 + body, post);
  }

  /** An opening fence in front of an object text lies wholly in what precedes the object. */
  lemma OpeningFenceBefore(pre: string, body: string, post: string)
    requires body != [] && body[0] == '{'
    ensures StartsWith(pre + body + post, OpeningFence) ==>
      |pre| >= |OpeningFence| && DropOpeningFence(pre + body + post) == pre[|OpeningFence|..] + body + post
    ensures !StartsWith(pre + body + post, OpeningFence) ==>
      DropOpeningFence(pre + body + post) == pre + body + post
  {
    var s := pre + body + post;
    if StartsWith(s, OpeningFence) {
      assert s[|pre|] == '{';
      assert forall i :: 0 <= i < |OpeningFence| ==> s[i] == OpeningFence[i] != '{';
      assert s[|OpeningFence|..] == pre[|OpeningFence|..] + body + post;
    }
  }

  /** A closing fence after an object text lies wholly in what follows the object. */
  lemma ClosingFenceAfter(pre: string, body: string, post: string)
    requires body != [] && body[|body| - 1] == '}'
    ensures EndsWith(pre + body + post, ClosingFence) ==>
      |post| >= |ClosingFence| && DropClosingFence(pre + body + post) == pre + body + post[..|post| - |ClosingFence|]
    ensures !EndsWith(pre + body + post, ClosingFence) ==>
      DropClosingFence(pre + body + post) == pre + body + post
  {
    var s := pre + body + post;
    if EndsWith(s, ClosingFence) {
      assert s[|pre| + |body| - 1] == '}';
      assert forall i :: |s| - |ClosingFence| <= i < |s| ==> s[i] == ClosingFence[i - (|s| - |ClosingFence|)] != '}';
      assert s[..|s| - |ClosingFence|] == pre + body + post[..|post| - |ClosingFence|];
    }
  }

  /** The slice keeps exactly an object text with no '{' before it and no '}' after it. */
  lemma SliceAround(pre: string, body: string, post: string)
    requires |body| >= 2 && body[0] == '{' && body[|body| - 1] == '}'
    requires '{' !in pre && '}' !in post
    ensures SliceObject(pre + body + post) == body
  {
    var s := pre + body + post;
    var a := |pre|;
    var b := |pre| + |body| - 1;
    assert s[a] == '{' && s[..a] == pre;
    assert Find(s, '{') == a;
    assert s[b] == '}' && s[b + 1..] == post;
    assert RFind(s, '}') == b;
    assert s[a..b + 1] == body;
  }

  /**
   * Leading prose, code fences and trailing prose are all removed: an object
   * text `body` surrounded by text with no '{' before it and no '}' after it
   * is exactly what reaches the parser.
   */
  lemma CleanFindsEmbeddedObject(pre: string, body: string, post: string)
    requires |body| >= 2 && body[0] == '{' && body[|body| - 1] == '}'
    requires '{' !in pre && '}' !in post
    ensures CleanResponse(pre + body + post) == body
  {
    StripAround(pre, body, post);
    var pre1, post1 := StripLeading(pre), StripTrailing(post);
    assert '{' !in pre1 by { assert pre1 == pre[|pre| - |pre1|..]; }
    assert '}' !in post1 by { assert post1 == post[..|post1|]; }
    OpeningFenceBefore(pre1, body, post1);
    var pre2 := if StartsWith(pre1 + body + post1, OpeningFence) then pre1[|OpeningFence|..] else pre1;
    assert '{' !in pre2;
    ClosingFenceAfter(pre2, body, post1);
    var post2 := if EndsWith(pre2 + body + post1, ClosingFence) then post1[..|post1| - |ClosingFence|] else post1;
    assert '}' !in post2;
    SliceAround(pre2, body, post2);
  }
}
