/** Event extraction from a model reply (oop.py, `extract_event`).

    The model is asked for a JSON object; the reply's text is an oracle input.
    The JSON span is located with the pattern `\{.*\}` under DOTALL, which is
    greedy and not brace-balanced: it runs from the first `{` of the reply to
    its last `}`. `json.loads` is an abstract oracle from the span to the
    parsed object (None when it raises or the value is not an object). */
module Extraction {
  import opened Common

  /** The `duration` key of a parsed event: missing, a number of minutes, or
      a value `timedelta(minutes=...)` rejects (JSON `null` among them). */
  datatype Duration = Absent | Minutes(m: int) | Malformed

  /** A string-valued key of the parsed object: absent, present with JSON
      `null` (Python `None`), or present with a string. `obj['k']` raises
      KeyError only on `Missing`; `obj.get('k')` reads both `Missing` and
      `Null` as `None`. */
  datatype Field = Missing | Null | Str(s: string)

  /** Python truthiness of `obj.get('k')`: a non-empty string. */
  predicate FieldTruthy(f: Field)
  {
    f.Str? && f.s != ""
  }

  /** `str()` of a present value, as an f-string shows it: `None` for null. */
  function Shown(f: Field): (r: string)
    requires !f.Missing?
    ensures f.Null? ==> r == "None"
    ensures f.Str? ==> r == f.s
  {
    if f.Null? then "None" else f.s
  }

  /** `str(obj.get('k', d))`: the default for a missing key, `None` for
      null, the string itself otherwise. */
  function ShownOr(f: Field, d: string): (r: string)
    ensures f.Missing? ==> r == d
    ensures !f.Missing? ==> r == Shown(f)
  {
    if f.Missing? then d else Shown(f)
  }

  /** A present value as the Python object passed on: `None` for null. */
  function Passed(f: Field): (r: Option<string>)
    requires !f.Missing?
    ensures r.None? <==> f.Null?
    ensures r.Some? ==> r.value == f.s
  {
    if f.Null? then None else Some(f.s)
  }

  /** A parsed JSON object, as far as the bot looks at it: the truthiness of
      `found`, and the `title`, `date`, `time` and `duration` keys. */
  datatype EventData = EventData(
    found: bool,
    title: Field,
    date: Field,
    time: Field,
    duration: Duration)

  /** Outcome of one call to the text model: the first content block's text,
      or any exception (network, API error, empty content). */
  datatype AiOutcome = AiReply(text: string) | AiFailure

  /** `event.get('date') and event.get('time')`: both truthy. */
  predicate HasDateTime(e: EventData)
  {
    FieldTruthy(e.date) && FieldTruthy(e.time)
  }

  /** Position of the first occurrence of `c` in `s`. */
  function FirstIndexOf(s: string, c: char): (r: Option<nat>)
    ensures r.Some? ==> r.value < |s| && s[r.value] == c
    ensures r.Some? ==> forall k :: 0 <= k < r.value ==> s[k] != c
    ensures r.None? ==> forall k :: 0 <= k < |s| ==> s[k] != c
  {
    if |s| == 0 then None
    else if s[0] == c then Some(0)
    else match FirstIndexOf(s[1..], c)
      case None => None
      case Some(i) => Some(i + 1)
  }

  /** Position of the last occurrence of `c` in `s`. */
  function LastIndexOf(s: string, c: char): (r: Option<nat>)
    ensures r.Some? ==> r.value < |s| && s[r.value] == c
    ensures r.Some? ==> forall k :: r.value < k < |s| ==> s[k] != c
    ensures r.None? ==> forall k :: 0 <= k < |s| ==> s[k] != c
  {
    if |s| == 0 then None
    else if s[|s| - 1] == c then Some(|s| - 1)
    else LastIndexOf(s[..|s| - 1], c)
  }

  /** What `re.search(r'\{.*\}', txt, re.DOTALL)` selects: from the first `{`
      to the last `}`, or nothing when no `}` follows the first `{`. */
  function FindSpan(txt: string): (r: Option<string>)
    ensures r.Some? ==> 2 <= |r.value| && r.value[0] == '{' && r.value[|r.value| - 1] == '}'
  {
    match (FirstIndexOf(txt, '{'), LastIndexOf(txt, '}'))
    case (Some(i), Some(j)) => if i < j then Some(txt[i..j + 1]) else None
    case _ => None
  }

  /** `txt[i..j]` matches `\{.*\}` with DOTALL: it opens with `{` and closes
      with a later `}`; anything may stand between. */
  ghost predicate MatchesAt(txt: string, i: int, j: int)
  {
    0 <= i && i + 2 <= j <= |txt| && txt[i] == '{' && txt[j - 1] == '}'
  }

  /** The match `re.search` reports: the leftmost start at which the pattern
      matches, and at that start the longest match (the star is greedy). */
  ghost predicate IsSearchResult(txt: string, i: int, j: int)
  {
    && MatchesAt(txt, i, j)
    && (forall i', j' :: MatchesAt(txt, i', j') ==> i <= i')
    && (forall j' :: MatchesAt(txt, i, j') ==> j' <= j)
  }

  /** The span finder agrees with the regular-expression search: it finds
      nothing exactly when the pattern matches nowhere, and otherwise it
      returns the leftmost-greedy match. */
  lemma FindSpanIsSearch(txt: string)
    ensures FindSpan(txt).None? <==> (forall i, j :: !MatchesAt(txt, i, j))
    ensures FindSpan(txt).Some? ==>
      exists i, j :: IsSearchResult(txt, i, j) && FindSpan(txt).value == txt[i..j]
  {
    var first, last := FirstIndexOf(txt, '{'), LastIndexOf(txt, '}');
    if first.Some? && last.Some? && first.value < last.value {
      var i, j := first.value, last.value + 1;
      assert MatchesAt(txt, i, j);
      assert IsSearchResult(txt, i, j);
    }
  }

  /** The search result is unique, so the span finder is the only answer. */
  lemma SearchResultUnique(txt: string, i: int, j: int, i': int, j': int)
    requires IsSearchResult(txt, i, j) && IsSearchResult(txt, i', j')
    ensures i == i' && j == j'
  {
  }

  /** `extract_event` after the model call: the JSON span of the reply is
      parsed, and the object is kept only when its `found` is truthy. Every
      failure (model error, no span, parse error) becomes None. */
  function ExtractEvent(reply: AiOutcome, parse: string -> Option<EventData>): (r: Option<EventData>)
    ensures r.Some? ==> r.value.found
    ensures r.Some? <==>
      && reply.AiReply?
      && FindSpan(reply.text).Some?
      && parse(FindSpan(reply.text).value).Some?
      && parse(FindSpan(reply.text).value).value.found
    ensures r.Some? ==> r == parse(FindSpan(reply.text).value)
  {
    match reply
    case AiFailure => None
    case AiReply(txt) =>
      match FindSpan(txt)
      case None => None
      case Some(span) =>
        match parse(span)
        case None => None
        case Some(data) => if data.found then Some(data) else None
  }
}
