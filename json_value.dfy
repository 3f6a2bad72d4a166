/**
 * JSON values as the services see them after `json.loads`, the Python
 * operations they apply to those values, and the brace-slice extractor with
 * its cleanup retry that the paraphrase, reviewer and chairman services share
 * (`_parse_response`, `_clean_and_parse`; the stage-1 parser uses the same
 * slice without the retry).
 */
module JsonValue {
  import opened Wrappers
  import opened PyText

  datatype Json =
    | JNull
    | JBool(b: bool)
    | JNum(n: real)
    | JStr(s: string)
    | JArr(items: seq<Json>)
    | JObj(fields: map<string, Json>)

  /** A decoded JSON object: Python's `dict` with string keys. */
  type JsonObject = map<string, Json>

  /**
   * What the model takes from Python's runtime as given: `json.loads` on a
   * text that begins with `{` (which yields a dict or raises, here `None`),
   * and `float` on a string (a number or `ValueError`, here `None`).
   */
  datatype Runtime = Runtime(loads: string -> Option<JsonObject>, parseFloat: string -> Option<real>)

  /** `bool(x)` */
  predicate Truthy(j: Json) {
    match j
    case JNull => false
    case JBool(b) => b
    case JNum(n) => n != 0.0
    case JStr(s) => s != []
    case JArr(xs) => xs != []
    case JObj(m) => m != map[]
  }

  /** `d.get(key, default)` */
  function Get(o: JsonObject, key: string, default: Json): Json {
    if key in o then o[key] else default
  }

  /** `hash(x)` succeeds: lists and dicts are unhashable. */
  predicate Hashable(j: Json) {
    !j.JArr? && !j.JObj?
  }

  /** `type(x).__name__` */
  function JsonTypeName(j: Json): string {
    match j
    case JNull => "NoneType"
    case JBool(_) => "bool"
    case JNum(_) => "float"
    case JStr(_) => "str"
    case JArr(_) => "list"
    case JObj(_) => "dict"
  }

  /** `float(x)`; `None` stands for the `TypeError` or `ValueError` it raises. */
  function ToFloat(j: Json, rt: Runtime): Option<real> {
    match j
    case JNum(n) => Some(n)
    case JBool(b) => Some(if b then 1.0 else 0.0)
    case JStr(s) => rt.parseFloat(s)
    case _ => None
  }

  /** `len(x)` of a list or a string. */
  function Len(j: Json): nat {
    match j
    case JArr(xs) => |xs|
    case JStr(s) => |s|
    case _ => 0
  }

  /** `x[:n]`: lists and strings slice; anything else raises (`None`). */
  function SliceTo(j: Json, n: nat): (r: Option<Json>)
    ensures r.Some? <==> j.JArr? || j.JStr?
    ensures r.Some? ==> Len(r.value) <= n && Len(r.value) <= Len(j)
    ensures r.Some? && Len(j) <= n ==> r.value == j
    ensures r.Some? ==> Len(r.value) == if Len(j) <= n then Len(j) else n
    ensures r.Some? && j.JArr? ==> r.value.JArr? && r.value.items == j.items[..Len(r.value)]
    ensures r.Some? && j.JStr? ==> r.value.JStr? && r.value.s == j.s[..Len(r.value)]
  {
    match j
    case JArr(xs) => Some(JArr(Take(xs, n)))
    case JStr(s) => Some(JStr(Take(s, n)))
    case _ => None
  }

  /** Some `{` comes before some `}`. */
  predicate OpenBeforeClose(s: string) {
    s != [] && (if s[0] == '{' then '}' in s[1..] else OpenBeforeClose(s[1..]))
  }

  /** `slice` is the part of `t` that starts at its first `{` and ends at its last `}`. */
  predicate FirstOpenToLastClose(t: string, slice: string) {
    exists a, b :: 0 <= a < b <= |t| && slice == t[a..b] && '{' !in t[..a] && '}' !in t[b..]
  }

  /**
   * The slice from the first `{` to the last `}` of a text, when the last
   * `}` comes after the first `{`.
   */
  function SliceBetweenBraces(t: string): (r: Option<string>)
    ensures r.Some? <==> OpenBeforeClose(t)
    ensures r.Some? ==> |r.value| >= 2 && r.value[0] == '{' && r.value[|r.value| - 1] == '}'
    ensures r.Some? ==> FirstOpenToLastClose(t, r.value)
  {
    var start := Find(t, '{');
    var end := RFind(t, '}') + 1;
    FindPairIffOpenBeforeClose(t);
    if start >= 0 && end > start then
      var slice := t[start..end];
      assert slice[0] == t[start] && slice[|slice| - 1] == t[end - 1];
      Some(slice)
    else None
  }

  /** The brace slice of the stripped response. */
  function BraceSlice(response: string): (r: Option<string>)
    ensures r.Some? <==> OpenBeforeClose(Strip(response))
    ensures r.Some? ==> |r.value| >= 2 && r.value[0] == '{' && r.value[|r.value| - 1] == '}'
    ensures r.Some? ==> FirstOpenToLastClose(Strip(response), r.value)
  {
    SliceBetweenBraces(Strip(response))
  }

  /** `_parse_response`: `None` stands for the `JSONDecodeError` it raises. */
  function ParseResponse(response: string, rt: Runtime): Option<JsonObject> {
    match BraceSlice(response)
    case None => None
    case Some(text) => rt.loads(text)
  }

  /** The markdown fences and prefixes `_clean_and_parse` removes, in order. */
  const CleanupPatterns: seq<string> := ["```json", "```", "Output:", "Result:"]

  /** The replacements of `_clean_and_parse`, applied in order. */
  function Clean(response: string): string {
    RemoveAll(RemoveAll(RemoveAll(RemoveAll(response, "```json"), "```"), "Output:"), "Result:")
  }

  /** `_clean_and_parse` */
  function CleanAndParse(response: string, rt: Runtime): Option<JsonObject> {
    ParseResponse(Clean(response), rt)
  }

  /** `try: _parse_response(r) except JSONDecodeError: _clean_and_parse(r)` */
  function ParseWithRetry(response: string, rt: Runtime): (r: Option<JsonObject>)
    ensures r.Some? ==> BraceSlice(response).Some?
  {
    var first := ParseResponse(response, rt);
    if first.Some? then first
    else
      CleanupKeepsBracePair(response);
      CleanAndParse(response, rt)
  }

  /**
   * The list a service reads from the model's reply under `key`: present
   * when the reply parses (directly or after cleanup) and `key` holds a list.
   */
  function ReplyList(reply: string, key: string, rt: Runtime): (r: Option<seq<Json>>)
    ensures r.Some? ==> BraceSlice(reply).Some?
  {
    match ParseWithRetry(reply, rt)
    case None => None
    case Some(parsed) => if key in parsed && parsed[key].JArr? then Some(parsed[key].items) else None
  }

  /**
   * The cleanup never creates or destroys a `{` ... `}` pair: the retry can
   * only help when `json.loads` rejected the slice, never when the response
   * had no braces to slice.
   */
  lemma CleanupKeepsBracePair(response: string)
    ensures BraceSlice(Clean(response)).Some? <==> BraceSlice(response).Some?
  {
    var c := Clean(response);
    BracesClean(response);
    BracesStrip(c);
    BracesStrip(response);
    OpenBeforeCloseBraces(Strip(c));
    OpenBeforeCloseBraces(Strip(response));
  }

  lemma BracesClean(response: string)
    ensures Braces(Clean(response)) == Braces(response)
  {
    var r1 := RemoveAll(response, "```json");
    var r2 := RemoveAll(r1, "```");
    var r3 := RemoveAll(r2, "Output:");
    BracesRemoveAll(response, "```json");
    BracesRemoveAll(r1, "```");
    BracesRemoveAll(r2, "Output:");
    BracesRemoveAll(r3, "Result:");
  }

  /** The characters `{` and `}` of a text, in order. */
  function Braces(s: string): string {
    if s == [] then []
    else (if s[0] == '{' || s[0] == '}' then [s[0]] else []) + Braces(s[1..])
  }

  lemma {:induction false} FindPairIffOpenBeforeClose(s: string)
    ensures (Find(s, '{') >= 0 && RFind(s, '}') + 1 > Find(s, '{')) <==> OpenBeforeClose(s)
  {
    if s != [] && s[0] != '{' {
      FindPairIffOpenBeforeClose(s[1..]);
      assert s == [s[0]] + s[1..];
    }
  }

  lemma {:induction false} BracesAppend(a: string, b: string)
    ensures Braces(a + b) == Braces(a) + Braces(b)
  {
    if a == [] {
      assert a + b == b;
    } else {
      var head := if a[0] == '{' || a[0] == '}' then [a[0]] else [];
      assert (a + b)[0] == a[0];
      assert (a + b)[1..] == a[1..] + b;
      BracesAppend(a[1..], b);
      assert Braces(a + b) == head + (Braces(a[1..]) + Braces(b));
      assert head + (Braces(a[1..]) + Braces(b)) == (head + Braces(a[1..])) + Braces(b);
    }
  }

  lemma {:induction false} BracesAllSpace(s: string)
    requires AllSpace(s)
    ensures Braces(s) == []
  {
    if s != [] {
      assert IsSpace(s[0]);
      BracesAllSpace(s[1..]);
    }
  }

  lemma BracesStrip(s: string)
    ensures Braces(Strip(s)) == Braces(s)
  {
    StripBounds(s);
    var a, b := Leading(s), Leading(s) + |Strip(s)|;
    var front, middle, back := s[..a], s[a..b], s[b..];
    assert s == (front + middle) + back;
    BracesAppend(front + middle, back);
    BracesAppend(front, middle);
    BracesAllSpace(front);
    BracesAllSpace(back);
    assert Braces(s) == ([] + Braces(middle)) + [];
    assert ([] + Braces(middle)) + [] == Braces(middle);
  }

  lemma {:induction false} BracesRemoveAll(s: string, pat: string)
    requires pat != [] && '{' !in pat && '}' !in pat
    ensures Braces(RemoveAll(s, pat)) == Braces(s)
    decreases |s|
  {
    if |s| >= |pat| {
      if s[..|pat|] == pat {
        assert s == pat + s[|pat|..];
        BracesAppend(pat, s[|pat|..]);
        BracesNone(pat);
        BracesRemoveAll(s[|pat|..], pat);
      } else {
        BracesAppend([s[0]], RemoveAll(s[1..], pat));
        BracesRemoveAll(s[1..], pat);
      }
    }
  }

  lemma {:induction false} BracesNone(s: string)
    requires '{' !in s && '}' !in s
    ensures Braces(s) == []
  {
    if s != [] {
      BracesNone(s[1..]);
    }
  }

  lemma {:induction false} CloseInBraces(s: string)
    ensures '}' in s <==> '}' in Braces(s)
  {
    if s != [] {
      CloseInBraces(s[1..]);
      assert s == [s[0]] + s[1..];
    }
  }

  lemma {:induction false} OpenBeforeCloseBraces(s: string)
    ensures OpenBeforeClose(s) <==> OpenBeforeClose(Braces(s))
  {
    if s != [] {
      OpenBeforeCloseBraces(s[1..]);
      CloseInBraces(s[1..]);
      var b := Braces(s);
      if s[0] == '{' || s[0] == '}' {
        assert b == [s[0]] + Braces(s[1..]);
        assert b[0] == s[0] && b[1..] == Braces(s[1..]);
      } else {
        assert b == Braces(s[1..]);
      }
    }
  }
}
