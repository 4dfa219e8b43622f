/** What both copies of the oracle glue (netlify/functions/gemini.ts and
    services/geminiService.ts) do with a raw reply: cut the JSON object out
    of the text, parse it with a repair attempt for a truncated story, and
    pick the first inline image of an image reply. `JSON.parse` itself is a
    parameter: any partial function from text to a value. */
module OracleReply {
  import opened Wrappers
  import opened Text

  // ------------------------------------------------- the object in a text

  /** Some '{' comes before some '}' in `text`. */
  predicate HasBracePair(text: string) {
    exists i, j :: 0 <= i < j < |text| && text[i] == '{' && text[j] == '}'
  }

  lemma AbsentBefore(s: string, c: char, n: nat)
    requires n <= |s| && c !in s[..n]
    ensures forall i :: 0 <= i < n ==> s[i] != c
  {
    forall i | 0 <= i < n ensures s[i] != c { assert s[..n][i] == s[i]; }
  }

  lemma AbsentAfter(s: string, c: char, n: nat)
    requires n <= |s| && c !in s[n..]
    ensures forall i :: n <= i < |s| ==> s[i] != c
  {
    forall i | n <= i < |s| ensures s[i] != c { assert s[n..][i - n] == s[i]; }
  }

  /** `text.match(/\{[\s\S]*\}/)` as the pair of positions of the matched
      braces: the leftmost '{' and, the star being greedy, the rightmost '}'
      after it. There is a match exactly when some '{' precedes some '}'. */
  function BraceMatch(text: string): (m: Option<(nat, nat)>)
    ensures m.None? <==> !HasBracePair(text)
    ensures m.Some? ==>
      var (i, j) := m.value;
      i < j < |text| && text[i] == '{' && text[j] == '}' &&
      '{' !in text[..i] && '}' !in text[j + 1..]
  {
    var f := FirstIndexOf(text, '{');
    var l := LastIndexOf(text, '}');
    if f.Some? && l.Some? && f.value < l.value then
      assert text[f.value] == '{' && text[l.value] == '}';
      Some((f.value, l.value))
    else
      assert !HasBracePair(text) by {
        if f.Some? { AbsentBefore(text, '{', f.value); }
        if l.Some? { AbsentAfter(text, '}', l.value + 1); }
      }
      None
  }

  /** `jsonMatch ? jsonMatch[0] : text` (gemini.ts:117-118,
      geminiService.ts:106-107). */
  function Extract(text: string): (r: string)
    ensures !HasBracePair(text) ==> r == text
    ensures HasBracePair(text) ==> (2 <= |r| <= |text| && r[0] == '{' && r[|r| - 1] == '}' &&
      exists i :: 0 <= i <= |text| - |r| && r == text[i..i + |r|] && '{' !in text[..i] && '}' !in text[i + |r|..])
  {
    match BraceMatch(text)
    case None => text
    case Some((i, j)) => text[i..j + 1]
  }

  /** Extracting from an extract changes nothing. */
  lemma ExtractIdempotent(text: string)
    ensures Extract(Extract(text)) == Extract(text)
  {
    var r := Extract(text);
    if HasBracePair(text) {
      assert HasBracePair(r) by { assert r[0] == '{' && r[|r| - 1] == '}'; }
      var (i, j) := BraceMatch(r).value;
      AbsentBefore(r, '{', i);
      AbsentAfter(r, '}', j + 1);
      assert r[0..|r|] == r;
    }
  }

  /** A single JSON object wrapped in text without braces (a Markdown code
      fence, a sentence of preamble) is cut out exactly. */
  lemma ExtractUnwraps(before: string, obj: string, after: string)
    requires 2 <= |obj| && obj[0] == '{' && obj[|obj| - 1] == '}'
    requires '{' !in before && '}' !in after
    ensures Extract(before + obj + after) == obj
  {
    var text := before + obj + after;
    assert text[|before|] == '{' && text[|before| + |obj| - 1] == '}';
    var (i, j) := BraceMatch(text).value;
    AbsentBefore(text, '{', i);
    AbsentAfter(text, '}', j + 1);
    assert forall k :: 0 <= k < |before| ==> text[k] == before[k];
    assert forall k :: 0 <= k < |after| ==> text[|before| + |obj| + k] == after[k];
    assert i == |before| && j == |before| + |obj| - 1;
    assert text[i..j + 1] == obj;
  }

  // ----------------------------------------------------- the parse ladder

  /** The marker whose presence makes a failed reply worth repairing. */
  const StoryKey: string := "\"story\":"
  /** What the repair appends: close the string, close the object. */
  const Closer: string := "\"}"
  const InvalidJsonMessage: string := "O Mestre se engasgou com os próprios pergaminhos (JSON Inválido)"

  /** `safeParseJson(text)`: parse the extract; if that fails and the text
      mentions a story, parse the ORIGINAL text with `"}` appended; else
      throw the fixed message (gemini.ts:115-127, geminiService.ts:104-116). */
  function SafeParseJson<J>(text: string, parse: string -> Option<J>): (r: Result<J>)
    ensures r.Ok? <==> parse(Extract(text)).Some? || (Contains(text, StoryKey) && parse(text + Closer).Some?)
    ensures parse(Extract(text)).Some? ==> r == Ok(parse(Extract(text)).value)
    ensures r.Ok? && parse(Extract(text)).None? ==> r == Ok(parse(text + Closer).value)
    ensures r.Err? ==> r.message == InvalidJsonMessage
  {
    match parse(Extract(text))
    case Some(v) => Ok(v)
    case None =>
      if Contains(text, StoryKey) then
        match parse(text + Closer)
        case Some(v) => Ok(v)
        case None => Err(InvalidJsonMessage)
      else Err(InvalidJsonMessage)
  }

  /** A fenced reply parses to what the object inside it parses to. */
  lemma FencedReplyParses<J>(before: string, obj: string, after: string, parse: string -> Option<J>)
    requires 2 <= |obj| && obj[0] == '{' && obj[|obj| - 1] == '}'
    requires '{' !in before && '}' !in after
    requires parse(obj).Some?
    ensures SafeParseJson(before + obj + after, parse) == Ok(parse(obj).value)
  {
    ExtractUnwraps(before, obj, after);
  }

  /** A reply cut off before any '}' has no brace pair, so the first parse
      and the repair both see the whole text, any prose before the object
      included: the result is the text's own parse, else the parse of the
      text with the closer appended, else the error. */
  lemma TruncatedReplyRepair<J>(text: string, parse: string -> Option<J>)
    requires '}' !in text && Contains(text, StoryKey)
    ensures Extract(text) == text
    ensures parse(text).Some? ==> SafeParseJson(text, parse) == Ok(parse(text).value)
    ensures parse(text).None? ==>
      SafeParseJson(text, parse) == if parse(text + Closer).Some? then Ok(parse(text + Closer).value) else Err(InvalidJsonMessage)
  {
    AbsentAfter(text, '}', 0);
  }

  /** An example of the repair working on the whole text, not on the
      extract: in a reply cut off after an inner object, the extract ends at
      that object's '}' while the repaired candidate keeps the truncated
      tail. */
  lemma RepairUsesWholeText()
    ensures var text := "{\"story\": \"a {b} c";
      Extract(text) == "{\"story\": \"a {b}" &&
      text + Closer == "{\"story\": \"a {b} c\"}"
  {
    var text := "{\"story\": \"a {b} c";
    assert text[0] == '{' && text[15] == '}';
    var (i, j) := BraceMatch(text).value;
    AbsentBefore(text, '{', i);
    AbsentAfter(text, '}', j + 1);
    assert i == 0 && j == 15;
  }

  // ------------------------------------------------- validator instruction

  /** The two validator system instructions: the strict one for the
      tactical mode, the lenient one otherwise. */
  datatype Instruction = Strict | Lenient

  // ------------------------------------------------------- image replies

  /** One part of an image reply: inline base64 data, or something else
      (text). */
  datatype Part = Part(inlineData: Option<string>)

  /** The data of the first part that has inline data, if any
      (gemini.ts:272-277, geminiService.ts:172-174). */
  function FirstInline(parts: seq<Part>): (r: Option<string>)
    ensures r.None? <==> forall k :: 0 <= k < |parts| ==> parts[k].inlineData.None?
    ensures r.Some? ==> exists i :: 0 <= i < |parts| && parts[i].inlineData == r &&
                          (forall k :: 0 <= k < i ==> parts[k].inlineData.None?)
  {
    if |parts| == 0 then None
    else if parts[0].inlineData.Some? then parts[0].inlineData
    else
      var rest := FirstInline(parts[1..]);
      if rest.Some? then
        var i :| 0 <= i < |parts[1..]| && parts[1..][i].inlineData == rest &&
          forall k :: 0 <= k < i ==> parts[1..][k].inlineData.None?;
        assert parts[i + 1].inlineData == rest;
        rest
      else
        assert forall k :: 1 <= k < |parts| ==> parts[k].inlineData.None? by {
          forall k | 1 <= k < |parts| ensures parts[k].inlineData.None? {
            assert parts[k] == parts[1..][k - 1];
          }
        }
        rest
  }
}
