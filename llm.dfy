/**
 * The language-model reply and what the library functions do with it:
 * keep the text blocks, join them, optionally strip citation tags, take the
 * span matched by `/\{[\s\S]*\}/`, parse it, and stamp the capture time.
 */
module Llm {
  import opened Wrappers
  import opened Text
  import opened Js

  /** The two instructions sent to the model. */
  datatype Prompts = Prompts(system: string, user: string)

  /** One content block of the model's reply: its `type`, and its `text` if it has one. */
  datatype Block = Block(kind: string, text: Option<string>)

  /** `content.filter(b => b.type === 'text').map(b => 'text' in b ? b.text : '')`. */
  function BlockTexts(blocks: seq<Block>): seq<string>
    decreases |blocks|
  {
    if blocks == [] then []
    else (if blocks[0].kind == "text" then [blocks[0].text.GetOr("")] else []) + BlockTexts(blocks[1..])
  }

  /** Filtering keeps the order: the texts of a concatenation are the concatenated texts. */
  lemma {:induction false} BlockTextsAppend(a: seq<Block>, b: seq<Block>)
    ensures BlockTexts(a + b) == BlockTexts(a) + BlockTexts(b)
    decreases |a|
  {
    if a == [] {
      assert a + b == b;
    } else {
      assert (a + b)[0] == a[0];
      assert (a + b)[1..] == a[1..] + b;
      BlockTextsAppend(a[1..], b);
      var head := if a[0].kind == "text" then [a[0].text.GetOr("")] else [];
      assert BlockTexts(a + b) == head + BlockTexts(a[1..] + b);
      assert BlockTexts(a) == head + BlockTexts(a[1..]);
    }
  }

  /** The text of a reply: its text blocks, in order, joined with newlines. */
  function ReplyText(blocks: seq<Block>): string
  {
    Join(BlockTexts(blocks), "\n")
  }

  /** A block that is not a text block contributes nothing, wherever it stands. */
  lemma ReplyTextIgnoresOtherBlocks(a: seq<Block>, x: Block, b: seq<Block>)
    requires x.kind != "text"
    ensures ReplyText(a + [x] + b) == ReplyText(a + b)
  {
    BlockTextsAppend(a + [x], b);
    BlockTextsAppend(a, [x]);
    BlockTextsAppend(a, b);
    assert [x][1..] == [];
    assert BlockTexts([x]) == [];
    assert BlockTexts(a + [x]) == BlockTexts(a);
  }

  /** Two replies that both hold text are joined by exactly one newline. */
  lemma ReplyTextConcat(a: seq<Block>, b: seq<Block>)
    requires BlockTexts(a) != [] && BlockTexts(b) != []
    ensures ReplyText(a + b) == ReplyText(a) + "\n" + ReplyText(b)
  {
    BlockTextsAppend(a, b);
    JoinAppend(BlockTexts(a), BlockTexts(b), "\n");
  }

  /** A reply without text blocks has the empty text. */
  lemma {:induction false} ReplyTextWithoutTextBlocks(blocks: seq<Block>)
    requires forall i :: 0 <= i < |blocks| ==> blocks[i].kind != "text"
    ensures ReplyText(blocks) == ""
    decreases |blocks|
  {
    if blocks != [] {
      ReplyTextWithoutTextBlocks(blocks[1..]);
    }
  }

  // ---------------------------------------------------------------------------
  // Citation tags: `text.replace(/<cite[^>]*>|<\/cite>/g, '')`

  /** Length of the match of `<cite[^>]*>` at the start of s, if there is one. */
  function CiteOpenAt(s: string): (m: Option<nat>)
    ensures m.Some? ==> 6 <= m.value <= |s|
  {
    if |s| >= 5 && s[..5] == "<cite" then
      match IndexFrom(s, '>', 5)
      case Some(k) => Some(k + 1)
      case None => None
    else None
  }

  /** s[..m] is a word of the regular expression `<cite[^>]*>`. */
  ghost predicate MatchesCiteOpen(s: string, m: nat)
  {
    6 <= m <= |s| && s[..5] == "<cite" && s[m - 1] == '>' && forall k :: 5 <= k < m - 1 ==> s[k] != '>'
  }

  /** CiteOpenAt finds exactly the match of `<cite[^>]*>`, which is unique when it exists. */
  lemma CiteOpenAtIsRegexMatch(s: string, m: nat)
    ensures CiteOpenAt(s) == Some(m) <==> MatchesCiteOpen(s, m)
  {
    if MatchesCiteOpen(s, m) {
      var r := IndexFrom(s, '>', 5);
      assert s[m - 1] == '>';
      assert r.Some? && r.value == m - 1;
    }
  }

  /** Length of the citation tag (`<cite…>` or `</cite>`) at the start of s, if any. */
  function CiteTagAt(s: string): (m: Option<nat>)
    ensures m.Some? ==> 1 <= m.value <= |s|
  {
    if CiteOpenAt(s).Some? then CiteOpenAt(s)
    else if |s| >= 7 && s[..7] == "</cite>" then Some(7)
    else None
  }

  /** The global replace: scan left to right, deleting every citation tag met. */
  function StripCites(s: string): (r: string)
    ensures |r| <= |s|
    decreases |s|
  {
    if s == [] then ""
    else match CiteTagAt(s)
      case Some(m) => StripCites(s[m..])
      case None => [s[0]] + StripCites(s[1..])
  }

  /** Stripping only deletes characters. */
  lemma {:induction false} StripCitesOnlyDeletes(s: string)
    ensures Subsequence(StripCites(s), s)
    decreases |s|
  {
    if s == [] {
    } else {
      match CiteTagAt(s)
      case Some(m) =>
        StripCitesOnlyDeletes(s[m..]);
        SubsequenceDropPrefix(StripCites(s[m..]), s[..m], s[m..]);
        assert s[..m] + s[m..] == s;
      case None =>
        StripCitesOnlyDeletes(s[1..]);
        SubsequenceCons(s[0], StripCites(s[1..]), s[1..]);
        assert [s[0]] + s[1..] == s;
    }
  }

  lemma ContainsTail(s: string, t: string)
    requires s != [] && Contains(s[1..], t)
    ensures Contains(s, t)
  {
    var i :| 0 <= i <= |s[1..]| - |t| && OccursAt(s[1..], t, i);
    assert s[i + 1..i + 1 + |t|] == s[1..][i..i + |t|];
    assert OccursAt(s, t, i + 1);
  }

  /** A text with no `<cite` and no `</cite>` in it comes out unchanged. */
  lemma {:induction false} StripCitesWithoutTags(s: string)
    requires !Contains(s, "<cite") && !Contains(s, "</cite>")
    ensures StripCites(s) == s
    decreases |s|
  {
    if s != [] {
      if |s| >= 5 && s[..5] == "<cite" {
        assert OccursAt(s, "<cite", 0);
      }
      if |s| >= 7 && s[..7] == "</cite>" {
        assert OccursAt(s, "</cite>", 0);
      }
      assert CiteTagAt(s).None?;
      if Contains(s[1..], "<cite") {
        ContainsTail(s, "<cite");
      }
      if Contains(s[1..], "</cite>") {
        ContainsTail(s, "</cite>");
      }
      StripCitesWithoutTags(s[1..]);
      assert [s[0]] + s[1..] == s;
    }
  }

  // ---------------------------------------------------------------------------
  // The brace span: `text.match(/\{[\s\S]*\}/)`

  /** s[i..j] is a word of the regular expression `\{[\s\S]*\}`. */
  ghost predicate BraceWord(s: string, i: int, j: int)
  {
    0 <= i && i + 2 <= j <= |s| && s[i] == '{' && s[j - 1] == '}'
  }

  /**
   * The match JavaScript reports: the leftmost start at which the pattern
   * matches, and from there the longest match (the star is greedy).
   */
  ghost predicate IsRegexMatch(s: string, i: int, j: int)
  {
    && BraceWord(s, i, j)
    && (forall i', j' :: 0 <= i' < i && BraceWord(s, i', j') ==> false)
    && (forall j' :: j < j' <= |s| ==> !BraceWord(s, i, j'))
  }

  /**
   * The matched span: from the first `{` to the last `}`, when the last `}`
   * comes after the first `{`. Two objects in one text give one span covering both.
   */
  function BraceSpan(s: string): (r: Option<string>)
    ensures r.Some? <==> exists i, j :: 0 <= i < j < |s| && s[i] == '{' && s[j] == '}'
    ensures r.Some? ==> exists p, q ::
      && 0 <= p < q < |s| && r.value == s[p..q + 1]
      && s[p] == '{' && (forall k :: 0 <= k < p ==> s[k] != '{')
      && s[q] == '}' && (forall k :: q < k < |s| ==> s[k] != '}')
  {
    match IndexFrom(s, '{', 0)
    case None => None
    case Some(p) =>
      match LastIndex(s, '}')
      case None => None
      case Some(q) => if p < q then Some(s[p..q + 1]) else None
  }

  /** BraceSpan is what JavaScript's `match` returns for the pattern: leftmost, then longest. */
  lemma BraceSpanIsRegexMatch(s: string)
    ensures BraceSpan(s).None? <==> forall i, j :: !BraceWord(s, i, j)
    ensures BraceSpan(s).Some? ==> exists i, j :: IsRegexMatch(s, i, j) && BraceSpan(s).value == s[i..j]
  {
    var first := IndexFrom(s, '{', 0);
    var last := LastIndex(s, '}');
    if BraceSpan(s).Some? {
      var p, q := first.value, last.value;
      assert BraceWord(s, p, q + 1);
      assert IsRegexMatch(s, p, q + 1);
    }
  }

  /** The span is fixed by the first `{` and the last `}`. */
  lemma BraceSpanAt(s: string, p: nat, q: nat)
    requires p < q < |s| && s[p] == '{' && s[q] == '}'
    requires forall k :: 0 <= k < p ==> s[k] != '{'
    requires forall k :: q < k < |s| ==> s[k] != '}'
    ensures BraceSpan(s) == Some(s[p..q + 1])
  {
    var first, last := IndexFrom(s, '{', 0), LastIndex(s, '}');
    assert first == Some(p);
    assert last == Some(q);
  }

  /** Text with no `{` before an object and no `}` after it gives that object as the span. */
  lemma SpanBetween(x: string, m: string, z: string)
    requires forall k :: 0 <= k < |x| ==> x[k] != '{'
    requires |m| >= 2 && m[0] == '{' && m[|m| - 1] == '}'
    requires forall k :: 0 <= k < |z| ==> z[k] != '}'
    ensures BraceSpan(x + m + z) == Some(m)
  {
    var s := x + m + z;
    var p, q := |x|, |x| + |m| - 1;
    assert s[p] == m[0] && s[q] == m[|m| - 1];
    assert forall k :: 0 <= k < p ==> s[k] == x[k];
    assert forall k :: q < k < |s| ==> s[k] == z[k - q - 1];
    BraceSpanAt(s, p, q);
    assert s[p..q + 1] == m;
  }

  /** A text that is one object is its own span. */
  lemma BareObjectIsItsSpan(t: string)
    requires |t| >= 2 && t[0] == '{' && t[|t| - 1] == '}'
    ensures BraceSpan(t) == Some(t)
  {
    SpanBetween([], t, []);
    assert [] + t + [] == t;
  }

  /**
   * Two objects in one reply give one span, from the first object's `{` to
   * the second's `}`, with the text between them inside it.
   */
  lemma TwoObjectsGiveOneSpan(x: string, a: string, y: string, b: string, z: string)
    requires forall k :: 0 <= k < |x| ==> x[k] != '{'
    requires |a| >= 2 && a[0] == '{' && a[|a| - 1] == '}'
    requires |b| >= 2 && b[0] == '{' && b[|b| - 1] == '}'
    requires forall k :: 0 <= k < |z| ==> z[k] != '}'
    ensures BraceSpan(x + a + y + b + z) == Some(a + y + b)
  {
    var m := a + y + b;
    assert m[0] == a[0] && m[|m| - 1] == b[|b| - 1];
    assert x + a + y + b + z == x + m + z;
    SpanBetween(x, m, z);
  }

  /** A text that does not start with `<` keeps its first character. */
  lemma StripCitesKeepsPlainHead(s: string)
    requires s != [] && s[0] != '<'
    ensures StripCites(s) == [s[0]] + StripCites(s[1..])
  {
    assert |s| >= 5 ==> s[..5][0] != '<';
    assert |s| >= 7 ==> s[..7][0] != '<';
    assert CiteTagAt(s).None?;
  }

  /** Text without a `<` passes through stripping untouched. */
  lemma {:induction false} StripCitesSkipsPlainPrefix(t: string, u: string)
    requires forall k :: 0 <= k < |t| ==> t[k] != '<'
    ensures StripCites(t + u) == t + StripCites(u)
    decreases |t|
  {
    if t == [] {
      assert t + u == u;
    } else {
      var s, tail := t + u, t[1..];
      assert s[0] == t[0];
      StripCitesKeepsPlainHead(s);
      assert s[1..] == tail + u;
      assert forall k :: 0 <= k < |tail| ==> tail[k] == t[k + 1];
      StripCitesSkipsPlainPrefix(tail, u);
      var x := StripCites(u);
      assert StripCites(s) == [t[0]] + (tail + x);
      assert [t[0]] + (tail + x) == ([t[0]] + tail) + x;
      assert [t[0]] + tail == t;
    }
  }

  /** A closing tag alone strips to nothing. */
  lemma ClosingTagStrips()
    ensures StripCites("</cite>") == ""
  {
    var close := "</cite>";
    assert close[..5] != "<cite" by {
      assert close[..5][1] == '/';
    }
    assert CiteTagAt(close) == Some(7);
    assert close[7..] == "";
  }

  /** An opening tag at the front is deleted and stripping goes on after it. */
  lemma StripCitesDropsOpenTag(open: string, rest: string)
    requires MatchesCiteOpen(open, |open|)
    ensures StripCites(open + rest) == StripCites(rest)
  {
    var s := open + rest;
    assert s[..5] == open[..5];
    assert MatchesCiteOpen(s, |open|);
    CiteOpenAtIsRegexMatch(s, |open|);
    assert s[|open|..] == rest;
  }

  /**
   * Citation tags wrapped around a JSON object are removed and the object is
   * left whole: any opening tag, any text without `<`, and the closing tag.
   */
  lemma CitedObjectIsUnwrapped(open: string, obj: string)
    requires MatchesCiteOpen(open, |open|)
    requires forall k :: 0 <= k < |obj| ==> obj[k] != '<'
    ensures StripCites(open + obj + "</cite>") == obj
  {
    assert open + obj + "</cite>" == open + (obj + "</cite>");
    StripCitesDropsOpenTag(open, obj + "</cite>");
    StripCitesSkipsPlainPrefix(obj, "</cite>");
    ClosingTagStrips();
    assert obj + "" == obj;
  }

  // ---------------------------------------------------------------------------
  // Shaping the result

  const GeneratedAtKey := "generatedAt"

  /** `{ ...parsed, generatedAt: now }`. */
  function Stamp(parsed: map<string, Json>, now: string): (r: map<string, Json>)
    ensures r.Keys == parsed.Keys + {GeneratedAtKey}
    ensures r[GeneratedAtKey] == JStr(now)
    ensures forall k :: k in parsed && k != GeneratedAtKey ==> r[k] == parsed[k]
  {
    parsed[GeneratedAtKey := JStr(now)]
  }

  /** The message of the error thrown when the text holds no brace span. */
  const NoJsonMessage := "JSONレスポンスの解析に失敗しました"

  /** `JSON.parse`: an object, or the SyntaxError's message. */
  type JsonParser = string -> Result<map<string, Json>, string>

  /** Extract, parse and stamp; the thrown error when any step fails. */
  function ExtractJson(text: string, parse: JsonParser, now: string): (r: Result<map<string, Json>, JsError>)
    ensures BraceSpan(text).None? ==> r == Err(JsError(NoJsonMessage))
    ensures BraceSpan(text).Some? && parse(BraceSpan(text).value).Err? ==>
      r == Err(JsError(parse(BraceSpan(text).value).error))
    ensures r.Ok? ==>
      && BraceSpan(text).Some? && parse(BraceSpan(text).value).Ok?
      && r.value == Stamp(parse(BraceSpan(text).value).value, now)
  {
    match BraceSpan(text)
    case None => Err(JsError(NoJsonMessage))
    case Some(span) =>
      match parse(span)
      case Err(syntax) => Err(JsError(syntax))
      case Ok(parsed) => Ok(Stamp(parsed, now))
  }

  /** An empty text strips to itself and holds no span, so extraction throws. */
  lemma EmptyTextHasNoJson(parse: JsonParser, now: string)
    ensures ExtractJson(StripCites(""), parse, now) == Err(JsError(NoJsonMessage))
  {
    assert StripCites("") == "";
    assert BraceSpan("").None?;
  }

  /** A reply whose one text block is a cited object gives the parser the bare object. */
  lemma CitedBlockExtracts(open: string, obj: string, parse: JsonParser, now: string)
    requires MatchesCiteOpen(open, |open|)
    requires forall k :: 0 <= k < |obj| ==> obj[k] != '<'
    requires |obj| >= 2 && obj[0] == '{' && obj[|obj| - 1] == '}'
    requires parse(obj).Ok?
    ensures ExtractJson(StripCites(ReplyText([Block("text", Some(open + obj + "</cite>"))])), parse, now)
      == Ok(Stamp(parse(obj).value, now))
  {
    var blocks := [Block("text", Some(open + obj + "</cite>"))];
    assert BlockTexts(blocks) == [open + obj + "</cite>"];
    assert ReplyText(blocks) == open + obj + "</cite>";
    CitedObjectIsUnwrapped(open, obj);
    BareObjectIsItsSpan(obj);
  }
}
