/** `formatBotMessage` (chatbot.js): the rewrite applied to an assistant reply
    before it is inserted as HTML. URLs become links, line feeds become `<br>`. */
module BotFormat {
  import opened JsText

  const AnchorStart := "<a href=\""
  const AnchorMiddle := "\" target=\"_blank\" rel=\"noopener\">"
  const AnchorEnd := "</a>"
  const LineBreak := "<br>"

  /** The replacement `<a href="$1" target="_blank" rel="noopener">$1</a>`. */
  function Anchor(url: string): string {
    AnchorStart + url + AnchorMiddle + url + AnchorEnd
  }

  predicate StartsWith(s: string, prefix: string) {
    |prefix| <= |s| && s[..|prefix|] == prefix
  }

  /** Length of the run of non-whitespace characters that begins `s`. */
  function NonSpaceRun(s: string): (n: nat)
    ensures n <= |s|
    ensures NoWhiteSpace(s[..n])
    ensures n < |s| ==> IsWhiteSpace(s[n])
  {
    if s == [] || IsWhiteSpace(s[0]) then 0
    else
      var n := 1 + NonSpaceRun(s[1..]);
      assert s[..n] == [s[0]] + s[1..][..n - 1];
      n
  }

  /** `s` begins with `http://` or `https://` followed by a non-whitespace character. */
  predicate UrlStart(s: string) {
    || (StartsWith(s, Https) && |s| > |Https| && !IsWhiteSpace(s[|Https|]))
    || (StartsWith(s, Http) && |s| > |Http| && !IsWhiteSpace(s[|Http|]))
  }

  /** A whitespace-free run is non-empty exactly when the text opens with a
      non-whitespace character. */
  lemma RunStarts(t: string)
    ensures NonSpaceRun(t) > 0 <==> |t| > 0 && !IsWhiteSpace(t[0])
  {
    if NonSpaceRun(t) > 0 {
      assert t[..NonSpaceRun(t)][0] == t[0];
    }
  }

  /** Length of `scheme` followed by the longest whitespace-free run at the
      start of `s`; 0 when `s` does not open with `scheme` and at least one
      non-whitespace character after it. */
  function SchemeMatch(s: string, scheme: string): (n: nat)
    requires NoWhiteSpace(scheme)
    ensures n <= |s|
    ensures n > 0 <==> StartsWith(s, scheme) && |s| > |scheme| && !IsWhiteSpace(s[|scheme|])
    ensures n > 0 ==> NoWhiteSpace(s[..n]) && (n == |s| || IsWhiteSpace(s[n]))
  {
    if StartsWith(s, scheme) && NonSpaceRun(s[|scheme|..]) > 0 then
      var k := |scheme|;
      var n := k + NonSpaceRun(s[k..]);
      RunStarts(s[k..]);
      assert s[..n] == scheme + s[k..][..n - k];
      n
    else
      assert StartsWith(s, scheme) ==> |s| == |scheme| || IsWhiteSpace(s[|scheme|]) by {
        if StartsWith(s, scheme) {
          RunStarts(s[|scheme|..]);
        }
      }
      0
  }

  const Https := "https://"
  const Http := "http://"

  lemma SchemesHaveNoWhiteSpace()
    ensures NoWhiteSpace(Https) && NoWhiteSpace(Http)
  {
  }

  /** Length of the match of `https?:\/\/[^\s]+` anchored at the start of `s`
      (0 when there is none): the scheme and the longest whitespace-free run
      after it. */
  function UrlMatch(s: string): (n: nat)
    ensures n <= |s|
    ensures n > 0 <==> UrlStart(s)
    ensures n > 0 ==> NoWhiteSpace(s[..n]) && (n == |s| || IsWhiteSpace(s[n]))
  {
    SchemesHaveNoWhiteSpace();
    var n := SchemeMatch(s, Https);
    if n > 0 then n else SchemeMatch(s, Http)
  }

  /** The first, global replacement: every URL match, scanning left to right,
      becomes an anchor; everything else is copied. */
  function Linkify(s: string): (r: string)
    ensures |r| >= |s|
    decreases |s|
  {
    if s == [] then []
    else
      var n := UrlMatch(s);
      if n > 0 then Anchor(s[..n]) + Linkify(s[n..])
      else [s[0]] + Linkify(s[1..])
  }

  function NewlineCount(s: string): nat {
    if s == [] then 0 else (if s[0] == '\n' then 1 else 0) + NewlineCount(s[1..])
  }

  /** The second, global replacement: every line feed becomes `<br>`; the
      result holds no line feed and is three characters longer per line feed. */
  function BreakLines(s: string): (r: string)
    ensures '\n' !in r
    ensures |r| == |s| + 3 * NewlineCount(s)
  {
    if s == [] then []
    else BreakChar(s[0]) + BreakLines(s[1..])
  }

  /** One character after the line-break pass. */
  function BreakChar(c: char): (r: string)
    ensures '\n' !in r
    ensures |r| == if c == '\n' then |LineBreak| else 1
  {
    if c == '\n' then LineBreak else [c]
  }

  /** `formatBotMessage(text)`. */
  function FormatBotMessage(text: string): (r: string)
    ensures '\n' !in r
    ensures |r| >= |text|
  {
    BreakLines(Linkify(text))
  }

  /** No position of `s` starts a URL match. */
  predicate NoUrl(s: string) {
    forall i :: 0 <= i < |s| ==> !UrlStart(s[i..])
  }

  lemma {:induction false} LinkifyKeepsUrlFreeText(s: string)
    requires NoUrl(s)
    ensures Linkify(s) == s
    decreases |s|
  {
    if s != [] {
      assert !UrlStart(s[0..]);
      assert s[0..] == s;
      assert NoUrl(s[1..]) by {
        forall i | 0 <= i < |s[1..]| ensures !UrlStart(s[1..][i..]) {
          assert s[1..][i..] == s[i + 1..];
        }
      }
      LinkifyKeepsUrlFreeText(s[1..]);
    }
  }

  lemma {:induction false} LinkifyLengthensUrl(s: string, k: nat)
    requires k < |s| && UrlStart(s[k..])
    ensures |Linkify(s)| > |s|
    decreases |s|
  {
    if UrlMatch(s) == 0 {
      assert k != 0 by {
        assert s[0..] == s;
      }
      assert s[1..][k - 1..] == s[k..];
      LinkifyLengthensUrl(s[1..], k - 1);
    }
  }

  /** Reads the link rewrite's output back: each anchor becomes its URL again
      and every other character is copied. The URL after `<a href="` is the
      whitespace-free run that stops one character short of the space in the
      `" target=` that follows it. */
  function Unlinkify(r: string): string
    decreases |r|
  {
    if r == [] then []
    else if StartsWith(r, AnchorStart) then
      var run := NonSpaceRun(r[|AnchorStart|..]);
      if run > 0 && |Anchor(r[|AnchorStart|..|AnchorStart| + run - 1])| <= |r| then
        var url := r[|AnchorStart|..|AnchorStart| + run - 1];
        url + Unlinkify(r[|Anchor(url)|..])
      else
        [r[0]] + Unlinkify(r[1..])
    else
      [r[0]] + Unlinkify(r[1..])
  }

  lemma {:induction false} NonSpaceRunAppend(a: string, b: string)
    requires NoWhiteSpace(a)
    ensures NonSpaceRun(a + b) == |a| + NonSpaceRun(b)
  {
    if a == [] {
      assert a + b == b;
    } else {
      assert (a + b)[0] == a[0] && !IsWhiteSpace(a[0]);
      assert (a + b)[1..] == a[1..] + b;
      assert NoWhiteSpace(a[1..]) by {
        forall i | 0 <= i < |a[1..]| ensures !IsWhiteSpace(a[1..][i]) {
          assert a[1..][i] == a[i + 1];
        }
      }
      NonSpaceRunAppend(a[1..], b);
    }
  }

  /** The attribute text after an anchor's URL starts with `"` and a space,
      so the whitespace-free run there is one character long. */
  lemma MiddleRun(rest: string)
    ensures NonSpaceRun(AnchorMiddle + rest) == 1
  {
    var m := AnchorMiddle + rest;
    assert m[0] == '"' && m[1] == ' ';
    assert m[1..][0] == ' ';
  }

  /** One step of Unlinkify on text that opens with an anchor whose URL is
      `url`. */
  lemma UnlinkifyStep(t: string, url: string)
    requires StartsWith(t, AnchorStart) && |Anchor(url)| <= |t|
    requires NonSpaceRun(t[|AnchorStart|..]) == |url| + 1
    requires t[|AnchorStart|..|AnchorStart| + |url|] == url
    ensures Unlinkify(t) == url + Unlinkify(t[|Anchor(url)|..])
  {
  }

  lemma SplitAt(p: string, q: string)
    ensures StartsWith(p + q, p) && (p + q)[|p|..] == q
  {
    assert (p + q)[..|p|] == p;
  }

  /** The anchor's pieces followed by `rest`, grouped from the right, and
      `rest` found again after the anchor. */
  lemma Regroup(a: string, u: string, m: string, e: string, rest: string)
    ensures a + u + m + u + e + rest == a + (u + (m + (u + e + rest)))
    ensures (a + u + m + u + e + rest)[|a + u + m + u + e|..] == rest
  {
  }

  /** An anchor the rewrite made reads back as its URL. */
  lemma AnchorReadBack(url: string, rest: string)
    requires url != [] && NoWhiteSpace(url)
    ensures Unlinkify(Anchor(url) + rest) == url + Unlinkify(rest)
  {
    var tail := AnchorMiddle + (url + AnchorEnd + rest);
    var t := AnchorStart + (url + tail);
    Regroup(AnchorStart, url, AnchorMiddle, AnchorEnd, rest);
    SplitAt(AnchorStart, url + tail);
    NonSpaceRunAppend(url, tail);
    MiddleRun(url + AnchorEnd + rest);
    assert (url + tail)[..|url|] == url;
    UnlinkifyStep(t, url);
  }

  /** A character other than `<` opens no anchor and is copied. */
  lemma UnlinkifyCopies(c: char, t: string)
    requires c != '<'
    ensures Unlinkify([c] + t) == [c] + Unlinkify(t)
  {
    var r := [c] + t;
    assert r[0] == c && r[1..] == t;
    assert !StartsWith(r, AnchorStart) by {
      assert r[0] != AnchorStart[0];
    }
  }

  /** A URL match at the start of `s` becomes an anchor. */
  lemma LinkifyUrl(s: string)
    requires UrlMatch(s) > 0
    ensures Linkify(s) == Anchor(s[..UrlMatch(s)]) + Linkify(s[UrlMatch(s)..])
  {
  }

  /** A URL match read back, given that the text after it reads back. */
  lemma UrlReadBack(s: string, n: nat)
    requires 0 < n == UrlMatch(s)
    requires Unlinkify(Linkify(s[n..])) == s[n..]
    ensures Unlinkify(Linkify(s)) == s
  {
    assert s == s[..n] + s[n..];
    LinkifyUrl(s);
    AnchorReadBack(s[..n], Linkify(s[n..]));
  }

  /** A copied character read back, given that the text after it reads back. */
  lemma CharReadBack(s: string)
    requires s != [] && s[0] != '<' && UrlMatch(s) == 0
    requires Unlinkify(Linkify(s[1..])) == s[1..]
    ensures Unlinkify(Linkify(s)) == s
  {
    UnlinkifyCopies(s[0], Linkify(s[1..]));
  }

  /** The link rewrite loses nothing: on text without `<`, reading every
      anchor back as its URL gives the original text. */
  lemma {:induction false} UnlinkifyLinkify(s: string)
    requires '<' !in s
    ensures Unlinkify(Linkify(s)) == s
    decreases |s|
  {
    if s != [] {
      var n := UrlMatch(s);
      var next := if n > 0 then n else 1;
      NoMarkupInSlice(s, next, |s|);
      assert s[next..|s|] == s[next..];
      UnlinkifyLinkify(s[next..]);
      if n > 0 {
        UrlReadBack(s, n);
      } else {
        assert s[0] in s;
        CharReadBack(s);
      }
    }
  }

  lemma {:induction false} BreakLinesKeepsLines(s: string)
    requires '\n' !in s
    ensures BreakLines(s) == s
  {
    if s != [] {
      BreakLinesKeepsLines(s[1..]);
    }
  }

  /** A line feed becomes `<br>`: text without line feeds before it is kept,
      the line feed is replaced, and the rest is rewritten in turn. */
  lemma BreakLinesAtLineFeed(a: string, b: string)
    requires '\n' !in a
    ensures BreakLines(a + ['\n'] + b) == a + LineBreak + BreakLines(b)
  {
    assert a + ['\n'] + b == a + (['\n'] + b);
    BreakLinesAppend(a, ['\n'] + b);
    BreakLinesKeepsLines(a);
    assert (['\n'] + b)[1..] == b;
    assert BreakLines(['\n'] + b) == LineBreak + BreakLines(b);
  }

  /** A reply comes back unchanged exactly when it holds no URL and no line
      feed; whatever the reply, the result holds no line feed. */
  lemma FormatUnchangedIff(text: string)
    ensures '\n' !in FormatBotMessage(text)
    ensures FormatBotMessage(text) == text <==> NoUrl(text) && '\n' !in text
  {
    if NoUrl(text) && '\n' !in text {
      LinkifyKeepsUrlFreeText(text);
      BreakLinesKeepsLines(text);
    }
    if !NoUrl(text) {
      var k :| 0 <= k < |text| && UrlStart(text[k..]);
      LinkifyLengthensUrl(text, k);
    }
  }

  /** One character as it is written in HTML text: `&`, `<`, `>` and `"`
      become character references, any other stands for itself. */
  function EscapeChar(c: char): string {
    if c == '&' then "&amp;"
    else if c == '<' then "&lt;"
    else if c == '>' then "&gt;"
    else if c == '"' then "&quot;"
    else [c]
  }

  /** The text escaped character by character. */
  function EscapeHtml(s: string): (r: string)
    ensures '<' !in r && '>' !in r && '"' !in r
  {
    if s == [] then [] else EscapeChar(s[0]) + EscapeHtml(s[1..])
  }

  /** What a browser shows for HTML text holding those four character references. */
  function UnescapeHtml(s: string): string
    decreases |s|
  {
    if s == [] then []
    else if StartsWith(s, "&amp;") then "&" + UnescapeHtml(s[5..])
    else if StartsWith(s, "&lt;") then "<" + UnescapeHtml(s[4..])
    else if StartsWith(s, "&gt;") then ">" + UnescapeHtml(s[4..])
    else if StartsWith(s, "&quot;") then "\"" + UnescapeHtml(s[6..])
    else [s[0]] + UnescapeHtml(s[1..])
  }

  /** A character reference reads back as the character it stands for. */
  lemma UnescapeReference(c: char, rest: string)
    requires c in "&<>\""
    ensures UnescapeHtml(EscapeChar(c) + rest) == [c] + UnescapeHtml(rest)
  {
    var e := EscapeChar(c);
    SplitAt(e, rest);
    var s := e + rest;
    assert s[0] == '&';
    if c == '&' {
      assert UnescapeHtml(s) == "&" + UnescapeHtml(s[5..]);
    } else if c == '<' {
      assert s[1] == 'l' && !StartsWith(s, "&amp;");
      assert UnescapeHtml(s) == "<" + UnescapeHtml(s[4..]);
    } else if c == '>' {
      assert s[1] == 'g' && !StartsWith(s, "&amp;") && !StartsWith(s, "&lt;");
      assert UnescapeHtml(s) == ">" + UnescapeHtml(s[4..]);
    } else {
      assert s[1] == 'q' && !StartsWith(s, "&amp;") && !StartsWith(s, "&lt;") && !StartsWith(s, "&gt;");
      assert UnescapeHtml(s) == "\"" + UnescapeHtml(s[6..]);
    }
  }

  /** Any other character reads back as itself. */
  lemma UnescapePlain(c: char, rest: string)
    requires c !in "&<>\""
    ensures UnescapeHtml(EscapeChar(c) + rest) == [c] + UnescapeHtml(rest)
  {
    var s := [c] + rest;
    assert EscapeChar(c) == [c];
    assert s[0] == c && s[1..] == rest;
    forall p | p in ["&amp;", "&lt;", "&gt;", "&quot;"] ensures !StartsWith(s, p) { }
  }

  lemma UnescapeEscapedChar(c: char, rest: string)
    ensures UnescapeHtml(EscapeChar(c) + rest) == [c] + UnescapeHtml(rest)
  {
    if c in "&<>\"" {
      UnescapeReference(c, rest);
    } else {
      UnescapePlain(c, rest);
    }
  }

  /** Escaping loses nothing: the browser shows exactly the original text. */
  lemma {:induction false} EscapeRoundTrip(s: string)
    ensures UnescapeHtml(EscapeHtml(s)) == s
  {
    if s != [] {
      EscapeRoundTrip(s[1..]);
      UnescapeEscapedChar(s[0], EscapeHtml(s[1..]));
      assert s == [s[0]] + s[1..];
    }
  }

  /** The `<` at index `i` opens one of the tags the rewrite itself inserts. */
  predicate OwnTagAt(s: string, i: nat)
    requires i <= |s|
  {
    StartsWith(s[i..], AnchorStart) || StartsWith(s[i..], AnchorEnd) || StartsWith(s[i..], LineBreak)
  }

  /** Every `<` in `s` opens a tag of the rewrite's own. */
  predicate OnlyOwnTags(s: string) {
    forall i :: 0 <= i < |s| && s[i] == '<' ==> OwnTagAt(s, i)
  }

  lemma OwnTagsConcat(a: string, b: string)
    requires OnlyOwnTags(a) && OnlyOwnTags(b)
    ensures OnlyOwnTags(a + b)
  {
    var s := a + b;
    forall i | 0 <= i < |s| && s[i] == '<' ensures OwnTagAt(s, i) {
      if i < |a| {
        assert a[i] == '<';
        assert s[i..] == a[i..] + b;
      } else {
        assert b[i - |a|] == '<';
        assert s[i..] == b[i - |a|..];
      }
    }
  }

  lemma NoMarkupOwnTags(s: string)
    requires '<' !in s
    ensures OnlyOwnTags(s)
  {
    forall i | 0 <= i < |s| ensures s[i] != '<' {
      assert s[i] in s;
    }
  }

  lemma AnchorOwnTags(url: string)
    requires '<' !in url
    ensures OnlyOwnTags(Anchor(url))
  {
    assert OnlyOwnTags(AnchorStart) by {
      assert AnchorStart[0..] == AnchorStart;
    }
    NoMarkupOwnTags(url);
    NoMarkupOwnTags(AnchorMiddle);
    assert OnlyOwnTags(AnchorEnd) by {
      assert AnchorEnd[0..] == AnchorEnd;
    }
    OwnTagsConcat(AnchorStart, url);
    OwnTagsConcat(AnchorStart + url, AnchorMiddle);
    OwnTagsConcat(AnchorStart + url + AnchorMiddle, url);
    OwnTagsConcat(AnchorStart + url + AnchorMiddle + url, AnchorEnd);
  }

  lemma {:induction false} BreakLinesAppend(a: string, b: string)
    ensures BreakLines(a + b) == BreakLines(a) + BreakLines(b)
  {
    if a != [] {
      assert (a + b)[0] == a[0];
      assert (a + b)[1..] == a[1..] + b;
      BreakLinesAppend(a[1..], b);
      Associate(BreakChar(a[0]), BreakLines(a[1..]), BreakLines(b));
    } else {
      assert a + b == b;
    }
  }

  lemma Associate(p: string, q: string, r: string)
    ensures p + (q + r) == (p + q) + r
  {
  }

  lemma NoMarkupInSlice(s: string, i: nat, j: nat)
    requires '<' !in s && i <= j <= |s|
    ensures '<' !in s[i..j]
  {
    forall k | i <= k < j ensures s[k] != '<' {
      assert s[k] in s;
    }
  }

  /** A link, once through the line-break pass, holds only its own tags. */
  lemma LinkOwnTags(url: string)
    requires '<' !in url && NoWhiteSpace(url)
    ensures OnlyOwnTags(BreakLines(Anchor(url)))
  {
    assert '\n' !in url by {
      forall i | 0 <= i < |url| ensures url[i] != '\n' {
        assert !IsWhiteSpace(url[i]);
      }
    }
    assert '\n' !in Anchor(url);
    BreakLinesKeepsLines(Anchor(url));
    AnchorOwnTags(url);
  }

  /** A copied character, once through the line-break pass, holds only own tags. */
  lemma CharOwnTags(c: char)
    requires c != '<'
    ensures OnlyOwnTags(BreakLines([c]))
  {
    assert [c][1..] == [];
    if c == '\n' {
      assert BreakLines([c]) == LineBreak;
      assert LineBreak[0..] == LineBreak;
    } else {
      assert BreakLines([c]) == [c];
    }
  }

  /** Linkify and line breaks, applied to text without `<`, produce no markup
      but their own tags. */
  lemma {:induction false} RewriteAddsOnlyOwnTags(s: string)
    requires '<' !in s
    ensures OnlyOwnTags(BreakLines(Linkify(s)))
    decreases |s|
  {
    if s == [] {
      NoMarkupOwnTags([]);
    } else {
      var n := UrlMatch(s);
      var head := if n > 0 then Anchor(s[..n]) else [s[0]];
      var next := if n > 0 then n else 1;
      assert Linkify(s) == head + Linkify(s[next..]);
      NoMarkupInSlice(s, next, |s|);
      assert s[next..|s|] == s[next..];
      RewriteAddsOnlyOwnTags(s[next..]);
      BreakLinesAppend(head, Linkify(s[next..]));
      if n > 0 {
        NoMarkupInSlice(s, 0, n);
        assert s[0..n] == s[..n];
        LinkOwnTags(s[..n]);
      } else {
        assert s[0] in s;
        CharOwnTags(s[0]);
      }
      OwnTagsConcat(BreakLines(head), BreakLines(Linkify(s[next..])));
    }
  }

  /** As written, markup in a reply reaches the page as markup: `<b>` is
      returned unchanged, and its `<` opens no tag of the rewrite's own. */
  lemma ReplyMarkupPassesThrough()
    ensures FormatBotMessage("<b>") == "<b>"
    ensures !OnlyOwnTags(FormatBotMessage("<b>"))
  {
    var t := "<b>";
    assert NoUrl(t) by {
      forall i | 0 <= i < |t| ensures !UrlStart(t[i..]) {
        assert |t[i..]| <= 3;
      }
    }
    FormatUnchangedIff(t);
    assert t[0] == '<' && !OwnTagAt(t, 0);
  }

  /** Text holding none of the four characters that escaping rewrites. */
  predicate PlainText(s: string) {
    '&' !in s && '<' !in s && '>' !in s && '"' !in s
  }

  lemma {:induction false} EscapeKeepsPlainText(s: string)
    requires PlainText(s)
    ensures EscapeHtml(s) == s
  {
    if s != [] {
      assert s[0] in s;
      assert PlainText(s[1..]) by {
        forall c | c in s[1..] ensures c in s { }
      }
      EscapeKeepsPlainText(s[1..]);
    }
  }

  /** `formatBotMessage` as its own comment describes it: the reply is escaped
      first, then linked and broken into lines, so the only markup in the
      result is the rewrite's own tags; text without the escaped characters is
      formatted exactly as before. */
  function FormatBotMessageEscaped(text: string): (r: string)
    ensures '\n' !in r
    ensures OnlyOwnTags(r)
    ensures PlainText(text) ==> r == FormatBotMessage(text)
  {
    var escaped := EscapeHtml(text);
    RewriteAddsOnlyOwnTags(escaped);
    if PlainText(text) then
      EscapeKeepsPlainText(text);
      BreakLines(Linkify(escaped))
    else
      BreakLines(Linkify(escaped))
  }
}
