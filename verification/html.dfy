/** `escape_html`: the escaping applied to every notification before it is sent
    with HTML parse mode. */
module Html {

  /** Python's `str.replace(c, rep)` for a one-character pattern. */
  function ReplaceAll(s: string, c: char, rep: string): (r: string)
    ensures c !in rep ==> c !in r
    ensures c !in s ==> r == s
  {
    if s == [] then []
    else (if s[0] == c then rep else [s[0]]) + ReplaceAll(s[1..], c, rep)
  }

  /** `escape_html(text)`: an empty text is returned as it is; otherwise the four
      replacements run in the source's order, '&' first. */
  function EscapeHtml(text: string): string {
    if text == [] then text
    else ReplaceAll(ReplaceAll(ReplaceAll(ReplaceAll(text, '&', "&amp;"), '<', "&lt;"), '>', "&gt;"), '"', "&quot;")
  }

  /** The entity that stands for one character. */
  function EscapeChar(c: char): string {
    if c == '&' then "&amp;"
    else if c == '<' then "&lt;"
    else if c == '>' then "&gt;"
    else if c == '"' then "&quot;"
    else [c]
  }

  /** Reference definition: every character replaced by its entity, independently. */
  function Escaped(s: string): (r: string)
    ensures '<' !in r && '>' !in r && '"' !in r
    ensures |r| >= |s|
  {
    if s == [] then [] else EscapeChar(s[0]) + Escaped(s[1..])
  }

  /** What an HTML reader recovers from escaped text: the four entities decoded. */
  function Unescape(s: string): string
    decreases |s|
  {
    if s == [] then []
    else if |s| >= 5 && s[..5] == "&amp;" then ['&'] + Unescape(s[5..])
    else if |s| >= 4 && s[..4] == "&lt;" then ['<'] + Unescape(s[4..])
    else if |s| >= 4 && s[..4] == "&gt;" then ['>'] + Unescape(s[4..])
    else if |s| >= 6 && s[..6] == "&quot;" then ['"'] + Unescape(s[6..])
    else [s[0]] + Unescape(s[1..])
  }

  lemma {:induction false} ReplaceAllAppend(a: string, b: string, c: char, rep: string)
    ensures ReplaceAll(a + b, c, rep) == ReplaceAll(a, c, rep) + ReplaceAll(b, c, rep)
  {
    if a == [] {
      assert a + b == b;
    } else {
      assert (a + b)[0] == a[0];
      assert (a + b)[1..] == a[1..] + b;
      ReplaceAllAppend(a[1..], b, c, rep);
    }
  }

  /** The four replacements in sequence, on any text (empty included). */
  function Chain(s: string): string {
    ReplaceAll(ReplaceAll(ReplaceAll(ReplaceAll(s, '&', "&amp;"), '<', "&lt;"), '>', "&gt;"), '"', "&quot;")
  }

  lemma ChainAppend(a: string, b: string)
    ensures Chain(a + b) == Chain(a) + Chain(b)
  {
    var a1, b1 := ReplaceAll(a, '&', "&amp;"), ReplaceAll(b, '&', "&amp;");
    ReplaceAllAppend(a, b, '&', "&amp;");
    var a2, b2 := ReplaceAll(a1, '<', "&lt;"), ReplaceAll(b1, '<', "&lt;");
    ReplaceAllAppend(a1, b1, '<', "&lt;");
    var a3, b3 := ReplaceAll(a2, '>', "&gt;"), ReplaceAll(b2, '>', "&gt;");
    ReplaceAllAppend(a2, b2, '>', "&gt;");
    ReplaceAllAppend(a3, b3, '"', "&quot;");
  }

  lemma ChainChar(c: char)
    ensures Chain([c]) == EscapeChar(c)
  {
    if c == '&' {
      assert ReplaceAll([c], '&', "&amp;") == "&amp;" + ReplaceAll([], '&', "&amp;");
    } else {
      assert ReplaceAll([c], '&', "&amp;") == [c] + ReplaceAll([], '&', "&amp;");
      if c == '<' {
        assert ReplaceAll([c], '<', "&lt;") == "&lt;" + ReplaceAll([], '<', "&lt;");
      } else {
        assert ReplaceAll([c], '<', "&lt;") == [c] + ReplaceAll([], '<', "&lt;");
        if c == '>' {
          assert ReplaceAll([c], '>', "&gt;") == "&gt;" + ReplaceAll([], '>', "&gt;");
        } else {
          assert ReplaceAll([c], '>', "&gt;") == [c] + ReplaceAll([], '>', "&gt;");
          if c == '"' {
            assert ReplaceAll([c], '"', "&quot;") == "&quot;" + ReplaceAll([], '"', "&quot;");
          } else {
            assert ReplaceAll([c], '"', "&quot;") == [c] + ReplaceAll([], '"', "&quot;");
          }
        }
      }
    }
  }

  /** Running the four replacements one after another escapes each character on
      its own: an entity inserted by an earlier replacement is never rewritten by
      a later one. */
  lemma {:induction false} EscapeHtmlIsPerCharacter(text: string)
    ensures EscapeHtml(text) == Escaped(text)
  {
    if text != [] {
      assert text == [text[0]] + text[1..];
      ChainAppend([text[0]], text[1..]);
      ChainChar(text[0]);
      EscapeHtmlIsPerCharacter(text[1..]);
      if text[1..] == [] {
        assert Chain([]) == [];
      }
    }
  }

  /** Decoding an entity followed by any text gives its character back. */
  lemma UnescapeChar(c: char, rest: string)
    ensures Unescape(EscapeChar(c) + rest) == [c] + Unescape(rest)
  {
    if c == '&' {
      UnescapeAmp(rest);
    } else if c == '<' {
      UnescapeLt(rest);
    } else if c == '>' {
      UnescapeGt(rest);
    } else if c == '"' {
      UnescapeQuot(rest);
    } else {
      UnescapePlain(c, rest);
    }
  }

  lemma UnescapePlain(c: char, rest: string)
    requires c != '&'
    ensures Unescape([c] + rest) == [c] + Unescape(rest)
  {
    var t := [c] + rest;
    assert |t| < 5 || t[..5] != "&amp;" by {
      if |t| >= 5 { assert t[..5][0] == c; }
    }
    assert |t| < 4 || (t[..4] != "&lt;" && t[..4] != "&gt;") by {
      if |t| >= 4 { assert t[..4][0] == c; }
    }
    assert |t| < 6 || t[..6] != "&quot;" by {
      if |t| >= 6 { assert t[..6][0] == c; }
    }
    assert t[0] == c && t[1..] == rest;
  }

  lemma UnescapeAmp(rest: string)
    ensures Unescape("&amp;" + rest) == ['&'] + Unescape(rest)
  {
    var t := "&amp;" + rest;
    assert t[..5] == "&amp;" && t[5..] == rest;
  }

  lemma UnescapeLt(rest: string)
    ensures Unescape("&lt;" + rest) == ['<'] + Unescape(rest)
  {
    var t := "&lt;" + rest;
    assert t[1] == 'l';
    assert |t| < 5 || t[..5] != "&amp;" by {
      if |t| >= 5 { assert t[..5][1] == 'l'; }
    }
    assert t[..4] == "&lt;" && t[4..] == rest;
  }

  lemma UnescapeGt(rest: string)
    ensures Unescape("&gt;" + rest) == ['>'] + Unescape(rest)
  {
    var t := "&gt;" + rest;
    assert |t| < 5 || t[..5] != "&amp;" by {
      if |t| >= 5 { assert t[..5][1] == 'g'; }
    }
    assert t[..4] != "&lt;" by { assert t[..4][1] == 'g'; }
    assert t[..4] == "&gt;" && t[4..] == rest;
  }

  lemma UnescapeQuot(rest: string)
    ensures Unescape("&quot;" + rest) == ['"'] + Unescape(rest)
  {
    var t := "&quot;" + rest;
    assert t[..5] != "&amp;" by { assert t[..5][1] == 'q'; }
    assert t[..4] != "&lt;" by { assert t[..4][1] == 'q'; }
    assert t[..4] != "&gt;" by { assert t[..4][1] == 'q'; }
    assert t[..6] == "&quot;" && t[6..] == rest;
  }

  /** Escaping loses nothing: decoding the entities gives the original text back. */
  lemma {:induction false} UnescapeEscaped(s: string)
    ensures Unescape(Escaped(s)) == s
  {
    if s != [] {
      assert Escaped(s) == EscapeChar(s[0]) + Escaped(s[1..]);
      UnescapeChar(s[0], Escaped(s[1..]));
      UnescapeEscaped(s[1..]);
      assert s == [s[0]] + s[1..];
    }
  }

  /** What `escape_html` promises its caller: no raw markup character is left and
      the message reads back unchanged. */
  lemma EscapeHtmlSafe(text: string)
    ensures '<' !in EscapeHtml(text) && '>' !in EscapeHtml(text) && '"' !in EscapeHtml(text)
    ensures Unescape(EscapeHtml(text)) == text
  {
    EscapeHtmlIsPerCharacter(text);
    UnescapeEscaped(text);
  }
}
