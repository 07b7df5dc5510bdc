/** The two string escapers of the study tool (`escapeHTML` and `escapeAttr`),
    each a chain of global single-character replacements, together with the
    character-reference decoding an HTML parser applies to what they produce. */
module Escaping {
  import opened Wrappers

  /** `s.replace(/c/g, r)`: every occurrence of the character `c` becomes `r`.
      Every character of the result either came from the input (and is not
      the replaced one) or from the replacement text. */
  function ReplaceAll(s: string, c: char, r: string): (out: string)
    ensures forall d :: d in out ==> (d in s && d != c) || d in r
  {
    if s == [] then [] else (if s[0] == c then r else [s[0]]) + ReplaceAll(s[1..], c, r)
  }

  /** `escapeHTML`: `null`/`undefined` give the empty string; otherwise `&` is
      replaced first, then `<`, then `>`. The output can never open or close
      a tag. */
  function EscapeHTML(str: Option<string>): (out: string)
    ensures str.None? ==> out == ""
    ensures '<' !in out && '>' !in out
  {
    match str
    case None => ""
    case Some(s) => ReplaceAll(ReplaceAll(ReplaceAll(s, '&', "&amp;"), '<', "&lt;"), '>', "&gt;")
  }

  /** `escapeAttr`: `null`/`undefined` give the empty string; otherwise `"` and
      then `<` are replaced. The ampersand is left alone. The output holds no
      double quote, which would close the attribute, and no `<`. */
  function EscapeAttr(str: Option<string>): (out: string)
    ensures str.None? ==> out == ""
    ensures '"' !in out && '<' !in out
  {
    match str
    case None => ""
    case Some(s) => ReplaceAll(ReplaceAll(s, '"', "&quot;"), '<', "&lt;")
  }

  /** `escapeAttr` as evidently intended: the ampersand is escaped first, as
      `escapeHTML` does, so that the attribute reads back as the text. */
  function EscapeAttrFixed(str: Option<string>): (out: string)
    ensures str.None? ==> out == ""
    ensures '"' !in out && '<' !in out
  {
    match str
    case None => ""
    case Some(s) => ReplaceAll(ReplaceAll(ReplaceAll(s, '&', "&amp;"), '"', "&quot;"), '<', "&lt;")
  }

  /** What an HTML parser makes of the character references `&lt;`, `&gt;`,
      `&amp;` and `&quot;` in text or in a quoted attribute value, scanning left
      to right; every other character stands for itself. */
  function DecodeEntities(s: string): string
    decreases |s|
  {
    if s == [] then []
    else if "&lt;" <= s then "<" + DecodeEntities(s[4..])
    else if "&gt;" <= s then ">" + DecodeEntities(s[4..])
    else if "&amp;" <= s then "&" + DecodeEntities(s[5..])
    else if "&quot;" <= s then "\"" + DecodeEntities(s[6..])
    else [s[0]] + DecodeEntities(s[1..])
  }

  /** Replacing a character that does not occur changes nothing. */
  lemma {:induction false} ReplaceAllAbsent(s: string, c: char, r: string)
    requires c !in s
    ensures ReplaceAll(s, c, r) == s
  {
    if s != [] {
      ReplaceAllAbsent(s[1..], c, r);
    }
  }

  /** A one-character string is either replaced whole or kept. */
  lemma ReplaceAllSingle(x: char, c: char, r: string)
    ensures ReplaceAll([x], c, r) == if x == c then r else [x]
  {
    assert [x][1..] == [];
  }

  /** Replacement works character by character, so it distributes over
      concatenation. */
  lemma {:induction false} ReplaceAllAppend(a: string, b: string, c: char, r: string)
    ensures ReplaceAll(a + b, c, r) == ReplaceAll(a, c, r) + ReplaceAll(b, c, r)
  {
    if a == [] {
      assert a + b == b;
    } else {
      assert (a + b)[0] == a[0];
      assert (a + b)[1..] == a[1..] + b;
      ReplaceAllAppend(a[1..], b, c, r);
    }
  }

  /** The HTML escape of a single character. */
  function EscapeChar(c: char): string
  {
    if c == '&' then "&amp;" else if c == '<' then "&lt;" else if c == '>' then "&gt;" else [c]
  }

  /** The per-character HTML escape of a whole string. */
  function EscapeChars(s: string): string
  {
    if s == [] then [] else EscapeChar(s[0]) + EscapeChars(s[1..])
  }

  /** The three chained replacements of `escapeHTML` amount to escaping each
      character on its own; this holds because `&` is replaced first. */
  lemma {:induction false} EscapeHTMLPerChar(s: string)
    ensures EscapeHTML(Some(s)) == EscapeChars(s)
  {
    if s != [] {
      var x, t := s[0], s[1..];
      var one := ReplaceAll([x], '&', "&amp;");
      assert s == [x] + t;
      ReplaceAllAppend([x], t, '&', "&amp;");
      ReplaceAllAppend(one, ReplaceAll(t, '&', "&amp;"), '<', "&lt;");
      var two := ReplaceAll(one, '<', "&lt;");
      ReplaceAllAppend(two, ReplaceAll(ReplaceAll(t, '&', "&amp;"), '<', "&lt;"), '>', "&gt;");
      EscapeHTMLPerChar(t);
      EscapeCharSteps(x);
    }
  }

  /** One character through the three replacements of `escapeHTML`. */
  lemma EscapeCharSteps(x: char)
    ensures ReplaceAll(ReplaceAll(ReplaceAll([x], '&', "&amp;"), '<', "&lt;"), '>', "&gt;") == EscapeChar(x)
  {
    var one := ReplaceAll([x], '&', "&amp;");
    ReplaceAllSingle(x, '&', "&amp;");
    if x == '&' {
      ReplaceAllAbsent(one, '<', "&lt;");
      ReplaceAllAbsent(one, '>', "&gt;");
    } else {
      var two := ReplaceAll(one, '<', "&lt;");
      ReplaceAllSingle(x, '<', "&lt;");
      if x == '<' {
        ReplaceAllAbsent(two, '>', "&gt;");
      } else {
        ReplaceAllSingle(x, '>', "&gt;");
      }
    }
  }

  /** Decoding the character references in `escapeHTML`'s output gives back
      the input: the escape loses nothing. */
  lemma {:induction false} EscapeHTMLRoundTrip(s: string)
    ensures DecodeEntities(EscapeHTML(Some(s))) == s
  {
    EscapeHTMLPerChar(s);
    EscapeCharsRoundTrip(s);
  }

  /** A string that differs from `p` at some position below both lengths
      does not start with `p`. */
  lemma NotPrefix(p: string, s: string, k: nat)
    requires k < |p| && k < |s| && p[k] != s[k]
    ensures !(p <= s)
  {
  }

  lemma {:induction false} EscapeCharsRoundTrip(s: string)
    ensures DecodeEntities(EscapeChars(s)) == s
  {
    if s != [] {
      var x, rest := s[0], EscapeChars(s[1..]);
      var e := EscapeChar(x) + rest;
      assert EscapeChars(s) == e;
      if x == '&' {
        assert e[..5] == "&amp;" && e[5..] == rest;
        NotPrefix("&lt;", e, 1);
        NotPrefix("&gt;", e, 1);
      } else if x == '<' {
        assert e[..4] == "&lt;" && e[4..] == rest;
      } else if x == '>' {
        assert e[..4] == "&gt;" && e[4..] == rest;
        NotPrefix("&lt;", e, 1);
      } else {
        assert e[0] == x && e[1..] == rest;
        NotPrefix("&lt;", e, 0);
        NotPrefix("&gt;", e, 0);
        NotPrefix("&amp;", e, 0);
        NotPrefix("&quot;", e, 0);
      }
      EscapeCharsRoundTrip(s[1..]);
    }
  }

  /** `escapeAttr` leaves an ampersand as it is, so two different option
      texts, `<` and `&lt;`, get the same attribute value, and the attribute
      of the text `&lt;` reads back as `<`. */
  lemma EscapeAttrAmpersandClash()
    ensures EscapeAttr(Some("<")) == EscapeAttr(Some("&lt;")) == "&lt;"
    ensures DecodeEntities(EscapeAttr(Some("&lt;"))) == "<" != "&lt;"
  {
    ReplaceAllAbsent("&lt;", '"', "&quot;");
    ReplaceAllAbsent("&lt;", '<', "&lt;");
    LessThanEscapes();
    LessThanEntityDecodes();
  }

  lemma LessThanEscapes()
    ensures ReplaceAll(ReplaceAll("<", '"', "&quot;"), '<', "&lt;") == "&lt;"
  {
    assert ReplaceAll("<", '"', "&quot;") == "<";
    assert ReplaceAll("<", '<', "&lt;") == "&lt;";
  }

  lemma LessThanEntityDecodes()
    ensures DecodeEntities("&lt;") == "<"
  {
    assert DecodeEntities("") == "";
  }

  /** The attribute escape of a single character, ampersand first. */
  function EscapeAttrChar(c: char): string
  {
    if c == '&' then "&amp;" else if c == '"' then "&quot;" else if c == '<' then "&lt;" else [c]
  }

  function EscapeAttrChars(s: string): string
  {
    if s == [] then [] else EscapeAttrChar(s[0]) + EscapeAttrChars(s[1..])
  }

  lemma EscapeAttrCharSteps(x: char)
    ensures ReplaceAll(ReplaceAll(ReplaceAll([x], '&', "&amp;"), '"', "&quot;"), '<', "&lt;") == EscapeAttrChar(x)
  {
    var one := ReplaceAll([x], '&', "&amp;");
    ReplaceAllSingle(x, '&', "&amp;");
    if x == '&' {
      ReplaceAllAbsent(one, '"', "&quot;");
      ReplaceAllAbsent(one, '<', "&lt;");
    } else {
      var two := ReplaceAll(one, '"', "&quot;");
      ReplaceAllSingle(x, '"', "&quot;");
      if x == '"' {
        ReplaceAllAbsent(two, '<', "&lt;");
      } else {
        ReplaceAllSingle(x, '<', "&lt;");
      }
    }
  }

  lemma {:induction false} EscapeAttrFixedPerChar(s: string)
    ensures EscapeAttrFixed(Some(s)) == EscapeAttrChars(s)
  {
    if s != [] {
      var x, t := s[0], s[1..];
      var one := ReplaceAll([x], '&', "&amp;");
      assert s == [x] + t;
      ReplaceAllAppend([x], t, '&', "&amp;");
      ReplaceAllAppend(one, ReplaceAll(t, '&', "&amp;"), '"', "&quot;");
      var two := ReplaceAll(one, '"', "&quot;");
      ReplaceAllAppend(two, ReplaceAll(ReplaceAll(t, '&', "&amp;"), '"', "&quot;"), '<', "&lt;");
      EscapeAttrFixedPerChar(t);
      EscapeAttrCharSteps(x);
    }
  }

  lemma {:induction false} EscapeAttrCharsRoundTrip(s: string)
    ensures DecodeEntities(EscapeAttrChars(s)) == s
  {
    if s != [] {
      var x, rest := s[0], EscapeAttrChars(s[1..]);
      var e := EscapeAttrChar(x) + rest;
      assert EscapeAttrChars(s) == e;
      if x == '&' {
        assert e[..5] == "&amp;" && e[5..] == rest;
        NotPrefix("&lt;", e, 1);
        NotPrefix("&gt;", e, 1);
      } else if x == '"' {
        assert e[..6] == "&quot;" && e[6..] == rest;
        NotPrefix("&lt;", e, 1);
        NotPrefix("&gt;", e, 1);
        NotPrefix("&amp;", e, 1);
      } else if x == '<' {
        assert e[..4] == "&lt;" && e[4..] == rest;
      } else {
        assert e[0] == x && e[1..] == rest;
        NotPrefix("&lt;", e, 0);
        NotPrefix("&gt;", e, 0);
        NotPrefix("&amp;", e, 0);
        NotPrefix("&quot;", e, 0);
      }
      EscapeAttrCharsRoundTrip(s[1..]);
    }
  }

  /** With the ampersand escaped first, an attribute value reads back as
      exactly the text it was made from. */
  lemma {:induction false} EscapeAttrFixedRoundTrip(s: string)
    ensures DecodeEntities(EscapeAttrFixed(Some(s))) == s
  {
    EscapeAttrFixedPerChar(s);
    EscapeAttrCharsRoundTrip(s);
  }
}
