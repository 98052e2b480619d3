/** SecurityElement.Escape: the replacement of the five characters that have
    predefined entities in section 4.6 of XML 1.0 (Fifth Edition):
    & < > " ' become &amp; &lt; &gt; &quot; &apos;. Unescape is the decoding
    an XML parser applies to character data, used here as the partner. */
module SecurityEscape {

  predicate IsMarkupChar(c: char) {
    c == '&' || c == '<' || c == '>' || c == '"' || c == '\''
  }

  function EscapeChar(c: char): (r: string)
    ensures !IsMarkupChar(c) ==> r == [c]
    ensures IsMarkupChar(c) ==> |r| >= 4 && r[0] == '&' && r[|r| - 1] == ';'
  {
    match c
    case '&' => "&amp;"
    case '<' => "&lt;"
    case '>' => "&gt;"
    case '"' => "&quot;"
    case '\'' => "&apos;"
    case _ => [c]
  }

  function Escape(s: string): (r: string)
    ensures |r| >= |s|
  {
    if s == [] then [] else EscapeChar(s[0]) + Escape(s[1..])
  }

  /** Decodes the five predefined entities; any other character is kept. */
  function Unescape(s: string): string
    decreases |s|
  {
    if s == [] then []
    else if s[0] == '&' && |s| >= 5 && s[..5] == "&amp;" then "&" + Unescape(s[5..])
    else if s[0] == '&' && |s| >= 4 && s[..4] == "&lt;" then "<" + Unescape(s[4..])
    else if s[0] == '&' && |s| >= 4 && s[..4] == "&gt;" then ">" + Unescape(s[4..])
    else if s[0] == '&' && |s| >= 6 && s[..6] == "&quot;" then "\"" + Unescape(s[6..])
    else if s[0] == '&' && |s| >= 6 && s[..6] == "&apos;" then "'" + Unescape(s[6..])
    else [s[0]] + Unescape(s[1..])
  }

  lemma UnescapeEscapeChar(c: char, rest: string)
    ensures Unescape(EscapeChar(c) + rest) == [c] + Unescape(rest)
  {
    match c
    case '&' => UnescapeAmp(rest);
    case '<' => UnescapeLt(rest);
    case '>' => UnescapeGt(rest);
    case '"' => UnescapeQuot(rest);
    case '\'' => UnescapeApos(rest);
    case _ =>
      var e := EscapeChar(c) + rest;
      assert e[0] == c && e[1..] == rest;
  }

  lemma UnescapeAmp(rest: string)
    ensures Unescape("&amp;" + rest) == "&" + Unescape(rest)
  {
    var e := "&amp;" + rest;
    assert e[..5] == "&amp;" && e[5..] == rest;
  }

  lemma UnescapeLt(rest: string)
    ensures Unescape("&lt;" + rest) == "<" + Unescape(rest)
  {
    var e := "&lt;" + rest;
    assert e[1] == 'l' && e[..4] == "&lt;" && e[4..] == rest;
  }

  lemma UnescapeGt(rest: string)
    ensures Unescape("&gt;" + rest) == ">" + Unescape(rest)
  {
    var e := "&gt;" + rest;
    assert e[1] == 'g' && e[..4] == "&gt;" && e[4..] == rest;
  }

  lemma UnescapeQuot(rest: string)
    ensures Unescape("&quot;" + rest) == "\"" + Unescape(rest)
  {
    var e := "&quot;" + rest;
    assert e[1] == 'q' && e[..6] == "&quot;" && e[6..] == rest;
  }

  lemma UnescapeApos(rest: string)
    ensures Unescape("&apos;" + rest) == "'" + Unescape(rest)
  {
    var e := "&apos;" + rest;
    assert e[1] == 'a' && e[2] == 'p' && e[..6] == "&apos;" && e[6..] == rest;
  }

  /** Escaping loses nothing: a parser reading the escaped text gets the
      original text back. */
  lemma {:induction false} UnescapeEscape(s: string)
    ensures Unescape(Escape(s)) == s
  {
    if s != [] {
      UnescapeEscapeChar(s[0], Escape(s[1..]));
      UnescapeEscape(s[1..]);
    }
  }

  lemma {:induction false} EscapeAppend(a: string, b: string)
    ensures Escape(a + b) == Escape(a) + Escape(b)
  {
    if a == [] {
      assert a + b == b;
    } else {
      assert (a + b)[0] == a[0] && (a + b)[1..] == a[1..] + b;
      EscapeAppend(a[1..], b);
    }
  }

  /** `t` starts with one of the five predefined entities. */
  predicate OpensEntity(t: string) {
    "&amp;" <= t || "&lt;" <= t || "&gt;" <= t || "&quot;" <= t || "&apos;" <= t
  }

  /** In one escaped character followed by anything, a '&' can only be the
      first character, and there it opens an entity. */
  lemma EscapeCharAmpersand(c: char, rest: string, i: nat)
    requires i < |EscapeChar(c)| && (EscapeChar(c) + rest)[i] == '&'
    ensures i == 0 && OpensEntity(EscapeChar(c) + rest)
  {
    var head := EscapeChar(c);
    assert (head + rest)[i] == head[i];
    assert head <= head + rest;
  }

  lemma ShiftIntoTail<T>(head: seq<T>, tail: seq<T>, i: nat)
    requires |head| <= i < |head + tail|
    ensures (head + tail)[i] == tail[i - |head|] && (head + tail)[i..] == tail[i - |head|..]
  {
  }

  /** The escaped text holds no '<', '>', '"' or '\'', and each '&' in it
      opens one of the five entities. */
  lemma {:induction false} EscapedHasNoMarkup(s: string)
    ensures forall i :: 0 <= i < |Escape(s)| ==> !IsMarkupChar(Escape(s)[i]) || Escape(s)[i] == '&'
    ensures forall i :: 0 <= i < |Escape(s)| && Escape(s)[i] == '&' ==> OpensEntity(Escape(s)[i..])
  {
    if s != [] {
      EscapedHasNoMarkup(s[1..]);
      var head, tail := EscapeChar(s[0]), Escape(s[1..]);
      assert Escape(s) == head + tail;
      forall i | 0 <= i < |Escape(s)|
        ensures !IsMarkupChar(Escape(s)[i]) || Escape(s)[i] == '&'
        ensures Escape(s)[i] == '&' ==> OpensEntity(Escape(s)[i..])
      {
        if i >= |head| {
          ShiftIntoTail(head, tail, i);
        } else if Escape(s)[i] == '&' {
          EscapeCharAmpersand(s[0], tail, i);
        }
      }
    }
  }

  /** Text without markup characters is left unchanged. */
  lemma {:induction false} EscapeIdentity(s: string)
    requires forall i :: 0 <= i < |s| ==> !IsMarkupChar(s[i])
    ensures Escape(s) == s
  {
    if s != [] {
      EscapeIdentity(s[1..]);
    }
  }
}
