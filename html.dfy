/** `escapeHTML`: the per-character replacement of the five characters that are
    special in HTML text and attribute values. */
module Html {

  predicate IsSpecial(c: char)
  {
    c == '&' || c == '<' || c == '>' || c == '"' || c == '\''
  }

  /** The replacement table of `escapeHTML`. */
  function EscapeChar(c: char): (e: string)
    ensures |e| >= 1 && (e[0] == c || e[0] == '&')
    ensures IsSpecial(c) <==> |e| > 1
    ensures IsSpecial(c) ==> e[0] == '&'
    ensures !IsSpecial(c) ==> e == [c]
  {
    match c
    case '&' => "&amp;"
    case '<' => "&lt;"
    case '>' => "&gt;"
    case '"' => "&quot;"
    case '\'' => "&#039;"
    case _ => [c]
  }

  /** No `<`, `>`, double or single quote survives escaping. */
  function EscapeHtml(s: string): (r: string)
    ensures forall i :: 0 <= i < |r| ==> r[i] != '<' && r[i] != '>' && r[i] != '"' && r[i] != '\''
    ensures |r| >= |s|
  {
    if s == [] then [] else EscapeChar(s[0]) + EscapeHtml(s[1..])
  }

  /** The text begins with one of the five entities `escapeHTML` produces. */
  predicate StartsEntity(t: string)
  {
    (|t| >= 5 && t[..5] == "&amp;") ||
    (|t| >= 4 && t[..4] == "&lt;") ||
    (|t| >= 4 && t[..4] == "&gt;") ||
    (|t| >= 6 && t[..6] == "&quot;") ||
    (|t| >= 6 && t[..6] == "&#039;")
  }

  /** The inverse of escaping: each of the five entities back to its character,
      every other character kept. */
  function Unescape(t: string): string
    decreases |t|
  {
    if t == [] then []
    else if |t| >= 5 && t[..5] == "&amp;" then "&" + Unescape(t[5..])
    else if |t| >= 4 && t[..4] == "&lt;" then "<" + Unescape(t[4..])
    else if |t| >= 4 && t[..4] == "&gt;" then ">" + Unescape(t[4..])
    else if |t| >= 6 && t[..6] == "&quot;" then "\"" + Unescape(t[6..])
    else if |t| >= 6 && t[..6] == "&#039;" then "'" + Unescape(t[6..])
    else [t[0]] + Unescape(t[1..])
  }

  /** Every `&` in escaped text is the start of one of the five entities,
      so an `&` of the input can never be confused with markup. */
  lemma {:induction false} AmpersandsStartEntities(s: string)
    ensures forall i :: 0 <= i < |EscapeHtml(s)| && EscapeHtml(s)[i] == '&' ==> StartsEntity(EscapeHtml(s)[i..])
    decreases |s|
  {
    if s != [] {
      AmpersandsStartEntities(s[1..]);
      var e := EscapeChar(s[0]);
      var rest := EscapeHtml(s[1..]);
      var r := EscapeHtml(s);
      assert r == e + rest;
      forall i | 0 <= i < |r| && r[i] == '&' ensures StartsEntity(r[i..]) {
        if i < |e| {
          assert e[i] == '&';
          assert i == 0 && r[..|e|] == e;
        } else {
          assert r[i..] == rest[i - |e|..];
        }
      }
    }
  }

  /** Unescaping the entity `ent` of a character `c` in front of any text. */
  lemma UnescapeEntity(ent: string, c: char, u: string)
    requires ent == EscapeChar(c) && IsSpecial(c)
    ensures Unescape(ent + u) == [c] + Unescape(u)
  {
    var t := ent + u;
    assert t[..|ent|] == ent && t[|ent|..] == u;
    assert t[1] == ent[1];
  }

  /** Unescaping one escaped character in front of any text. */
  lemma UnescapeStep(c: char, u: string)
    ensures Unescape(EscapeChar(c) + u) == [c] + Unescape(u)
  {
    if IsSpecial(c) {
      UnescapeEntity(EscapeChar(c), c, u);
    } else {
      UnescapePlainChar(c, u);
    }
  }

  /** Unescaping a character other than the five in front of any text. */
  lemma UnescapePlainChar(c: char, u: string)
    requires !IsSpecial(c)
    ensures Unescape([c] + u) == [c] + Unescape(u)
  {
    var t := [c] + u;
    assert t[0] == c && t[1..] == u;
  }

  /** Decoding the entities gives back exactly the input. */
  lemma {:induction false} UnescapeEscape(s: string)
    ensures Unescape(EscapeHtml(s)) == s
    decreases |s|
  {
    if s != [] {
      var rest := EscapeHtml(s[1..]);
      assert EscapeHtml(s) == EscapeChar(s[0]) + rest;
      UnescapeStep(s[0], rest);
      UnescapeEscape(s[1..]);
      assert s == [s[0]] + s[1..];
    }
  }

  /** Text without any of the five characters is left as it is. */
  lemma {:induction false} EscapePlain(s: string)
    requires forall i :: 0 <= i < |s| ==> !IsSpecial(s[i])
    ensures EscapeHtml(s) == s
    decreases |s|
  {
    if s != [] {
      EscapePlain(s[1..]);
      assert s == [s[0]] + s[1..];
    }
  }
}
