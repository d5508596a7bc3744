/**
 * The browser client's `escapeHtml` (static/script.js): every occurrence of
 * one of the five HTML special characters is replaced by its character
 * reference, every other character is copied, in order.
 */
module HtmlEscape {
  import opened Wrappers

  /** The characters the client's regular expression `/[&<>"']/g` matches. */
  predicate IsSpecial(c: char) {
    c == '&' || c == '<' || c == '>' || c == '"' || c == '\''
  }

  /** The four characters that may never appear raw in escaped text (`&` may, as the start of a reference). */
  predicate IsMarkup(c: char) {
    c == '<' || c == '>' || c == '"' || c == '\''
  }

  /** No `<`, `>`, `"` or `'` anywhere in `s`. */
  predicate NoRawMarkup(s: string) {
    forall i :: 0 <= i < |s| ==> !IsMarkup(s[i])
  }

  /** Number of special characters in `s`. */
  function SpecialCount(s: string): nat
    decreases |s|
  {
    if s == [] then 0 else (if IsSpecial(s[0]) then 1 else 0) + SpecialCount(s[1..])
  }

  /** The replacement for one character: the lookup table of the client, or the character itself. */
  function EscapeChar(c: char): (r: string)
    ensures IsSpecial(c) ==> 4 <= |r| <= 6 && r[0] == '&' && r[|r| - 1] == ';'
    ensures !IsSpecial(c) ==> r == [c]
    ensures NoRawMarkup(r)
  {
    match c
    case '&' => "&amp;"
    case '<' => "&lt;"
    case '>' => "&gt;"
    case '"' => "&quot;"
    case '\'' => "&#039;"
    case _ => [c]
  }

  /** `escapeHtml(text)`. */
  function EscapeHtml(s: string): (r: string)
    ensures |r| >= |s|
    ensures NoRawMarkup(r)
    decreases |s|
  {
    if s == [] then [] else EscapeChar(s[0]) + EscapeHtml(s[1..])
  }

  /** Escaping distributes over concatenation, so every character is rewritten in place and order is kept. */
  lemma {:induction false} EscapeConcat(a: string, b: string)
    ensures EscapeHtml(a + b) == EscapeHtml(a) + EscapeHtml(b)
    decreases |a|
  {
    if a == [] {
      assert a + b == b;
    } else {
      assert (a + b)[1..] == a[1..] + b;
      EscapeConcat(a[1..], b);
    }
  }

  /** One escaped character is its table entry: `&amp;`, `&lt;`, `&gt;`, `&quot;`, `&#039;`, or itself. */
  lemma EscapeSingle(c: char)
    ensures EscapeHtml([c]) == EscapeChar(c)
    ensures c == '&' ==> EscapeHtml([c]) == "&amp;"
    ensures c == '<' ==> EscapeHtml([c]) == "&lt;"
    ensures c == '>' ==> EscapeHtml([c]) == "&gt;"
    ensures c == '"' ==> EscapeHtml([c]) == "&quot;"
    ensures c == '\'' ==> EscapeHtml([c]) == "&#039;"
    ensures !IsSpecial(c) ==> EscapeHtml([c]) == [c]
  {
    assert [c][1..] == [];
  }

  /** Length grows by at least 3 per special character, and by at most 5. */
  lemma {:induction false} EscapeLength(s: string)
    ensures |s| + 3 * SpecialCount(s) <= |EscapeHtml(s)| <= |s| + 5 * SpecialCount(s)
    decreases |s|
  {
    if s != [] {
      EscapeLength(s[1..]);
    }
  }

  /** The output is exactly as long as the input when, and only when, the input has no special character. */
  lemma {:induction false} EscapeLengthUnchangedIff(s: string)
    ensures |EscapeHtml(s)| == |s| <==> SpecialCount(s) == 0
    ensures SpecialCount(s) == 0 <==> (forall i :: 0 <= i < |s| ==> !IsSpecial(s[i]))
    decreases |s|
  {
    EscapeLength(s);
    if s != [] {
      EscapeLengthUnchangedIff(s[1..]);
      assert forall i :: 1 <= i < |s| ==> s[i] == s[1..][i - 1];
    }
  }

  /** Text without special characters is returned unchanged, and only such text. */
  lemma {:induction false} EscapeIdentityIff(s: string)
    ensures EscapeHtml(s) == s <==> (forall i :: 0 <= i < |s| ==> !IsSpecial(s[i]))
    decreases |s|
  {
    EscapeLengthUnchangedIff(s);
    if forall i :: 0 <= i < |s| ==> !IsSpecial(s[i]) {
      if s != [] {
        assert forall i :: 0 <= i < |s[1..]| ==> !IsSpecial(s[1..][i]) by {
          forall i | 0 <= i < |s[1..]| ensures !IsSpecial(s[1..][i]) { assert s[1..][i] == s[i + 1]; }
        }
        EscapeIdentityIff(s[1..]);
        assert s == [s[0]] + s[1..];
      }
    }
  }

  /** The character whose reference `t` starts with, if any; the five references differ in their second character. */
  function LeadingReference(t: string): (r: Option<char>)
    ensures r.Some? ==>
              IsSpecial(r.value) && |EscapeChar(r.value)| <= |t| && t[..|EscapeChar(r.value)|] == EscapeChar(r.value)
  {
    if |t| >= 5 && t[..5] == "&amp;" then Some('&')
    else if |t| >= 4 && t[..4] == "&lt;" then Some('<')
    else if |t| >= 4 && t[..4] == "&gt;" then Some('>')
    else if |t| >= 6 && t[..6] == "&quot;" then Some('"')
    else if |t| >= 6 && t[..6] == "&#039;" then Some('\'')
    else None
  }

  /**
   * The decoder that undoes `EscapeHtml`: it accepts only text in which `<`, `>`,
   * `"` and `'` never occur raw and every `&` begins one of the five references.
   */
  function Unescape(t: string): (r: Option<string>)
    decreases |t|
  {
    if t == [] then Some([])
    else if t[0] == '&' then
      match LeadingReference(t)
      case None => None
      case Some(c) =>
        match Unescape(t[|EscapeChar(c)|..])
        case None => None
        case Some(rest) => Some([c] + rest)
    else if IsMarkup(t[0]) then None
    else
      match Unescape(t[1..])
      case None => None
      case Some(rest) => Some([t[0]] + rest)
  }

  lemma LeadingReferenceOfEscaped(c: char, rest: string)
    requires IsSpecial(c)
    ensures LeadingReference(EscapeChar(c) + rest) == Some(c)
  {
    var t := EscapeChar(c) + rest;
    assert t[..|EscapeChar(c)|] == EscapeChar(c);
    assert t[1] == EscapeChar(c)[1];
  }

  /** Round trip: decoding escaped text gives the original text back. */
  lemma {:induction false} UnescapeEscape(s: string)
    ensures Unescape(EscapeHtml(s)) == Some(s)
    decreases |s|
  {
    if s != [] {
      var c := s[0];
      var e := EscapeChar(c);
      var t := EscapeHtml(s);
      assert t == e + EscapeHtml(s[1..]);
      UnescapeEscape(s[1..]);
      if IsSpecial(c) {
        LeadingReferenceOfEscaped(c, EscapeHtml(s[1..]));
        assert t[|e|..] == EscapeHtml(s[1..]);
      } else {
        assert t[1..] == EscapeHtml(s[1..]);
      }
      assert s == [c] + s[1..];
    }
  }

  /** The other direction: text the decoder accepts is exactly the escaping of what it decodes to. */
  lemma {:induction false} EscapeUnescape(t: string, s: string)
    requires Unescape(t) == Some(s)
    ensures EscapeHtml(s) == t
    decreases |t|
  {
    if t != [] {
      if t[0] == '&' {
        var c := LeadingReference(t).value;
        var rest := Unescape(t[|EscapeChar(c)|..]).value;
        EscapeUnescape(t[|EscapeChar(c)|..], rest);
        assert s == [c] + rest && s[1..] == rest;
        assert t == EscapeChar(c) + t[|EscapeChar(c)|..];
      } else {
        var rest := Unescape(t[1..]).value;
        EscapeUnescape(t[1..], rest);
        assert s == [t[0]] + rest && s[1..] == rest;
        assert t == [t[0]] + t[1..];
      }
    }
  }

  /** `escapeHtml` is injective: different texts never escape to the same markup. */
  lemma EscapeInjective(a: string, b: string)
    requires EscapeHtml(a) == EscapeHtml(b)
    ensures a == b
  {
    UnescapeEscape(a);
    UnescapeEscape(b);
  }
}
