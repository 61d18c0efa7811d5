/** The e-mail test shared by registration and login: the regular expression
    `^[^\s@]+@[^\s@]+\.[^\s@]+$`, applied to the text exactly as typed. */
module EmailFormat {
  import opened Text

  /** A character of the class `[^\s@]`. */
  predicate PartChar(c: char) {
    !IsWhitespace(c) && c != '@'
  }

  /** Text matched by `[^\s@]+`. */
  predicate IsPart(s: string) {
    |s| > 0 && forall i :: 0 <= i < |s| ==> PartChar(s[i])
  }

  /** The whole of `s` is matched by the pattern: a local part, '@', a host
      part, '.', and a last part, each non-empty and free of whitespace and
      '@'. (The '.' may be any dot after the '@' that leaves text on both sides.) */
  predicate MatchesEmailPattern(s: string) {
    exists at, dot ::
      0 < at && at + 1 < dot && dot + 1 < |s| && s[at] == '@' && s[dot] == '.'
      && IsPart(s[..at]) && IsPart(s[at + 1..dot]) && IsPart(s[dot + 1..])
  }

  /** The domain `d` (the text after the '@') holds a '.' with text on both sides. */
  predicate HasInnerDot(d: string) {
    exists k :: 0 < k < |d| - 1 && d[k] == '.'
  }

  /** `s` holds exactly one '@', at position `at`. */
  predicate OnlyAtSignAt(s: string, at: int) {
    0 <= at < |s| && s[at] == '@' && forall j :: 0 <= j < |s| && j != at ==> s[j] != '@'
  }

  /** The plain-terms shape of an accepted address: no whitespace anywhere,
      exactly one '@' and not in first place, and a '.' in the domain with
      text on both sides. */
  predicate EmailShape(s: string) {
    NoWhitespace(s) && exists at :: 0 < at < |s| && OnlyAtSignAt(s, at) && HasInnerDot(s[at + 1..])
  }

  lemma {:induction false} PatternGivesShape(s: string)
    requires MatchesEmailPattern(s)
    ensures EmailShape(s)
  {
    var at, dot :|
      0 < at && at + 1 < dot && dot + 1 < |s| && s[at] == '@' && s[dot] == '.'
      && IsPart(s[..at]) && IsPart(s[at + 1..dot]) && IsPart(s[dot + 1..]);
    forall j | 0 <= j < |s| && j != at && j != dot ensures PartChar(s[j]) {
      if j < at {
        assert s[..at][j] == s[j];
      } else if j < dot {
        assert s[at + 1..dot][j - at - 1] == s[j];
      } else {
        assert s[dot + 1..][j - dot - 1] == s[j];
      }
    }
    assert s[at + 1..][dot - at - 1] == '.';
    assert OnlyAtSignAt(s, at);
  }

  lemma {:induction false} ShapeGivesPattern(s: string)
    requires EmailShape(s)
    ensures MatchesEmailPattern(s)
  {
    var at :| 0 < at < |s| && OnlyAtSignAt(s, at) && HasInnerDot(s[at + 1..]);
    var d := s[at + 1..];
    var k :| 0 < k < |d| - 1 && d[k] == '.';
    var dot := at + 1 + k;
    assert s[dot] == d[k];
    forall j | 0 <= j < |s| && j != at ensures PartChar(s[j]) {
      assert !IsWhitespace(s[j]);
    }
    var local, host, last := s[..at], s[at + 1..dot], s[dot + 1..];
    forall j | 0 <= j < |local| ensures PartChar(local[j]) {
      assert local[j] == s[j];
    }
    forall j | 0 <= j < |host| ensures PartChar(host[j]) {
      assert host[j] == s[at + 1 + j];
    }
    forall j | 0 <= j < |last| ensures PartChar(last[j]) {
      assert last[j] == s[dot + 1 + j];
    }
    assert IsPart(local) && IsPart(host) && IsPart(last);
  }

  /** The pattern accepts exactly the addresses of that shape. */
  lemma EmailPatternCharacterized(s: string)
    ensures MatchesEmailPattern(s) <==> EmailShape(s)
  {
    if MatchesEmailPattern(s) { PatternGivesShape(s); }
    if EmailShape(s) { ShapeGivesPattern(s); }
  }

  /** An address that passes the pattern is never blank. */
  lemma MatchingEmailIsNotBlank(s: string)
    requires MatchesEmailPattern(s)
    ensures !IsBlank(s)
  {
    PatternGivesShape(s);
    var at :| 0 < at < |s| && OnlyAtSignAt(s, at) && HasInnerDot(s[at + 1..]);
    assert !IsWhitespace(s[at]);
  }

  /** The pattern runs on the untrimmed input: a leading or trailing space fails it. */
  lemma SurroundingSpaceRejected(s: string)
    ensures !MatchesEmailPattern(" " + s)
    ensures !MatchesEmailPattern(s + " ")
  {
    EmailPatternCharacterized(" " + s);
    EmailPatternCharacterized(s + " ");
    assert (" " + s)[0] == ' ' && IsWhitespace(' ');
    assert (s + " ")[|s|] == ' ';
  }
}
