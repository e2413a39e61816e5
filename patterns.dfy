/** The three regular expressions of the waiting-list forms, each written out as
    the set of strings it matches (both anchors `^…$` included). The browser
    script, the Express server and the Netlify function use the same three. */
module Patterns {
  import opened Text

  /** `[a-zA-Z\s\-']` */
  predicate NameChar(c: char) {
    IsAsciiLetter(c) || IsSpace(c) || c == '-' || c == '\''
  }

  /** `/^[a-zA-Z\s\-']+$/` */
  predicate NameShape(s: string)
    ensures NameShape(s) ==> forall i | 0 <= i < |s| :: !IsDigit(s[i]) && s[i] != '@'
  {
    |s| > 0 && forall i | 0 <= i < |s| :: NameChar(s[i])
  }

  /** `[^\s@]` */
  predicate Plain(c: char) {
    !IsSpace(c) && c != '@'
  }

  predicate AllPlain(s: string) {
    forall i | 0 <= i < |s| :: Plain(s[i])
  }

  /** `/^[^\s@]+@[^\s@]+\.[^\s@]+$/`: a match splits the string at an `@` (index
      `at`) and a later `.` (index `dot`) into three non-empty runs of plain
      characters. */
  predicate EmailShape(s: string)
    ensures EmailShape(s) ==> 5 <= |s| && '@' in s
  {
    exists at, dot | 0 < at && at + 1 < dot && dot + 1 < |s| ::
      && s[at] == '@' && s[dot] == '.'
      && AllPlain(s[..at]) && AllPlain(s[at + 1..dot]) && AllPlain(s[dot + 1..])
  }

  /** A '.' with at least one character on each side. */
  predicate HasInnerDot(d: string) {
    exists j | 0 < j < |d| - 1 :: d[j] == '.'
  }

  /** The email rule as the forms describe it, stated without the regex: no
      whitespace, exactly one `@`, something before it, and a domain holding a
      `.` with text on both sides. */
  ghost predicate EmailRule(s: string) {
    && NoSpace(s)
    && Occurrences(s, '@') == 1
    && var at := IndexOf(s, '@');
       0 < at < |s| && HasInnerDot(s[at + 1..])
  }

  /** The email regex matches exactly the strings that follow the rule. */
  lemma EmailShapeIsRule(s: string)
    ensures EmailShape(s) <==> EmailRule(s)
  {
    if EmailShape(s) {
      var at, dot :| 0 < at && at + 1 < dot && dot + 1 < |s|
        && s[at] == '@' && s[dot] == '.'
        && AllPlain(s[..at]) && AllPlain(s[at + 1..dot]) && AllPlain(s[dot + 1..]);
      ShapeParts(s, at, dot);
    }
    if EmailRule(s) {
      RuleParts(s);
    }
  }

  lemma ShapeParts(s: string, at: nat, dot: nat)
    requires 0 < at && at + 1 < dot && dot + 1 < |s|
    requires s[at] == '@' && s[dot] == '.'
    requires AllPlain(s[..at]) && AllPlain(s[at + 1..dot]) && AllPlain(s[dot + 1..])
    ensures EmailRule(s)
  {
    forall i | 0 <= i < |s| && i != at ensures Plain(s[i]) || i == dot {
      if i < at {
        assert s[i] == s[..at][i];
      } else if at < i < dot {
        assert s[i] == s[at + 1..dot][i - at - 1];
      } else if dot < i {
        assert s[i] == s[dot + 1..][i - dot - 1];
      }
    }
    assert NoSpace(s);
    OccurrencesNone(s[..at], '@');
    OccurrencesNone(s[at + 1..], '@');
    assert s == s[..at] + ([s[at]] + s[at + 1..]);
    OccurrencesConcat(s[..at], [s[at]] + s[at + 1..], '@');
    OccurrencesConcat([s[at]], s[at + 1..], '@');
    assert IndexOf(s, '@') == at;
    var d := s[at + 1..];
    assert d[dot - at - 1] == '.';
    assert HasInnerDot(d);
  }

  lemma RuleParts(s: string)
    requires EmailRule(s)
    ensures EmailShape(s)
  {
    var at := IndexOf(s, '@');
    if at == |s| {
      OccurrencesNone(s, '@');
      assert false;
    }
    assert s == s[..at] + ([s[at]] + s[at + 1..]);
    OccurrencesConcat(s[..at], [s[at]] + s[at + 1..], '@');
    OccurrencesConcat([s[at]], s[at + 1..], '@');
    OccurrencesNone(s[at + 1..], '@');
    var d := s[at + 1..];
    var j :| 0 < j < |d| - 1 && d[j] == '.';
    var dot := at + 1 + j;
    assert s[dot] == '.';
    assert AllPlain(s[..at]);
    var domain, top := s[at + 1..dot], s[dot + 1..];
    assert AllPlain(domain) by {
      forall i | 0 <= i < |domain| ensures Plain(domain[i]) {
        assert domain[i] == d[i];
      }
    }
    assert AllPlain(top) by {
      forall i | 0 <= i < |top| ensures Plain(top[i]) {
        assert top[i] == d[j + 1 + i];
      }
    }
  }

  /** Lower-casing an address keeps it an address (the server stores the
      lower-cased form). */
  lemma EmailShapeLower(s: string)
    requires EmailShape(s)
    ensures EmailShape(Lower(s))
  {
    var at, dot :| 0 < at && at + 1 < dot && dot + 1 < |s|
      && s[at] == '@' && s[dot] == '.'
      && AllPlain(s[..at]) && AllPlain(s[at + 1..dot]) && AllPlain(s[dot + 1..]);
    var l := Lower(s);
    forall i | 0 <= i < |s| && Plain(s[i]) ensures Plain(l[i]) {
      if 'A' <= s[i] <= 'Z' {
        assert 'a' <= l[i] <= 'z';
      }
    }
    assert AllPlain(l[..at]) by {
      forall i | 0 <= i < at ensures Plain(l[..at][i]) {
        assert s[..at][i] == s[i];
      }
    }
    var domain, top := l[at + 1..dot], l[dot + 1..];
    assert AllPlain(domain) by {
      forall i | 0 <= i < |domain| ensures Plain(domain[i]) {
        assert s[at + 1..dot][i] == s[at + 1 + i];
      }
    }
    assert AllPlain(top) by {
      forall i | 0 <= i < |top| ensures Plain(top[i]) {
        assert s[dot + 1..][i] == s[dot + 1 + i];
      }
    }
    assert l[at] == '@' && l[dot] == '.';
  }

  /** Upper-casing a postal code keeps it a postal code (the server stores the
      upper-cased form). */
  lemma PostalShapeUpper(s: string)
    requires PostalShape(s)
    ensures PostalShape(Upper(s))
  {
    var u := Upper(s);
    forall i | 0 <= i < |s| ensures (IsAsciiLetter(s[i]) ==> IsAsciiLetter(u[i])) && (!IsAsciiLetter(s[i]) ==> u[i] == s[i]) {
      if 'a' <= s[i] <= 'z' {
        assert 'A' <= u[i] <= 'Z';
      }
    }
    assert s[..3][0] == s[0] && s[..3][1] == s[1] && s[..3][2] == s[2];
    var k := |s| - 3;
    assert s[k..][0] == s[k] && s[k..][1] == s[k + 1] && s[k..][2] == s[k + 2];
  }

  /** `[A-Za-z]\d[A-Za-z]`, the forward sortation area of a Canadian postal code */
  predicate ForwardSortationArea(t: string) {
    |t| == 3 && IsAsciiLetter(t[0]) && IsDigit(t[1]) && IsAsciiLetter(t[2])
  }

  /** `\d[A-Za-z]\d`, the local delivery unit */
  predicate LocalDeliveryUnit(t: string) {
    |t| == 3 && IsDigit(t[0]) && IsAsciiLetter(t[1]) && IsDigit(t[2])
  }

  /** `/^[A-Za-z]\d[A-Za-z] ?\d[A-Za-z]\d$/`: the two halves, with or without one
      space (a literal space, not `\s`) between them. */
  predicate PostalShape(s: string)
    ensures PostalShape(s) ==> (|s| == 6 || |s| == 7) && IsAsciiLetter(s[0]) && IsDigit(s[|s| - 1])
  {
    && (|s| == 6 || (|s| == 7 && s[3] == ' '))
    && ForwardSortationArea(s[..3])
    && LocalDeliveryUnit(s[|s| - 3..])
  }
}
