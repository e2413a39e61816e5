/** The JavaScript string built-ins the validators rely on: the whitespace class
    shared by `\s` and `String.prototype.trim`, `trim` itself, ASCII
    `toUpperCase`/`toLowerCase`, and counting and finding a character. */
module Text {

  /** ECMAScript WhiteSpace and LineTerminator code points: what `\s` matches
      and what `trim` removes. */
  predicate IsSpace(c: char) {
    || c == ' ' || '\t' <= c <= '\r'
    || c == '\U{A0}' || c == '\U{1680}' || '\U{2000}' <= c <= '\U{200A}'
    || c == '\U{2028}' || c == '\U{2029}' || c == '\U{202F}' || c == '\U{205F}'
    || c == '\U{3000}' || c == '\U{FEFF}'
  }

  predicate AllSpace(s: string) {
    forall i | 0 <= i < |s| :: IsSpace(s[i])
  }

  predicate NoSpace(s: string) {
    forall i | 0 <= i < |s| :: !IsSpace(s[i])
  }

  /** `[a-zA-Z]` */
  predicate IsAsciiLetter(c: char) {
    'A' <= c <= 'Z' || 'a' <= c <= 'z'
  }

  /** `\d`, which in JavaScript is ASCII only */
  predicate IsDigit(c: char) {
    '0' <= c <= '9'
  }

  /** Removes leading whitespace; what is left does not start with whitespace
      (TrimStartSuffix: it is a suffix of `s`, and only whitespace was removed). */
  function TrimStart(s: string): (r: string)
    ensures |r| <= |s|
    ensures r == [] || !IsSpace(r[0])
  {
    if |s| > 0 && IsSpace(s[0]) then TrimStart(s[1..]) else s
  }

  /** Removes trailing whitespace; what is left does not end with whitespace
      (TrimEndPrefix: it is a prefix of `s`, and only whitespace was removed). */
  function TrimEnd(s: string): (r: string)
    ensures |r| <= |s|
    ensures r == [] || !IsSpace(r[|r| - 1])
  {
    if |s| > 0 && IsSpace(s[|s| - 1]) then TrimEnd(s[..|s| - 1]) else s
  }

  lemma {:induction false} TrimStartSuffix(s: string)
    ensures TrimStart(s) == s[|s| - |TrimStart(s)|..]
    ensures AllSpace(s[..|s| - |TrimStart(s)|])
  {
    if |s| > 0 && IsSpace(s[0]) {
      TrimStartSuffix(s[1..]);
      var r := TrimStart(s[1..]);
      assert s[..|s| - |r|] == [s[0]] + s[1..][..|s| - 1 - |r|];
    }
  }

  lemma {:induction false} TrimEndPrefix(s: string)
    ensures TrimEnd(s) == s[..|TrimEnd(s)|]
    ensures AllSpace(s[|TrimEnd(s)|..])
  {
    if |s| > 0 && IsSpace(s[|s| - 1]) {
      TrimEndPrefix(s[..|s| - 1]);
      var r := TrimEnd(s[..|s| - 1]);
      assert s[|r|..] == s[..|s| - 1][|r|..] + [s[|s| - 1]];
    }
  }

  /** `String.prototype.trim` */
  function Trim(s: string): (r: string)
    ensures |r| <= |s|
    ensures r == [] || (!IsSpace(r[0]) && !IsSpace(r[|r| - 1]))
  {
    TrimEndPrefix(TrimStart(s));
    TrimEnd(TrimStart(s))
  }

  /** `Trim(s)` is `s[lo..hi]`, with only whitespace outside it. */
  lemma TrimWithin(s: string) returns (lo: nat, hi: nat)
    ensures lo == |s| - |TrimStart(s)| && hi == lo + |Trim(s)| <= |s|
    ensures Trim(s) == s[lo..hi]
    ensures AllSpace(s[..lo]) && AllSpace(s[hi..])
  {
    var t := TrimStart(s);
    TrimStartSuffix(s);
    lo := |s| - |t|;
    var r := TrimEnd(t);
    TrimEndPrefix(t);
    hi := lo + |r|;
    assert Trim(s) == r;
    assert t == s[lo..];
    assert r == t[..|r|];
    SliceOfSuffix(s, lo, |r|);
    TrimEndWithin(s, lo);
  }

  lemma SliceOfSuffix(s: string, lo: nat, n: nat)
    requires lo + n <= |s|
    ensures s[lo..][..n] == s[lo..lo + n]
  {
  }

  lemma TrimEndWithin(s: string, lo: nat)
    requires lo <= |s|
    ensures AllSpace(s[lo + |TrimEnd(s[lo..])|..])
  {
    var t := s[lo..];
    var r := TrimEnd(t);
    TrimEndPrefix(t);
    assert s[lo + |r|..] == t[|r|..];
  }

  /** Trimming twice is trimming once. */
  lemma TrimIdempotent(s: string)
    ensures Trim(Trim(s)) == Trim(s)
  {
    var r := Trim(s);
    assert TrimStart(r) == r;
    assert TrimEnd(r) == r;
  }

  /** Two strings with whitespace at the same positions trim at the same positions. */
  predicate SameSpacing(a: string, b: string) {
    |a| == |b| && forall i | 0 <= i < |a| :: IsSpace(a[i]) <==> IsSpace(b[i])
  }

  lemma {:induction false} TrimStartSameSpacing(a: string, b: string)
    requires SameSpacing(a, b)
    ensures |TrimStart(a)| == |TrimStart(b)|
  {
    if |a| > 0 && IsSpace(a[0]) {
      assert SameSpacing(a[1..], b[1..]) by {
        forall i | 0 <= i < |a| - 1 ensures IsSpace(a[1..][i]) <==> IsSpace(b[1..][i]) {
          assert a[1..][i] == a[i + 1] && b[1..][i] == b[i + 1];
        }
      }
      TrimStartSameSpacing(a[1..], b[1..]);
    }
  }

  lemma {:induction false} TrimEndSameSpacing(a: string, b: string)
    requires SameSpacing(a, b)
    ensures |TrimEnd(a)| == |TrimEnd(b)|
  {
    if |a| > 0 && IsSpace(a[|a| - 1]) {
      var n := |a| - 1;
      assert SameSpacing(a[..n], b[..n]) by {
        forall i | 0 <= i < n ensures IsSpace(a[..n][i]) <==> IsSpace(b[..n][i]) {
          assert a[..n][i] == a[i] && b[..n][i] == b[i];
        }
      }
      TrimEndSameSpacing(a[..n], b[..n]);
    }
  }

  lemma TrimSameSpacing(a: string, b: string)
    requires SameSpacing(a, b)
    ensures |TrimStart(a)| == |TrimStart(b)| && |Trim(a)| == |Trim(b)|
  {
    TrimStartSameSpacing(a, b);
    TrimStartSuffix(a);
    TrimStartSuffix(b);
    var lo := |a| - |TrimStart(a)|;
    assert TrimStart(a) == a[lo..] && TrimStart(b) == b[lo..];
    assert SameSpacing(a[lo..], b[lo..]) by {
      forall i | 0 <= i < |a| - lo ensures IsSpace(a[lo..][i]) <==> IsSpace(b[lo..][i]) {
        assert a[lo..][i] == a[lo + i] && b[lo..][i] == b[lo + i];
      }
    }
    TrimEndSameSpacing(a[lo..], b[lo..]);
  }

  /** `toUpperCase` on one character, ASCII only. */
  function UpperChar(c: char): char {
    if 'a' <= c <= 'z' then (c as int - 32) as char else c
  }

  /** `toLowerCase` on one character, ASCII only. */
  function LowerChar(c: char): char {
    if 'A' <= c <= 'Z' then (c as int + 32) as char else c
  }

  /** `toUpperCase`, ASCII only: same length, no lower-case letter left, and
      every other character unchanged. */
  function Upper(s: string): (r: string)
    ensures |r| == |s|
    ensures forall i | 0 <= i < |r| :: !('a' <= r[i] <= 'z')
    ensures forall i | 0 <= i < |s| && !('a' <= s[i] <= 'z') :: r[i] == s[i]
    ensures forall i | 0 <= i < |s| && 'a' <= s[i] <= 'z' :: r[i] as int == s[i] as int - 32
  {
    seq(|s|, i requires 0 <= i < |s| => UpperChar(s[i]))
  }

  /** `toLowerCase`, ASCII only: same length, no upper-case letter left, and
      every other character unchanged. */
  function Lower(s: string): (r: string)
    ensures |r| == |s|
    ensures forall i | 0 <= i < |r| :: !('A' <= r[i] <= 'Z')
    ensures forall i | 0 <= i < |s| && !('A' <= s[i] <= 'Z') :: r[i] == s[i]
    ensures forall i | 0 <= i < |s| && 'A' <= s[i] <= 'Z' :: r[i] as int == s[i] as int + 32
  {
    seq(|s|, i requires 0 <= i < |s| => LowerChar(s[i]))
  }

  /** Changing case does not move whitespace. */
  lemma UpperSameSpacing(s: string)
    ensures SameSpacing(s, Upper(s))
  {
    forall i | 0 <= i < |s| ensures IsSpace(s[i]) <==> IsSpace(Upper(s)[i]) {
      var c := s[i];
      if 'a' <= c <= 'z' {
        assert 'A' <= UpperChar(c) <= 'Z';
      }
    }
  }

  lemma LowerSameSpacing(s: string)
    ensures SameSpacing(s, Lower(s))
  {
    forall i | 0 <= i < |s| ensures IsSpace(s[i]) <==> IsSpace(Lower(s)[i]) {
      var c := s[i];
      if 'A' <= c <= 'Z' {
        assert 'a' <= LowerChar(c) <= 'z';
      }
    }
  }

  /** Changing case does not move whitespace, so it commutes with `trim`. */
  lemma TrimUpper(s: string)
    ensures Trim(Upper(s)) == Upper(Trim(s))
  {
    var u := Upper(s);
    UpperSameSpacing(s);
    TrimSameSpacing(s, u);
    var lo, hi := TrimWithin(s);
    var lo', hi' := TrimWithin(u);
    UpperSlice(s, lo, hi);
  }

  lemma TrimLower(s: string)
    ensures Trim(Lower(s)) == Lower(Trim(s))
  {
    var u := Lower(s);
    LowerSameSpacing(s);
    TrimSameSpacing(s, u);
    var lo, hi := TrimWithin(s);
    var lo', hi' := TrimWithin(u);
    LowerSlice(s, lo, hi);
  }

  lemma UpperSlice(s: string, lo: int, hi: int)
    requires 0 <= lo <= hi <= |s|
    ensures Upper(s)[lo..hi] == Upper(s[lo..hi])
  {
  }

  lemma LowerSlice(s: string, lo: int, hi: int)
    requires 0 <= lo <= hi <= |s|
    ensures Lower(s)[lo..hi] == Lower(s[lo..hi])
  {
  }

  lemma UpperConcat(a: string, b: string)
    ensures Upper(a + b) == Upper(a) + Upper(b)
  {
  }

  lemma UpperIdempotent(s: string)
    ensures Upper(Upper(s)) == Upper(s)
  {
  }

  lemma LowerIdempotent(s: string)
    ensures Lower(Lower(s)) == Lower(s)
  {
  }

  /** Number of occurrences of `c` in `s`. */
  function Occurrences(s: string, c: char): nat {
    if s == [] then 0 else (if s[0] == c then 1 else 0) + Occurrences(s[1..], c)
  }

  /** Index of the first `c` in `s`, or `|s|` when there is none. */
  function IndexOf(s: string, c: char): (k: nat)
    ensures k <= |s|
    ensures k < |s| ==> s[k] == c
    ensures forall i | 0 <= i < k :: s[i] != c
  {
    if s == [] then 0 else if s[0] == c then 0 else 1 + IndexOf(s[1..], c)
  }

  lemma {:induction false} OccurrencesConcat(a: string, b: string, c: char)
    ensures Occurrences(a + b, c) == Occurrences(a, c) + Occurrences(b, c)
  {
    if a != [] {
      assert (a + b)[1..] == a[1..] + b;
      OccurrencesConcat(a[1..], b, c);
    } else {
      assert a + b == b;
    }
  }

  lemma {:induction false} OccurrencesNone(s: string, c: char)
    ensures Occurrences(s, c) == 0 <==> forall i | 0 <= i < |s| :: s[i] != c
  {
    if s != [] {
      OccurrencesNone(s[1..], c);
      assert forall i | 1 <= i < |s| :: s[i] == s[1..][i - 1];
    }
  }
}
