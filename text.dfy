/** String helpers shared by the whole model: the JavaScript string operations
    the application relies on (`includes`, `trim`, `toLowerCase`, template
    interpolation of numbers, and `<` on strings), stated over `seq<char>`. */
module Text {

  /** `p` is a prefix of `s`. */
  predicate StartsWith(s: string, p: string) {
    |p| <= |s| && s[..|p|] == p
  }

  /** JavaScript's `s.includes(sub)`: `sub` occurs somewhere in `s`. */
  predicate Contains(s: string, sub: string)
    decreases |s|
  {
    StartsWith(s, sub) || (|s| > 0 && Contains(s[1..], sub))
  }

  /** `Array.prototype.some` over a keyword list: some keyword occurs in `text`. */
  predicate ContainsAny(text: string, keywords: seq<string>) {
    exists i | 0 <= i < |keywords| :: Contains(text, keywords[i])
  }

  /** `sub` occurs in `s` exactly at offset `i`. */
  predicate MatchesAt(s: string, sub: string, i: int) {
    0 <= i && i + |sub| <= |s| && s[i..i + |sub|] == sub
  }

  /** The recursive definition of `Contains` agrees with "occurs at some offset". */
  lemma {:induction false} ContainsIffMatch(s: string, sub: string)
    ensures Contains(s, sub) <==> exists i :: MatchesAt(s, sub, i)
    decreases |s|
  {
    if StartsWith(s, sub) {
      assert MatchesAt(s, sub, 0);
    } else if |s| == 0 {
    } else {
      assert |sub| <= |s| ==> s[0..|sub|] == s[..|sub|];
      ContainsIffMatch(s[1..], sub);
      if Contains(s[1..], sub) {
        var i :| MatchesAt(s[1..], sub, i);
        assert s[i + 1..i + 1 + |sub|] == s[1..][i..i + |sub|];
        assert MatchesAt(s, sub, i + 1);
      }
      forall i | MatchesAt(s, sub, i) ensures Contains(s[1..], sub) {
        assert s[1..][i - 1..i - 1 + |sub|] == s[i..i + |sub|];
        assert MatchesAt(s[1..], sub, i - 1);
      }
    }
  }

  /** Every string contains itself. */
  lemma ContainsSelf(s: string)
    ensures Contains(s, s)
  {
    assert s[..|s|] == s;
  }

  /** Appending text on the right keeps an occurrence. */
  lemma {:induction false} ContainsAppendRight(a: string, b: string, sub: string)
    requires Contains(a, sub)
    ensures Contains(a + b, sub)
    decreases |a|
  {
    if StartsWith(a, sub) {
      assert (a + b)[..|sub|] == a[..|sub|];
    } else {
      assert (a + b)[1..] == a[1..] + b;
      ContainsAppendRight(a[1..], b, sub);
    }
  }

  /** Prepending text on the left keeps an occurrence. */
  lemma {:induction false} ContainsPrepend(a: string, b: string, sub: string)
    requires Contains(b, sub)
    ensures Contains(a + b, sub)
    decreases |a|
  {
    if |a| == 0 {
      assert a + b == b;
    } else {
      assert (a + b)[1..] == a[1..] + b;
      ContainsPrepend(a[1..], b, sub);
    }
  }

  /** A string contains every piece it is concatenated from. */
  lemma ContainsPiece(a: string, piece: string, b: string)
    ensures Contains(a + piece + b, piece)
  {
    ContainsSelf(piece);
    ContainsPrepend(a, piece, piece);
    ContainsAppendRight(a + piece, b, piece);
  }

  /** An occurrence inside an occurrence is an occurrence. */
  lemma ContainsTransitive(s: string, mid: string, sub: string)
    requires Contains(s, mid) && Contains(mid, sub)
    ensures Contains(s, sub)
  {
    ContainsIffMatch(s, mid);
    ContainsIffMatch(mid, sub);
    var j :| MatchesAt(s, mid, j);
    var m :| MatchesAt(mid, sub, m);
    forall k | 0 <= k < |sub| ensures s[j + m + k] == sub[k] {
      assert s[j + m + k] == s[j..j + |mid|][m + k];
      assert sub[k] == mid[m..m + |sub|][k];
    }
    assert s[j + m..j + m + |sub|] == sub;
    assert MatchesAt(s, sub, j + m);
    ContainsIffMatch(s, sub);
  }

  /** A non-empty `sub` whose first character never occurs in `s` does not occur in `s`. */
  lemma {:induction false} NotContainsIfHeadAbsent(s: string, sub: string)
    requires |sub| > 0 && sub[0] !in s
    ensures !Contains(s, sub)
    decreases |s|
  {
    if |s| > 0 {
      assert s[0] != sub[0];
      assert |sub| <= |s| ==> s[..|sub|][0] == s[0];
      assert forall c :: c in s[1..] ==> c in s;
      NotContainsIfHeadAbsent(s[1..], sub);
    }
  }

  /** No keyword of the list starts with a character of `text`, so none occurs in it. */
  lemma NoKeywordOccurs(text: string, keywords: seq<string>)
    requires forall i | 0 <= i < |keywords| :: |keywords[i]| > 0 && keywords[i][0] !in text
    ensures !ContainsAny(text, keywords)
  {
    forall i | 0 <= i < |keywords| ensures !Contains(text, keywords[i]) {
      NotContainsIfHeadAbsent(text, keywords[i]);
    }
  }

  // ---------------------------------------------------------------------------
  // String.prototype.trim

  /** The characters JavaScript's `trim` removes: WhiteSpace and LineTerminator
      (including the ideographic space U+3000 typed by Japanese keyboards). */
  predicate IsSpace(c: char) {
    c == ' ' || c == '\t' || c == '\n' || c == '\r' || c == '\U{000B}' || c == '\U{000C}'
    || c == '\U{00A0}' || c == '\U{1680}' || ('\U{2000}' <= c <= '\U{200A}')
    || c == '\U{2028}' || c == '\U{2029}' || c == '\U{202F}' || c == '\U{205F}'
    || c == '\U{3000}' || c == '\U{FEFF}'
  }

  predicate AllSpace(s: string) {
    forall i | 0 <= i < |s| :: IsSpace(s[i])
  }

  function TrimStart(s: string): string
    decreases |s|
  {
    if |s| > 0 && IsSpace(s[0]) then TrimStart(s[1..]) else s
  }

  function TrimEnd(s: string): string
    decreases |s|
  {
    if |s| > 0 && IsSpace(s[|s| - 1]) then TrimEnd(s[..|s| - 1]) else s
  }

  /** JavaScript's `s.trim()`. */
  function Trim(s: string): string {
    TrimEnd(TrimStart(s))
  }

  /** `TrimStart` drops a leading run of spaces: it leaves a suffix that is empty
      or starts with a non-space, and everything dropped was space. */
  lemma {:induction false} TrimStartShape(s: string)
    ensures |TrimStart(s)| <= |s|
    ensures TrimStart(s) == s[|s| - |TrimStart(s)|..]
    ensures AllSpace(s[..|s| - |TrimStart(s)|])
    ensures TrimStart(s) != [] ==> !IsSpace(TrimStart(s)[0])
    decreases |s|
  {
    if |s| > 0 && IsSpace(s[0]) {
      TrimStartShape(s[1..]);
      var k := |s| - |TrimStart(s)|;
      assert s[1..][k - 1..] == s[k..];
      forall i | 0 <= i < k ensures IsSpace(s[..k][i]) {
        if i > 0 { assert s[..k][i] == s[1..][..k - 1][i - 1]; }
      }
    }
  }

  /** `TrimEnd` drops a trailing run of spaces. */
  lemma {:induction false} TrimEndShape(s: string)
    ensures |TrimEnd(s)| <= |s|
    ensures TrimEnd(s) == s[..|TrimEnd(s)|]
    ensures AllSpace(s[|TrimEnd(s)|..])
    ensures TrimEnd(s) != [] ==> !IsSpace(TrimEnd(s)[|TrimEnd(s)| - 1])
    decreases |s|
  {
    if |s| > 0 && IsSpace(s[|s| - 1]) {
      var t := s[..|s| - 1];
      TrimEndShape(t);
      var k := |TrimEnd(s)|;
      assert t[..k] == s[..k];
      forall i | k <= i < |s| ensures IsSpace(s[i]) {
        if i < |s| - 1 { assert s[i] == t[k..][i - k]; }
      }
    }
  }

  /** `trim()` yields the empty string exactly when the input is all space: this is
      what "blank after trim" means for the answer box and the sign-up form. */
  lemma TrimEmptyIffBlank(s: string)
    ensures Trim(s) == [] <==> AllSpace(s)
  {
    TrimStartShape(s);
    var t := TrimStart(s);
    TrimEndShape(t);
    var k := |s| - |t|;
    if Trim(s) == [] {
      assert t[|TrimEnd(t)|..] == t;
      assert s[..k] == s;
    } else {
      assert !IsSpace(t[0]);
      assert t[0] == s[k];
    }
  }

  /** A trimmed string has no space at either end, and is no longer than the input. */
  lemma TrimmedEdges(s: string)
    ensures |Trim(s)| <= |s|
    ensures Trim(s) != [] ==> !IsSpace(Trim(s)[0]) && !IsSpace(Trim(s)[|Trim(s)| - 1])
  {
    var t := TrimStart(s);
    TrimStartShape(s);
    TrimEndShape(t);
    if Trim(s) != [] {
      assert Trim(s)[0] == t[0];
    }
  }

  // ---------------------------------------------------------------------------
  // String.prototype.toLowerCase, on the ASCII range

  function LowerChar(c: char): char {
    if 'A' <= c <= 'Z' then (c as int + 32) as char else c
  }

  /** `toLowerCase` restricted to ASCII letters: no capital letter is left, each
      capital becomes its small letter in place, and every other character stays. */
  function ToLower(s: string): (r: string)
    ensures |r| == |s|
    ensures forall i | 0 <= i < |r| :: !('A' <= r[i] <= 'Z')
    ensures forall i | 0 <= i < |s| :: !('A' <= s[i] <= 'Z') ==> r[i] == s[i]
    ensures forall i | 0 <= i < |s| :: 'A' <= s[i] <= 'Z' ==> 'a' <= r[i] <= 'z' && r[i] as int - 'a' as int == s[i] as int - 'A' as int
  {
    seq(|s|, i requires 0 <= i < |s| => LowerChar(s[i]))
  }

  /** A keyword without ASCII letters occurs in the lower-cased text
      exactly when it occurs in the text itself. The classifiers' keywords are all
      Japanese, so lower-casing never changes what they detect. */
  lemma {:induction false} LowerKeepsUncasedMatch(s: string, k: string)
    requires forall j | 0 <= j < |k| :: !('a' <= k[j] <= 'z') && !('A' <= k[j] <= 'Z')
    ensures Contains(ToLower(s), k) <==> Contains(s, k)
    decreases |s|
  {
    var l := ToLower(s);
    assert StartsWith(l, k) <==> StartsWith(s, k) by {
      if |k| <= |s| {
        if s[..|k|] == k {
          forall j | 0 <= j < |k| ensures l[..|k|][j] == k[j] {
            assert s[j] == k[j];
          }
        }
        if l[..|k|] == k {
          forall j | 0 <= j < |k| ensures s[..|k|][j] == k[j] {
            assert l[j] == k[j];
          }
        }
      }
    }
    if |s| > 0 {
      assert l[1..] == ToLower(s[1..]);
      LowerKeepsUncasedMatch(s[1..], k);
    }
  }

  // ---------------------------------------------------------------------------
  // Decimal rendering of integers, as template literals print them

  function DigitChar(d: nat): char
    requires d < 10
  {
    "0123456789"[d]
  }

  function DigitValue(c: char): int {
    c as int - '0' as int
  }

  /** `${n}` for a non-negative integer. */
  function NatToString(n: nat): string
    decreases n
  {
    if n < 10 then [DigitChar(n)] else NatToString(n / 10) + [DigitChar(n % 10)]
  }

  predicate IsDigit(c: char) {
    '0' <= c <= '9'
  }

  /** Numbers below 100 print as at most two digits. */
  lemma NatToStringShort(n: nat)
    requires n < 100
    ensures |NatToString(n)| <= 2
  {
    if n >= 10 {
      assert NatToString(n / 10) == [DigitChar(n / 10)];
    }
  }

  /** A run of digits inside text whose surroundings have no digits lies within the
      digit part: an occurrence of a string that starts and ends with a digit is
      confined to `d` in `a + d + b`. */
  lemma DigitRunConfined(a: string, d: string, b: string, sub: string)
    requires |sub| > 0 && IsDigit(sub[0]) && IsDigit(sub[|sub| - 1])
    requires forall c | c in a :: !IsDigit(c)
    requires forall c | c in b :: !IsDigit(c)
    ensures forall i | MatchesAt(a + d + b, sub, i) :: |a| <= i && i + |sub| <= |a| + |d|
  {
    var s := a + d + b;
    forall k | 0 <= k < |a| ensures !IsDigit(s[k]) {
      assert s[k] == a[k] && a[k] in a;
    }
    forall k | |a| + |d| <= k < |s| ensures !IsDigit(s[k]) {
      assert s[k] == b[k - |a| - |d|] && b[k - |a| - |d|] in b;
    }
    forall i | MatchesAt(s, sub, i) ensures |a| <= i && i + |sub| <= |a| + |d| {
      assert IsDigit(s[i]) by {
        assert s[i] == s[i..i + |sub|][0];
      }
      assert IsDigit(s[i + |sub| - 1]) by {
        assert s[i + |sub| - 1] == s[i..i + |sub|][|sub| - 1];
      }
    }
  }

  /** `${i}` for any integer. */
  function IntToString(i: int): string {
    if i < 0 then "-" + NatToString(-i) else NatToString(i)
  }

  /** The value of a string of decimal digits. */
  function DecimalValue(s: string): int
    decreases |s|
  {
    if |s| == 0 then 0 else 10 * DecimalValue(s[..|s| - 1]) + DigitValue(s[|s| - 1])
  }

  /** Rendering a number in decimal and reading it back gives the number. */
  lemma {:induction false} NatToStringRoundTrip(n: nat)
    ensures |NatToString(n)| > 0
    ensures forall j | 0 <= j < |NatToString(n)| :: '0' <= NatToString(n)[j] <= '9'
    ensures DecimalValue(NatToString(n)) == n
    decreases n
  {
    var q, d := n / 10, n % 10;
    DigitCharFacts(d);
    if n >= 10 {
      NatToStringRoundTrip(q);
      var prefix := NatToString(q);
      var s := prefix + [DigitChar(d)];
      assert s[..|s| - 1] == prefix;
      assert DecimalValue(s) == 10 * q + d;
    }
  }

  /** Each digit character is a decimal digit with its own value. */
  lemma DigitCharFacts(d: nat)
    requires d < 10
    ensures '0' <= DigitChar(d) <= '9' && DigitValue(DigitChar(d)) == d
  {
    assert d == 0 || d == 1 || d == 2 || d == 3 || d == 4 || d == 5 || d == 6 || d == 7 || d == 8 || d == 9;
  }

  // ---------------------------------------------------------------------------
  // String comparison with `<`

  /** JavaScript's `a < b` on strings: lexicographic order by character code. */
  predicate LexLess(a: string, b: string)
    decreases |a|
  {
    |b| > 0 && (|a| == 0 || a[0] < b[0] || (a[0] == b[0] && LexLess(a[1..], b[1..])))
  }

  /** No string is below itself. */
  lemma {:induction false} LexLessIrreflexive(a: string)
    ensures !LexLess(a, a)
    decreases |a|
  {
    if |a| > 0 { LexLessIrreflexive(a[1..]); }
  }

  /** Lexicographic order is a strict order: it never holds both ways. */
  lemma {:induction false} LexLessAsymmetric(a: string, b: string)
    ensures !(LexLess(a, b) && LexLess(b, a))
    decreases |a|
  {
    if |a| > 0 && |b| > 0 && a[0] == b[0] {
      LexLessAsymmetric(a[1..], b[1..]);
    }
  }

  // ---------------------------------------------------------------------------
  // Template literals and Array.prototype.join

  /** The text of a template literal given as its pieces in order. */
  function Concat(parts: seq<string>): string
    decreases |parts|
  {
    if parts == [] then "" else parts[0] + Concat(parts[1..])
  }

  /** Each piece of a template literal occurs in the text it produces. */
  lemma {:induction false} ConcatContainsPart(parts: seq<string>, i: nat)
    requires i < |parts|
    ensures Contains(Concat(parts), parts[i])
    decreases |parts|
  {
    if i == 0 {
      ContainsSelf(parts[0]);
      ContainsAppendRight(parts[0], Concat(parts[1..]), parts[0]);
    } else {
      ConcatContainsPart(parts[1..], i - 1);
      ContainsPrepend(parts[0], Concat(parts[1..]), parts[i]);
    }
  }

  /** Whatever occurs in a piece occurs in the whole text. */
  lemma ConcatContainsWithin(parts: seq<string>, i: nat, sub: string)
    requires i < |parts| && Contains(parts[i], sub)
    ensures Contains(Concat(parts), sub)
  {
    ConcatContainsPart(parts, i);
    ContainsTransitive(Concat(parts), parts[i], sub);
  }

  /** A template literal starts with its first piece. */
  lemma ConcatStartsWithFirst(parts: seq<string>)
    requires |parts| > 0
    ensures StartsWith(Concat(parts), parts[0])
  {
    assert Concat(parts)[..|parts[0]|] == parts[0];
  }

  /** `parts.join(sep)`. */
  function Join(parts: seq<string>, sep: string): string
    decreases |parts|
  {
    if |parts| == 0 then ""
    else if |parts| == 1 then parts[0]
    else parts[0] + sep + Join(parts[1..], sep)
  }

  /** Every element of a joined list occurs in the joined text. */
  lemma {:induction false} JoinContainsElement(parts: seq<string>, sep: string, i: nat)
    requires i < |parts|
    ensures Contains(Join(parts, sep), parts[i])
    decreases |parts|
  {
    if |parts| == 1 {
      ContainsSelf(parts[0]);
    } else if i == 0 {
      ContainsSelf(parts[0]);
      ContainsAppendRight(parts[0], sep + Join(parts[1..], sep), parts[0]);
      assert parts[0] + sep + Join(parts[1..], sep) == parts[0] + (sep + Join(parts[1..], sep));
    } else {
      JoinContainsElement(parts[1..], sep, i - 1);
      ContainsPrepend(parts[0] + sep, Join(parts[1..], sep), parts[i]);
    }
  }
}
