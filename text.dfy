/** String helpers for the JavaScript string operations the client uses.
    A string is a sequence of Unicode scalar values (`char`), not of UTF-16
    code units; case mapping and white space are modelled on ASCII only. */
module Text {

  function Min(a: int, b: int): int { if a <= b then a else b }

  /** `s.endsWith(suffix)` */
  predicate EndsWith(s: string, suffix: string) {
    |suffix| <= |s| && s[|s| - |suffix|..] == suffix
  }

  predicate IsLower(c: char) { 'a' <= c <= 'z' }
  predicate IsUpper(c: char) { 'A' <= c <= 'Z' }
  predicate IsDigit(c: char) { '0' <= c <= '9' }

  /** ASCII upper-casing of one character. */
  function UpperChar(c: char): (u: char)
    ensures IsLower(c) ==> IsUpper(u) && u as int == c as int - 32
    ensures !IsLower(c) ==> u == c
  {
    if IsLower(c) then (c as int - 32) as char else c
  }

  /** `s.toUpperCase()`: maps every character, keeping the length. */
  function Upper(s: string): (u: string)
    ensures |u| == |s|
    ensures forall i :: 0 <= i < |s| ==> u[i] == UpperChar(s[i])
  {
    seq(|s|, i requires 0 <= i < |s| => UpperChar(s[i]))
  }

  /** Upper-casing a string that has no lower-case letter changes nothing. */
  lemma UpperNoLower(s: string)
    requires forall i :: 0 <= i < |s| ==> !IsLower(s[i])
    ensures Upper(s) == s
  {
  }

  /** The white-space characters `String.prototype.trim` removes (ASCII part). */
  predicate IsSpace(c: char) {
    c == ' ' || c == '\t' || c == '\n' || c == '\r' || c == '\U{B}' || c == '\U{C}'
  }

  /** `s.trimStart()` */
  function TrimStart(s: string): (t: string)
    ensures |t| <= |s|
  {
    if s != [] && IsSpace(s[0]) then TrimStart(s[1..]) else s
  }

  /** `s.trimEnd()` */
  function TrimEnd(s: string): (t: string)
    ensures |t| <= |s|
  {
    if s != [] && IsSpace(s[|s| - 1]) then TrimEnd(s[..|s| - 1]) else s
  }

  /** `s.trim()` */
  function Trim(s: string): string {
    TrimEnd(TrimStart(s))
  }

  /** Trimming the start drops exactly the leading white space: the result
      is a suffix, everything dropped is blank, and it starts with a
      non-blank character unless empty. */
  lemma {:induction false} TrimStartShape(s: string)
    ensures TrimStart(s) == s[|s| - |TrimStart(s)|..]
    ensures TrimStart(s) != [] ==> !IsSpace(TrimStart(s)[0])
    ensures forall i :: 0 <= i < |s| - |TrimStart(s)| ==> IsSpace(s[i])
  {
    if s != [] && IsSpace(s[0]) {
      TrimStartShape(s[1..]);
      assert s[1..][|s| - 1 - |TrimStart(s)|..] == s[|s| - |TrimStart(s)|..];
      forall i | 0 <= i < |s| - |TrimStart(s)| ensures IsSpace(s[i]) {
        if i > 0 {
          assert s[i] == s[1..][i - 1];
        }
      }
    }
  }

  /** Trimming the end drops exactly the trailing white space. */
  lemma {:induction false} TrimEndShape(s: string)
    ensures TrimEnd(s) == s[..|TrimEnd(s)|]
    ensures TrimEnd(s) != [] ==> !IsSpace(TrimEnd(s)[|TrimEnd(s)| - 1])
    ensures forall i :: |TrimEnd(s)| <= i < |s| ==> IsSpace(s[i])
  {
    if s != [] && IsSpace(s[|s| - 1]) {
      var init := s[..|s| - 1];
      TrimEndShape(init);
      assert init[..|TrimEnd(s)|] == s[..|TrimEnd(s)|];
      forall i | |TrimEnd(s)| <= i < |s| ensures IsSpace(s[i]) {
        if i < |s| - 1 {
          assert s[i] == init[i];
        }
      }
    }
  }

  /** The trimmed string is non-empty exactly when the string holds a
      character that is not white space. */
  lemma TrimNonEmptyIff(s: string)
    ensures |Trim(s)| > 0 <==> exists i :: 0 <= i < |s| && !IsSpace(s[i])
  {
    var a := TrimStart(s);
    TrimStartShape(s);
    TrimEndShape(a);
    var k := |s| - |a|;
    if |Trim(s)| > 0 {
      assert Trim(s)[0] == a[0] == s[k];
    }
  }

  /** Lexicographic order on characters. It agrees with JavaScript's `<`
      on strings without characters above U+FFFF, such as the ASCII ISO
      dates it is used on, where it is chronological order. */
  predicate LexLess(a: string, b: string) {
    if a == [] then b != []
    else if b == [] then false
    else if a[0] != b[0] then a[0] < b[0]
    else LexLess(a[1..], b[1..])
  }

  /** Two strings that agree up to position `k` and differ there are ordered
      by their characters at `k`. */
  lemma {:induction false} LexLessAt(a: string, b: string, k: nat)
    requires k < |a| && k < |b|
    requires a[..k] == b[..k] && a[k] < b[k]
    ensures LexLess(a, b)
  {
    if k > 0 {
      assert a[0] == a[..k][0] == b[..k][0] == b[0];
      assert a[1..][..k - 1] == a[1..k] == a[..k][1..];
      assert b[1..][..k - 1] == b[1..k] == b[..k][1..];
      LexLessAt(a[1..], b[1..], k - 1);
    }
  }
}
