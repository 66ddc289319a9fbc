/**
 * The string operations the routes and the pricing service apply to user input:
 * Python's `str.strip()`, `str.upper()`, `str.lower()` and `str.split(",")`. Stripping
 * removes all of Python's whitespace; case mapping covers the ASCII letters only.
 */
module Text {

  /**
   * The characters Python's `str.isspace()` accepts, which `str.strip()` removes: tab through
   * carriage return, the four information separators, space, and the Unicode spaces.
   */
  predicate IsSpace(c: char) {
    '\U{09}' <= c <= '\U{0D}' || '\U{1C}' <= c <= '\U{20}' || c == '\U{85}' || c == '\U{A0}' ||
    c == '\U{1680}' || '\U{2000}' <= c <= '\U{200A}' || c == '\U{2028}' || c == '\U{2029}' ||
    c == '\U{202F}' || c == '\U{205F}' || c == '\U{3000}'
  }

  predicate AllSpace(s: string) {
    forall i :: 0 <= i < |s| ==> IsSpace(s[i])
  }

  function TrimLeft(s: string): (r: string)
    ensures |r| <= |s| && r == s[|s| - |r|..]
    ensures r == [] || !IsSpace(r[0])
  {
    if s != [] && IsSpace(s[0]) then TrimLeft(s[1..]) else s
  }

  function TrimRight(s: string): (r: string)
    ensures |r| <= |s| && r == s[..|r|]
    ensures r == [] || !IsSpace(r[|r| - 1])
  {
    if s != [] && IsSpace(s[|s| - 1]) then TrimRight(s[..|s| - 1]) else s
  }

  /** Python's `s.strip()`. */
  function Strip(s: string): string {
    TrimRight(TrimLeft(s))
  }

  /** What TrimLeft removes is whitespace. */
  lemma {:induction false} TrimLeftRemovesSpace(s: string, k: nat)
    requires k < |s| - |TrimLeft(s)|
    ensures IsSpace(s[k])
    decreases |s|
  {
    if k > 0 {
      TrimLeftRemovesSpace(s[1..], k - 1);
    }
  }

  /** What TrimRight removes is whitespace. */
  lemma {:induction false} TrimRightRemovesSpace(s: string, k: nat)
    requires |TrimRight(s)| <= k < |s|
    ensures IsSpace(s[k])
    decreases |s|
  {
    if k < |s| - 1 {
      TrimRightRemovesSpace(s[..|s| - 1], k);
    }
  }

  /** What TrimRight removes from a suffix is whitespace. */
  lemma TrailingSpaceOfSuffix(s: string, i: nat, k: nat)
    requires i <= |s| && i + |TrimRight(s[i..])| <= k < |s|
    ensures IsSpace(s[k])
  {
    TrimRightRemovesSpace(s[i..], k - i);
    assert s[i..][k - i] == s[k];
  }

  /** Strip yields a slice of its input with no whitespace at either end. */
  lemma StripIsSlice(s: string)
    ensures Strip(s) == [] || (!IsSpace(Strip(s)[0]) && !IsSpace(Strip(s)[|Strip(s)| - 1]))
    ensures var i := |s| - |TrimLeft(s)|; i + |Strip(s)| <= |s| && Strip(s) == s[i..i + |Strip(s)|]
  {
    var l := TrimLeft(s);
    var r := TrimRight(l);
    var i := |s| - |l|;
    if r != [] {
      assert r[0] == l[0];
    }
    calc {
      r;
      l[..|r|];
      s[i..][..|r|];
      s[i..i + |r|];
    }
  }

  /** Strip removes whitespace from both ends and nothing else: the result is the slice
      s[i..i + |Strip(s)|], and every character before or after that slice is whitespace. */
  lemma StripSpec(s: string) returns (i: nat)
    ensures Strip(s) == [] || (!IsSpace(Strip(s)[0]) && !IsSpace(Strip(s)[|Strip(s)| - 1]))
    ensures i + |Strip(s)| <= |s| && Strip(s) == s[i..i + |Strip(s)|]
    ensures forall k :: 0 <= k < i ==> IsSpace(s[k])
    ensures forall k :: i + |Strip(s)| <= k < |s| ==> IsSpace(s[k])
  {
    i := |s| - |TrimLeft(s)|;
    StripIsSlice(s);
    assert TrimLeft(s) == s[i..];
    forall k | 0 <= k < i ensures IsSpace(s[k]) {
      TrimLeftRemovesSpace(s, k);
    }
    forall k | i + |Strip(s)| <= k < |s| ensures IsSpace(s[k]) {
      TrailingSpaceOfSuffix(s, i, k);
    }
  }

  lemma {:induction false} TrimLeftOfUnspaced(s: string)
    requires s == [] || !IsSpace(s[0])
    ensures TrimLeft(s) == s
  {
  }

  lemma {:induction false} TrimRightOfUnspaced(s: string)
    requires s == [] || !IsSpace(s[|s| - 1])
    ensures TrimRight(s) == s
  {
  }

  /** Stripping twice is stripping once. */
  lemma StripIdempotent(s: string)
    ensures Strip(Strip(s)) == Strip(s)
  {
    var r := Strip(s);
    var _ := StripSpec(s);
    TrimLeftOfUnspaced(r);
    TrimRightOfUnspaced(r);
  }

  /** A string is blank after stripping exactly when it is all whitespace. */
  lemma BlankIffAllSpace(s: string)
    ensures Strip(s) == [] <==> AllSpace(s)
  {
    var i := StripSpec(s);
    if Strip(s) != [] {
      assert s[i] == Strip(s)[0];
    }
  }

  function UpperChar(c: char): char {
    if 'a' <= c <= 'z' then (c as int - 32) as char else c
  }

  function LowerChar(c: char): char {
    if 'A' <= c <= 'Z' then (c as int + 32) as char else c
  }

  /** Python's `s.upper()` on ASCII letters. */
  function Upper(s: string): (r: string)
    ensures |r| == |s|
    ensures forall i :: 0 <= i < |s| ==> r[i] == UpperChar(s[i])
  {
    seq(|s|, i requires 0 <= i < |s| => UpperChar(s[i]))
  }

  /** Python's `s.lower()` on ASCII letters. */
  function Lower(s: string): (r: string)
    ensures |r| == |s|
    ensures forall i :: 0 <= i < |s| ==> r[i] == LowerChar(s[i])
  {
    seq(|s|, i requires 0 <= i < |s| => LowerChar(s[i]))
  }

  lemma UpperIdempotent(s: string)
    ensures Upper(Upper(s)) == Upper(s)
  {
  }

  lemma UpperCharKeepsSpace(c: char)
    ensures IsSpace(UpperChar(c)) <==> IsSpace(c)
  {
  }

  lemma {:induction false} TrimLeftUpper(s: string)
    ensures TrimLeft(Upper(s)) == Upper(TrimLeft(s))
    decreases |s|
  {
    if s != [] {
      var u := Upper(s);
      UpperCharKeepsSpace(s[0]);
      assert u[0] == UpperChar(s[0]);
      if IsSpace(s[0]) {
        assert u[1..] == Upper(s[1..]);
        TrimLeftUpper(s[1..]);
      }
    }
  }

  lemma {:induction false} TrimRightUpper(s: string)
    ensures TrimRight(Upper(s)) == Upper(TrimRight(s))
    decreases |s|
  {
    if s != [] {
      var u := Upper(s);
      UpperCharKeepsSpace(s[|s| - 1]);
      assert u[|s| - 1] == UpperChar(s[|s| - 1]);
      if IsSpace(s[|s| - 1]) {
        assert u[..|s| - 1] == Upper(s[..|s| - 1]);
        TrimRightUpper(s[..|s| - 1]);
      }
    }
  }

  /** Upper-casing and stripping commute, because case mapping never creates or removes whitespace. */
  lemma StripUpperCommute(s: string)
    ensures Strip(Upper(s)) == Upper(Strip(s))
  {
    TrimLeftUpper(s);
    TrimRightUpper(TrimLeft(s));
  }

  /** `s.strip().upper()`, the canonical form of a ticker symbol. */
  function CanonicalSymbol(s: string): string {
    Upper(Strip(s))
  }

  /** A canonical symbol is its own canonical form, so looking it up again finds the same key. */
  lemma CanonicalSymbolIdempotent(s: string)
    ensures CanonicalSymbol(CanonicalSymbol(s)) == CanonicalSymbol(s)
  {
    StripUpperCommute(Strip(s));
    StripIdempotent(s);
    UpperIdempotent(Strip(s));
  }

  /** Python's `s.split(sep)`: the pieces between separators, always at least one. */
  function Split(s: string, sep: char): (r: seq<string>)
    ensures |r| >= 1
    ensures forall k, i :: 0 <= k < |r| && 0 <= i < |r[k]| ==> r[k][i] != sep
  {
    if s == [] then [[]]
    else
      var rest := Split(s[1..], sep);
      if s[0] == sep then [[]] + rest else [[s[0]] + rest[0]] + rest[1..]
  }

  /** Python's `sep.join(parts)`. */
  function Join(parts: seq<string>, sep: char): string
  {
    if parts == [] then []
    else if |parts| == 1 then parts[0]
    else parts[0] + [sep] + Join(parts[1..], sep)
  }

  /** Splitting loses nothing: joining the pieces back gives the input. */
  lemma {:induction false} JoinSplit(s: string, sep: char)
    ensures Join(Split(s, sep), sep) == s
    decreases |s|
  {
    if s != [] {
      var rest := Split(s[1..], sep);
      JoinSplit(s[1..], sep);
      if s[0] == sep {
        assert Split(s, sep) == [[]] + rest;
      } else {
        var parts := Split(s, sep);
        assert parts == [[s[0]] + rest[0]] + rest[1..];
        if |rest| == 1 {
          assert Join(parts, sep) == [s[0]] + rest[0];
        } else {
          assert parts[1..] == rest[1..];
          assert Join(rest, sep) == rest[0] + [sep] + Join(rest[1..], sep);
        }
      }
    }
  }
}
