/**
 * The JavaScript string operations the pages rely on, over Dafny strings:
 * `trim`, `startsWith`, `includes`, `slice`, and the address shortening
 * `formatAddress` shared by the battle list and the leaderboard.
 */
module Text {

  /**
   * The characters `String.prototype.trim` removes: ECMAScript WhiteSpace
   * (TAB, VT, FF, ZWNBSP and every space separator) and LineTerminator
   * (LF, CR, LS, PS), sections 12.2 and 12.3 of ECMA-262.
   */
  predicate IsWhitespace(c: char) {
    || c == '\t' || c == '\n' || c == '\U{000B}' || c == '\U{000C}' || c == '\r'
    || c == ' ' || c == '\U{00A0}' || c == '\U{1680}'
    || ('\U{2000}' <= c <= '\U{200A}')
    || c == '\U{2028}' || c == '\U{2029}' || c == '\U{202F}' || c == '\U{205F}'
    || c == '\U{3000}' || c == '\U{FEFF}'
  }

  /** A string made of whitespace only (the empty string included). */
  predicate IsBlank(s: string) {
    forall i :: 0 <= i < |s| ==> IsWhitespace(s[i])
  }

  /** Drops the leading whitespace: what is dropped is blank, what is kept starts with a non-whitespace character. */
  function TrimStart(s: string): (r: string)
    ensures |r| <= |s| && r == s[|s| - |r|..]
    ensures IsBlank(s[..|s| - |r|])
    ensures r == [] || !IsWhitespace(r[0])
  {
    if s != [] && IsWhitespace(s[0]) then TrimStart(s[1..]) else s
  }

  /** Drops the trailing whitespace: what is dropped is blank, what is kept ends with a non-whitespace character. */
  function TrimEnd(s: string): (r: string)
    ensures |r| <= |s| && r == s[..|r|]
    ensures IsBlank(s[|r|..])
    ensures r == [] || !IsWhitespace(r[|r| - 1])
  {
    if s != [] && IsWhitespace(s[|s| - 1]) then TrimEnd(s[..|s| - 1]) else s
  }

  /** `s.trim()`: no whitespace is left at either end. */
  function Trim(s: string): (r: string)
    ensures |r| <= |s|
    ensures r == [] || (!IsWhitespace(r[0]) && !IsWhitespace(r[|r| - 1]))
  {
    TrimEnd(TrimStart(s))
  }

  /** `s.trim()` is a contiguous piece of `s`, and only whitespace is cut off on either side. */
  lemma TrimIsInfix(s: string) returns (k: nat)
    ensures k + |Trim(s)| <= |s| && Trim(s) == s[k..k + |Trim(s)|]
    ensures IsBlank(s[..k]) && IsBlank(s[k + |Trim(s)|..])
  {
    var t := TrimStart(s);
    var r := TrimEnd(t);
    k := |s| - |t|;
    assert r == s[k..k + |r|];
    assert s[k + |r|..] == t[|r|..];
  }

  /**
   * JavaScript's `length`: the number of UTF-16 code units, one for a
   * character up to U+FFFF and two (a surrogate pair) above.
   */
  function Utf16Length(s: string): (r: nat)
    ensures |s| <= r <= 2 * |s|
  {
    if s == [] then 0
    else (if s[0] as int > 0xFFFF then 2 else 1) + Utf16Length(s[1..])
  }

  /** A string of characters up to U+FFFF has one code unit per character. */
  lemma {:induction false} Utf16LengthBmp(s: string)
    requires forall i :: 0 <= i < |s| ==> s[i] as int <= 0xFFFF
    ensures Utf16Length(s) == |s|
  {
    if s != [] {
      assert forall i :: 0 <= i < |s[1..]| ==> s[1..][i] == s[i + 1];
      Utf16LengthBmp(s[1..]);
    }
  }

  /** Trimming a string of characters up to U+FFFF keeps one code unit per character. */
  lemma TrimmedBmpLength(s: string)
    requires forall i :: 0 <= i < |s| ==> s[i] as int <= 0xFFFF
    ensures Utf16Length(Trim(s)) == |Trim(s)|
  {
    var k := TrimIsInfix(s);
    var t := Trim(s);
    assert forall i :: 0 <= i < |t| ==> t[i] == s[k + i];
    Utf16LengthBmp(t);
  }

  /** An emoji above U+FFFF, such as U+1F600, has length 2 in JavaScript. */
  lemma AstralCharIsTwoUnits()
    ensures Utf16Length("\U{1F600}") == 2
  {
    assert "\U{1F600}"[1..] == [];
  }

  /** `s.trim()` is empty (falsy in JavaScript) exactly when `s` is blank. */
  lemma {:induction false} TrimEmptyIffBlank(s: string)
    ensures Trim(s) == [] <==> IsBlank(s)
  {
    var t := TrimStart(s);
    var k := |s| - |t|;
    if Trim(s) == [] {
      assert IsBlank(t[0..]);
      forall i | 0 <= i < |s| ensures IsWhitespace(s[i]) {
        if i < k {
          assert s[..k][i] == s[i];
        } else {
          assert t[i - k] == s[i];
        }
      }
    } else {
      var c := Trim(s)[0];
      assert Trim(s) == t[..|Trim(s)|];
      assert c == t[0] == s[k];
    }
  }

  /** `s.startsWith(p)`. */
  predicate StartsWith(s: string, p: string) {
    |p| <= |s| && s[..|p|] == p
  }

  /**
   * Trimming keeps a prefix that contains no whitespace: if `s` starts with
   * `p`, so does `s.trim()`.
   */
  lemma TrimKeepsPrefix(s: string, p: string)
    requires StartsWith(s, p) && p != []
    requires forall i :: 0 <= i < |p| ==> !IsWhitespace(p[i])
    ensures StartsWith(Trim(s), p)
  {
    assert s[0] == p[0];
    assert TrimStart(s) == s;
    assert s[..|p|][|p| - 1] == s[|p| - 1];
    TrimEndKeeps(s, |p| - 1);
    var r := TrimEnd(s);
    assert r[..|p|] == s[..|p|];
  }

  /** `TrimEnd` never drops a non-whitespace character nor anything before it. */
  lemma {:induction false} TrimEndKeeps(s: string, j: nat)
    requires j < |s| && !IsWhitespace(s[j])
    ensures |TrimEnd(s)| > j
  {
    if IsWhitespace(s[|s| - 1]) {
      TrimEndKeeps(s[..|s| - 1], j);
    }
  }

  /** `s.includes(sub)`: `sub` occurs in `s` at some position. */
  predicate Contains(s: string, sub: string)
    decreases |s|
  {
    StartsWith(s, sub) || (s != [] && Contains(s[1..], sub))
  }

  /** An occurrence of `sub` at position `i` makes `s.includes(sub)` true. */
  lemma {:induction false} ContainsAt(s: string, sub: string, i: nat)
    requires i + |sub| <= |s| && s[i..i + |sub|] == sub
    ensures Contains(s, sub)
    decreases i
  {
    if i == 0 {
      assert s[..|sub|] == sub;
    } else {
      assert s[1..][i - 1..i - 1 + |sub|] == s[i..i + |sub|];
      ContainsAt(s[1..], sub, i - 1);
    }
  }

  function Min(a: nat, b: nat): nat {
    if a <= b then a else b
  }

  /** `s.slice(0, n)` for n >= 0: the first n characters, or all of a shorter string. */
  function Head(s: string, n: nat): (r: string)
    ensures |r| == Min(n, |s|) && r == s[..|r|]
  {
    s[..Min(n, |s|)]
  }

  /** `s.slice(-n)` for n > 0: the last n characters, or all of a shorter string. */
  function Tail(s: string, n: nat): (r: string)
    ensures |r| == Min(n, |s|) && r == s[|s| - |r|..]
  {
    s[|s| - Min(n, |s|)..]
  }

  /** The all-zero address the contract uses for "no opponent" / "no winner". */
  const ZeroAddress: string := "0x0000000000000000000000000000000000000000"

  /** The zero address is a 42-character "0x" address. */
  lemma ZeroAddressIsHex()
    ensures |ZeroAddress| == 42 && StartsWith(ZeroAddress, "0x")
  {
    assert ZeroAddress[0] == '0' && ZeroAddress[1] == 'x';
    assert ZeroAddress[..2] == "0x";
  }

  /** `formatAddress`: the first 6 characters, "...", the last 4 characters. */
  function FormatAddress(address: string): (r: string)
    ensures |r| == Min(6, |address|) + 3 + Min(4, |address|)
    ensures StartsWith(r, Head(address, 6))
    ensures r[Min(6, |address|)..Min(6, |address|) + 3] == "..."
    ensures r[|r| - Min(4, |address|)..] == Tail(address, 4)
  {
    Head(address, 6) + "..." + Tail(address, 4)
  }

  /**
   * For a full 42-character address the label is 13 characters long and
   * shows "0x" and the next 4 hex digits, then the last 4 hex digits.
   */
  lemma FormatFullAddress(address: string)
    requires |address| == 42
    ensures |FormatAddress(address)| == 13
    ensures FormatAddress(address)[..6] == address[..6]
    ensures FormatAddress(address)[9..] == address[38..]
  {
  }

  /**
   * Addresses of fewer than 10 characters are not shortened: both visible
   * parts overlap, e.g. "0x12" is shown as "0x12...0x12".
   */
  lemma FormatShortAddress()
    ensures FormatAddress("0x12") == "0x12...0x12"
  {
  }
}
