/**
 * The string operations the plugin borrows from the JDK and Apache commons-lang:
 * upper-casing (`String.toUpperCase`), Java's notion of whitespace
 * (`Character.isWhitespace`) and stripping characters from both ends of a
 * string (`StringUtils.strip`).
 */
module Text {

  predicate IsLowerAscii(c: char) {
    'a' <= c <= 'z'
  }

  /** Upper-cases one character; only the ASCII letters change. */
  function UpperChar(c: char): (u: char)
    ensures !IsLowerAscii(u)
    ensures IsLowerAscii(c) ==> u as int == c as int - 32
    ensures !IsLowerAscii(c) ==> u == c
  {
    if IsLowerAscii(c) then (c as int - 32) as char else c
  }

  /** `String.toUpperCase`, restricted to ASCII letters. */
  function UpperCase(s: string): (r: string)
    ensures |r| == |s|
    ensures forall i :: 0 <= i < |s| ==> r[i] == UpperChar(s[i])
    ensures forall i :: 0 <= i < |r| ==> !IsLowerAscii(r[i])
  {
    if s == [] then [] else [UpperChar(s[0])] + UpperCase(s[1..])
  }

  /** Upper-casing leaves a string without lower-case letters unchanged; in particular it is idempotent. */
  lemma {:induction false} UpperCaseKeepsUpper(s: string)
    requires forall i :: 0 <= i < |s| ==> !IsLowerAscii(s[i])
    ensures UpperCase(s) == s
  {
    if s != [] {
      UpperCaseKeepsUpper(s[1..]);
    }
  }

  /** `String.equalsIgnoreCase`, restricted to ASCII letters. */
  predicate EqualsIgnoreCase(a: string, b: string) {
    UpperCase(a) == UpperCase(b)
  }

  /**
   * `Character.isWhitespace`: the Unicode space, line and paragraph separators
   * other than the non-breaking ones (U+00A0, U+2007, U+202F), and the control
   * characters U+0009 to U+000D and U+001C to U+001F.
   */
  predicate IsWhitespace(c: char) {
    || c == ' '
    || '\t' <= c <= '\r'
    || '\U{1C}' <= c <= '\U{1F}'
    || c == '\U{1680}'
    || ('\U{2000}' <= c <= '\U{200A}' && c != '\U{2007}')
    || c == '\U{2028}' || c == '\U{2029}'
    || c == '\U{205F}' || c == '\U{3000}'
  }

  /** The sets of characters the plugin strips from the ends of a URL. */
  datatype CharClass = Whitespace | Slash

  predicate InClass(c: char, cls: CharClass) {
    match cls
    case Whitespace => IsWhitespace(c)
    case Slash => c == '/'
  }

  /** Drops the leading characters that belong to `drop`. */
  function StripStart(s: string, drop: CharClass): string {
    if s != [] && InClass(s[0], drop) then StripStart(s[1..], drop) else s
  }

  /** Drops the trailing characters that belong to `drop`. */
  function StripEnd(s: string, drop: CharClass): string {
    if s != [] && InClass(s[|s| - 1], drop) then StripEnd(s[..|s| - 1], drop) else s
  }

  /** `StringUtils.strip`: drops the characters that belong to `drop` from both ends. */
  function Strip(s: string, drop: CharClass): string {
    StripEnd(StripStart(s, drop), drop)
  }

  /** `StripStart` removes a prefix made only of dropped characters, and no more. */
  lemma {:induction false} StripStartRemovesPrefix(s: string, drop: CharClass)
    ensures var r := StripStart(s, drop);
      && |r| <= |s| && r == s[|s| - |r|..]
      && (forall i :: 0 <= i < |s| - |r| ==> InClass(s[i], drop))
      && (r != [] ==> !InClass(r[0], drop))
  {
    if s != [] && InClass(s[0], drop) {
      StripStartRemovesPrefix(s[1..], drop);
    }
  }

  /** `StripEnd` removes a suffix made only of dropped characters, and no more. */
  lemma {:induction false} StripEndRemovesSuffix(s: string, drop: CharClass)
    ensures var r := StripEnd(s, drop);
      && |r| <= |s| && r == s[..|r|]
      && (forall i :: |r| <= i < |s| ==> InClass(s[i], drop))
      && (r != [] ==> !InClass(r[|r| - 1], drop))
  {
    if s != [] && InClass(s[|s| - 1], drop) {
      StripEndRemovesSuffix(s[..|s| - 1], drop);
    }
  }

  /**
   * What `Strip` leaves: neither end belongs to `drop`; the result is empty
   * exactly when every character is dropped; a string whose two ends are kept
   * comes back unchanged.
   */
  lemma StripKeepsMiddle(s: string, drop: CharClass)
    ensures |Strip(s, drop)| <= |s|
    ensures Strip(s, drop) != [] ==> !InClass(Strip(s, drop)[0], drop) && !InClass(Strip(s, drop)[|Strip(s, drop)| - 1], drop)
    ensures Strip(s, drop) == [] <==> forall i :: 0 <= i < |s| ==> InClass(s[i], drop)
    ensures s != [] && !InClass(s[0], drop) && !InClass(s[|s| - 1], drop) ==> Strip(s, drop) == s
  {
    StripStartRemovesPrefix(s, drop);
    var t := StripStart(s, drop);
    StripEndRemovesSuffix(t, drop);
    var r := StripEnd(t, drop);
    if r != [] {
      assert r[0] == t[0];
    }
  }
}
