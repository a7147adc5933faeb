/**
 * The player name `startGame` reads from the form:
 * `usernameInput.value.trim() || 'Player'` (script.js:119).
 */
module Names {

  const DefaultName: string := "Player"

  /** The characters `String.prototype.trim` removes: white space and line terminators. */
  predicate IsWhitespace(c: char)
  {
    c in {'\t', '\n', '\U{B}', '\U{C}', '\r', ' ', '\U{A0}', '\U{1680}',
          '\U{2000}', '\U{2001}', '\U{2002}', '\U{2003}', '\U{2004}', '\U{2005}',
          '\U{2006}', '\U{2007}', '\U{2008}', '\U{2009}', '\U{200A}',
          '\U{2028}', '\U{2029}', '\U{202F}', '\U{205F}', '\U{3000}', '\U{FEFF}'}
  }

  /** Drops the leading white space. */
  function TrimStart(s: string): (r: string)
    ensures |r| <= |s| && r == s[|s| - |r|..]
    ensures forall i :: 0 <= i < |s| - |r| ==> IsWhitespace(s[i])
    ensures r != [] ==> !IsWhitespace(r[0])
  {
    if s != [] && IsWhitespace(s[0]) then TrimStart(s[1..]) else s
  }

  /** Drops the trailing white space. */
  function TrimEnd(s: string): (r: string)
    ensures |r| <= |s| && r == s[..|r|]
    ensures forall i :: |r| <= i < |s| ==> IsWhitespace(s[i])
    ensures r != [] ==> !IsWhitespace(r[|r| - 1])
  {
    if s != [] && IsWhitespace(s[|s| - 1]) then TrimEnd(s[..|s| - 1]) else s
  }

  /** `String.prototype.trim`: empty exactly when the text is all white space. */
  function Trim(s: string): (r: string)
    ensures r == [] <==> forall i :: 0 <= i < |s| ==> IsWhitespace(s[i])
    ensures r != [] ==> !IsWhitespace(r[0]) && !IsWhitespace(r[|r| - 1])
  {
    TrimEnd(TrimStart(s))
  }

  /** The name shown and recorded for a run: the trimmed input, or "Player" when nothing is left. */
  function DisplayName(input: string): (r: string)
    ensures r != []
  {
    var t := Trim(input);
    if t == [] then DefaultName else t
  }

  /**
   * The name never starts or ends with white space; it is "Player" when the
   * input is all white space and the trimmed input otherwise.
   */
  lemma DisplayNameShape(input: string)
    ensures var r := DisplayName(input);
      !IsWhitespace(r[0]) && !IsWhitespace(r[|r| - 1]) &&
      ((forall i :: 0 <= i < |input| ==> IsWhitespace(input[i])) ==> r == DefaultName) &&
      (Trim(input) != [] ==> r == Trim(input))
  {
  }
}
