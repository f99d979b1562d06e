/** The built-in string operations of Python that the suggestion handler relies on:
    `str.lower`, `str.title`, the substring test `needle in haystack` and the truthiness
    of a string that may be `None`. Only ASCII letters have a case here. */
module Text {
  import opened Wrappers

  predicate IsUpper(c: char) { 'A' <= c <= 'Z' }
  predicate IsLower(c: char) { 'a' <= c <= 'z' }

  /** A character that has an upper- and a lower-case form. */
  predicate IsCased(c: char) { IsUpper(c) || IsLower(c) }

  function ToLower(c: char): (r: char)
    ensures !IsUpper(r)
    ensures IsCased(r) == IsCased(c)
    ensures IsUpper(c) ==> r as int == c as int + 32
    ensures !IsUpper(c) ==> r == c
  {
    if IsUpper(c) then (c as int + 32) as char else c
  }

  function ToUpper(c: char): (r: char)
    ensures !IsLower(r)
    ensures IsCased(r) == IsCased(c)
    ensures IsLower(c) ==> r as int == c as int - 32
    ensures !IsLower(c) ==> r == c
  {
    if IsLower(c) then (c as int - 32) as char else c
  }

  /** Python truthiness of a value that is either `None` or a string:
      only a non-empty string is true. */
  predicate Present(s: Option<string>) {
    s.Some? && s.value != ""
  }

  /** `s.lower()`: every character lower-cased, nothing else changed. */
  function Lower(s: string): (r: string)
    ensures |r| == |s|
    ensures forall i :: 0 <= i < |s| ==> r[i] == ToLower(s[i])
  {
    if s == [] then [] else [ToLower(s[0])] + Lower(s[1..])
  }

  predicate NoUpper(s: string) {
    forall i :: 0 <= i < |s| ==> !IsUpper(s[i])
  }

  /** Lower-casing leaves no upper-case letter and is idempotent. */
  lemma LowerIsLowerCase(s: string)
    ensures NoUpper(Lower(s))
    ensures Lower(Lower(s)) == Lower(s)
    ensures NoUpper(s) ==> Lower(s) == s
  {
  }

  /** `needle` occurs in `haystack` starting at index `i`. */
  ghost predicate OccursAt(haystack: string, needle: string, i: int) {
    0 <= i && i + |needle| <= |haystack| && haystack[i..i + |needle|] == needle
  }

  ghost predicate Occurs(haystack: string, needle: string) {
    exists i :: OccursAt(haystack, needle, i)
  }

  /** When `needle` is not at the front of `haystack`, it occurs in `haystack`
      exactly when it occurs in `haystack` without its first character. */
  lemma OccursInTail(haystack: string, needle: string)
    requires haystack != [] && !OccursAt(haystack, needle, 0)
    ensures Occurs(haystack, needle) <==> Occurs(haystack[1..], needle)
  {
    if Occurs(haystack, needle) {
      var i :| OccursAt(haystack, needle, i);
      assert haystack[1..][i - 1..i - 1 + |needle|] == haystack[i..i + |needle|];
      assert OccursAt(haystack[1..], needle, i - 1);
    }
    if Occurs(haystack[1..], needle) {
      var j :| OccursAt(haystack[1..], needle, j);
      assert haystack[1..][j..j + |needle|] == haystack[j + 1..j + 1 + |needle|];
      assert OccursAt(haystack, needle, j + 1);
    }
  }

  /** Python's `needle in haystack` on strings: true exactly when `needle`
      occurs somewhere in `haystack` as a contiguous block. */
  function Contains(haystack: string, needle: string): (r: bool)
    ensures r <==> Occurs(haystack, needle)
    decreases |haystack|
  {
    if |haystack| < |needle| then
      false
    else if haystack[..|needle|] == needle then
      assert OccursAt(haystack, needle, 0);
      true
    else if haystack == [] then
      false
    else
      OccursInTail(haystack, needle);
      Contains(haystack[1..], needle)
  }

  /** The case `str.title` gives to one character: lower-case after a cased
      character, upper-case (title-case) anywhere else. */
  function TitleChar(c: char, afterCased: bool): char {
    if afterCased then ToLower(c) else ToUpper(c)
  }

  function TitleFrom(s: string, afterCased: bool): (r: string)
    ensures |r| == |s|
    ensures forall i :: 0 <= i < |s| ==> r[i] == TitleChar(s[i], if i == 0 then afterCased else IsCased(s[i - 1]))
  {
    if s == [] then [] else [TitleChar(s[0], afterCased)] + TitleFrom(s[1..], IsCased(s[0]))
  }

  /** `s.title()`: the first letter of every run of letters upper-cased and
      every other letter lower-cased; non-letters are unchanged. */
  function Title(s: string): (r: string)
    ensures |r| == |s|
    ensures forall i :: 0 <= i < |s| ==> r[i] == TitleChar(s[i], i > 0 && IsCased(s[i - 1]))
  {
    TitleFrom(s, false)
  }

  lemma TitleCharStable(c: char, afterCased: bool)
    ensures IsCased(TitleChar(c, afterCased)) == IsCased(c) == IsCased(ToLower(c))
    ensures TitleChar(TitleChar(c, afterCased), afterCased) == TitleChar(c, afterCased)
    ensures TitleChar(ToLower(c), afterCased) == TitleChar(c, afterCased)
  {
  }

  /** Title-casing is idempotent and does not depend on the input's casing. */
  lemma TitleIgnoresCase(s: string)
    ensures Title(Title(s)) == Title(s)
    ensures Title(Lower(s)) == Title(s)
  {
    var t, l := Title(s), Lower(s);
    forall i | 0 <= i < |s|
      ensures Title(t)[i] == t[i]
    {
      TitleCharStable(s[i], i > 0 && IsCased(s[i - 1]));
      if i > 0 { TitleCharStable(s[i - 1], i > 1 && IsCased(s[i - 2])); }
    }
    forall i | 0 <= i < |s|
      ensures Title(l)[i] == t[i]
    {
      TitleCharStable(s[i], i > 0 && IsCased(s[i - 1]));
      if i > 0 { TitleCharStable(s[i - 1], false); }
    }
  }

  /** The example of a title-cased city name: "new york" becomes "New York". */
  lemma TitleExample()
    ensures Title("new york") == "New York"
  {
    var r := Title("new york");
    assert r[0] == 'N' && r[4] == 'Y';
  }
}
