/**
 * Python string methods used by the backend: `strip()`, `lower()` and `capitalize()`.
 * Python strings are sequences of code points, which is what a Dafny `string` is.
 * Case mapping covers the ASCII letters only.
 */
module PyText {
  import opened Text

  /** The code points `str.strip()` removes with no argument: those for which `str.isspace()` holds. */
  predicate IsPyWhitespace(c: char)
  {
    '\t' <= c <= '\r' || '\U{1C}' <= c <= '\U{1F}' || c == ' ' || c == '\U{85}' || c == '\U{A0}'
    || c == '\U{1680}' || '\U{2000}' <= c <= '\U{200A}' || c == '\U{2028}' || c == '\U{2029}'
    || c == '\U{202F}' || c == '\U{205F}' || c == '\U{3000}'
  }

  /** `s.strip()` */
  function Strip(s: string): (r: string)
    ensures IsTrimmed(r, IsPyWhitespace)
    ensures |r| <= |s|
  {
    Trim(s, IsPyWhitespace)
  }

  /** Stripping a stripped string changes nothing. */
  lemma StripIdempotent(s: string)
    ensures Strip(Strip(s)) == Strip(s)
  {
    TrimIdempotent(Strip(s), IsPyWhitespace);
  }

  function LowerChar(c: char): char
  {
    if 'A' <= c <= 'Z' then (c as int + 32) as char else c
  }

  function UpperChar(c: char): char
  {
    if 'a' <= c <= 'z' then (c as int - 32) as char else c
  }

  /** `s.lower()` */
  function Lower(s: string): (r: string)
    ensures |r| == |s|
  {
    seq(|s|, i requires 0 <= i < |s| => LowerChar(s[i]))
  }

  /** A string without ASCII capitals is its own lower-case form. */
  lemma LowerWithoutCapitals(s: string)
    requires forall i :: 0 <= i < |s| ==> !('A' <= s[i] <= 'Z')
    ensures Lower(s) == s
  {
    assert forall i :: 0 <= i < |s| ==> Lower(s)[i] == s[i];
  }

  /** Lowering a lowered string changes nothing. */
  lemma LowerIdempotent(s: string)
    ensures Lower(Lower(s)) == Lower(s)
  {
    assert forall i :: 0 <= i < |s| ==> Lower(Lower(s))[i] == Lower(s)[i];
  }

  /** `s.capitalize()`: the first character upper case, the rest lower case. */
  function Capitalize(s: string): (r: string)
    ensures |r| == |s|
  {
    if s == [] then [] else [UpperChar(s[0])] + Lower(s[1..])
  }

  /**
   * On a string that is already lower case, lowering the capitalized form gives the string back;
   * so capitalizing is one-to-one on lower-case strings.
   */
  lemma LowerCapitalize(s: string)
    requires Lower(s) == s
    ensures Lower(Capitalize(s)) == s
  {
    if s != [] {
      assert LowerChar(s[0]) == s[0];
      assert Lower(s[1..]) == s[1..] by {
        assert forall i :: 0 <= i < |s| - 1 ==> Lower(s[1..])[i] == Lower(s)[i + 1];
      }
      assert Lower(Capitalize(s)) == [LowerChar(UpperChar(s[0]))] + Lower(Lower(s[1..]));
    }
  }

  /** The first line starts, and the last line ends, with something other than whitespace. */
  predicate TrimmedEnds(body: seq<string>)
  {
    && body != []
    && body[0] != [] && !IsPyWhitespace(body[0][0])
    && var l := body[|body| - 1]; l != [] && !IsPyWhitespace(l[|l| - 1])
  }

  /** Stripping the joined block removes exactly the opening and closing line breaks, when the body is trimmed at both ends. */
  lemma StripSurroundedJoin(body: seq<string>)
    requires TrimmedEnds(body)
    ensures Strip(Join([""] + body + [""], "\n")) == Join(body, "\n")
  {
    var j := Join(body, "\n");
    JoinBetweenBreaks(body);
    JoinTrimmed(body);
    assert All("\n", IsPyWhitespace);
    TrimPadded("\n", j, "\n", IsPyWhitespace);
  }

  /** Two empty lines around a body join to a line break on either side. */
  lemma JoinBetweenBreaks(body: seq<string>)
    requires body != []
    ensures Join([""] + body + [""], "\n") == "\n" + Join(body, "\n") + "\n"
  {
    JoinConcat([""], body + [""], "\n");
    JoinConcat(body, [""], "\n");
    assert [""] + (body + [""]) == [""] + body + [""];
  }

  /** The join of a body with trimmed ends starts and ends with something other than whitespace. */
  lemma JoinTrimmed(body: seq<string>)
    requires TrimmedEnds(body)
    ensures var j := Join(body, "\n"); j != [] && !IsPyWhitespace(j[0]) && !IsPyWhitespace(j[|j| - 1])
  {
    var j := Join(body, "\n");
    JoinStart(body, "\n");
    JoinEnd(body, "\n");
    assert j[0] == body[0][0];
    var l := body[|body| - 1];
    assert j[|j| - 1] == j[|j| - |l|..][|l| - 1];
  }
}
