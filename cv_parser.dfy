/**
 * Keyword extraction from CV text (app/services/cv_parser.py): a fixed skill vocabulary matched
 * by substring, and the lines that mention a job-title keyword.
 */
module CvParser {
  import opened Text
  import opened PyText

  /** `SKILL_KEYWORDS`, in source order. */
  const SkillKeywords: seq<string> := SkillsA + SkillsB + SkillsC + SkillsD

  const SkillsA: seq<string> := ["python", "fastapi", "react", "javascript", "typescript"]
  const SkillsB: seq<string> := ["html", "css", "linux", "sql", "mongodb"]
  const SkillsC: seq<string> := ["docker", "git", "jira", "power bi", "excel"]
  const SkillsD: seq<string> := ["data analysis", "networking", "troubleshooting", "azure", "aws"]

  /** The keywords that mark a line as a job title. */
  const ExperienceKeywords: seq<string> := ["assistant", "engineer", "developer", "intern", "manager"]

  // ---------------------------------------------------------------------------------------
  // extract_skills

  /** The vocabulary filtered by "occurs in `t`" and mapped through `capitalize`, in vocabulary order. */
  function SkillsIn(t: string, vocab: seq<string>): seq<string>
    decreases |vocab|
  {
    if vocab == [] then []
    else
      var k := vocab[|vocab| - 1];
      SkillsIn(t, vocab[..|vocab| - 1]) + (if Contains(t, k) then [Capitalize(k)] else [])
  }

  /** `extract_skills(text)` */
  method ExtractSkills(text: string) returns (found: seq<string>)
    ensures found == SkillsIn(Lower(text), SkillKeywords)
  {
    found := MatchVocabulary(Lower(text), SkillKeywords);
  }

  /** The loop of `extract_skills`: each keyword of `vocab`, in order, that occurs in `textLower`, capitalized. */
  method MatchVocabulary(textLower: string, vocab: seq<string>) returns (found: seq<string>)
    ensures found == SkillsIn(textLower, vocab)
  {
    found := [];
    for i := 0 to |vocab|
      invariant found == SkillsIn(textLower, vocab[..i])
    {
      var skill := vocab[i];
      if Contains(textLower, skill) {
        found := found + [Capitalize(skill)];
      }
      assert vocab[..i + 1][..i] == vocab[..i];
    }
    assert vocab[..|vocab|] == vocab;
  }

  /** Filtering a vocabulary in two parts gives the two filtered parts in order. */
  lemma {:induction false} SkillsInConcat(t: string, a: seq<string>, b: seq<string>)
    ensures SkillsIn(t, a + b) == SkillsIn(t, a) + SkillsIn(t, b)
    decreases |b|
  {
    if b != [] {
      assert (a + b)[..|a + b| - 1] == a + b[..|b| - 1];
      SkillsInConcat(t, a, b[..|b| - 1]);
      assert (a + b)[|a + b| - 1] == b[|b| - 1];
    } else {
      assert a + b == a;
    }
  }

  /** Every reported skill is the capitalized form of a vocabulary keyword that occurs in `t`. */
  lemma {:induction false} SkillsInSound(t: string, vocab: seq<string>)
    ensures forall s :: s in SkillsIn(t, vocab) ==> exists k :: k in vocab && Contains(t, k) && s == Capitalize(k)
    decreases |vocab|
  {
    if vocab != [] {
      SkillsInSound(t, vocab[..|vocab| - 1]);
    }
  }

  /** There is at most one reported skill per keyword. */
  lemma {:induction false} SkillsInLength(t: string, vocab: seq<string>)
    ensures |SkillsIn(t, vocab)| <= |vocab|
    decreases |vocab|
  {
    if vocab != [] {
      SkillsInLength(t, vocab[..|vocab| - 1]);
    }
  }

  /** `vocab` is made of lower-case words. */
  predicate LowerCaseWords(vocab: seq<string>)
  {
    forall i :: 0 <= i < |vocab| ==> Lower(vocab[i]) == vocab[i]
  }

  /** No element of `xs` occurs twice. */
  predicate Distinct<T(==)>(xs: seq<T>)
  {
    forall i, j :: 0 <= i < j < |xs| ==> xs[i] != xs[j]
  }

  /** Appending an element not already present keeps a sequence free of repeats. */
  lemma DistinctSnoc<T>(xs: seq<T>, x: T)
    requires Distinct(xs) && x !in xs
    ensures Distinct(xs + [x])
  {
    var ys := xs + [x];
    forall i, j | 0 <= i < j < |ys| ensures ys[i] != ys[j] {
      if j < |xs| {
        assert ys[i] == xs[i] && ys[j] == xs[j];
      } else {
        assert ys[i] == xs[i];
      }
    }
  }

  /** The vocabulary without its last word keeps both properties, and does not hold that word. */
  lemma VocabInit(vocab: seq<string>)
    requires vocab != [] && LowerCaseWords(vocab) && Distinct(vocab)
    ensures var init := vocab[..|vocab| - 1];
      LowerCaseWords(init) && Distinct(init) && vocab[|vocab| - 1] !in init
      && forall k :: k in init ==> Capitalize(k) != Capitalize(vocab[|vocab| - 1])
  {
    var init := vocab[..|vocab| - 1];
    var last := vocab[|vocab| - 1];
    assert forall i :: 0 <= i < |init| ==> init[i] == vocab[i];
    LowerCapitalize(last);
    forall k | k in init ensures Capitalize(k) != Capitalize(last) {
      var i :| 0 <= i < |init| && init[i] == k;
      assert k == vocab[i] && k != last;
      LowerCapitalize(k);
    }
  }

  /**
   * Over a vocabulary of distinct lower-case words, the capitalized form of keyword `k` is
   * reported exactly when `k` occurs in `t`, and nothing is reported twice.
   */
  lemma {:induction false} SkillsInExact(t: string, vocab: seq<string>)
    requires LowerCaseWords(vocab) && Distinct(vocab)
    ensures forall k :: k in vocab ==> (Capitalize(k) in SkillsIn(t, vocab) <==> Contains(t, k))
    ensures Distinct(SkillsIn(t, vocab))
    decreases |vocab|
  {
    if vocab != [] {
      var init := vocab[..|vocab| - 1];
      var last := vocab[|vocab| - 1];
      var c := Capitalize(last);
      var found := SkillsIn(t, init);
      var tail := if Contains(t, last) then [c] else [];
      assert SkillsIn(t, vocab) == found + tail;
      assert vocab == init + [last];
      VocabInit(vocab);
      SkillsInExact(t, init);
      SkillsInSound(t, init);
      assert c !in found;
      forall k | k in vocab ensures Capitalize(k) in found + tail <==> Contains(t, k) {
        if k != last {
          assert k in init;
        }
      }
      if Contains(t, last) {
        DistinctSnoc(found, c);
      } else {
        assert found + tail == found;
      }
    }
  }

  lemma SkillKeywordsLowerCase()
    ensures LowerCaseWords(SkillKeywords)
  {
    WordsLowerCase(SkillsA);
    WordsLowerCase(SkillsB);
    WordsLowerCase(SkillsC);
    WordsLowerCase(SkillsD);
    LowerCaseWordsConcat(SkillsA, SkillsB);
    LowerCaseWordsConcat(SkillsA + SkillsB, SkillsC);
    LowerCaseWordsConcat(SkillsA + SkillsB + SkillsC, SkillsD);
  }

  /** Words without capital letters are lower case. */
  lemma WordsLowerCase(words: seq<string>)
    requires forall i, k :: 0 <= i < |words| && 0 <= k < |words[i]| ==> !('A' <= words[i][k] <= 'Z')
    ensures LowerCaseWords(words)
  {
    forall i | 0 <= i < |words| ensures Lower(words[i]) == words[i] {
      LowerWithoutCapitals(words[i]);
    }
  }

  lemma LowerCaseWordsConcat(a: seq<string>, b: seq<string>)
    requires LowerCaseWords(a) && LowerCaseWords(b)
    ensures LowerCaseWords(a + b)
  {
    forall i | 0 <= i < |a + b| ensures Lower((a + b)[i]) == (a + b)[i] {
      if i >= |a| {
        assert (a + b)[i] == b[i - |a|];
      }
    }
  }

  /** No element of `a` is an element of `b`. */
  predicate Disjoint<T(==)>(a: seq<T>, b: seq<T>)
  {
    forall i, j :: 0 <= i < |a| && 0 <= j < |b| ==> a[i] != b[j]
  }

  lemma DistinctConcat<T>(a: seq<T>, b: seq<T>)
    requires Distinct(a) && Distinct(b) && Disjoint(a, b)
    ensures Distinct(a + b)
  {
    forall i, j | 0 <= i < j < |a + b| ensures (a + b)[i] != (a + b)[j] {
      if j < |a| {
        assert (a + b)[i] == a[i] && (a + b)[j] == a[j];
      } else if i < |a| {
        assert (a + b)[i] == a[i] && (a + b)[j] == b[j - |a|];
      } else {
        assert (a + b)[i] == b[i - |a|] && (a + b)[j] == b[j - |a|];
      }
    }
  }

  lemma DisjointConcat<T>(a: seq<T>, b: seq<T>, c: seq<T>)
    requires Disjoint(a, c) && Disjoint(b, c)
    ensures Disjoint(a + b, c)
  {
    forall i, j | 0 <= i < |a + b| && 0 <= j < |c| ensures (a + b)[i] != c[j] {
      if i >= |a| {
        assert (a + b)[i] == b[i - |a|];
      }
    }
  }

  lemma SkillGroupsDistinct()
    ensures Distinct(SkillsA) && Distinct(SkillsB) && Distinct(SkillsC) && Distinct(SkillsD)
  {
  }

  lemma SkillGroupsDisjointA()
    ensures Disjoint(SkillsA, SkillsB) && Disjoint(SkillsA, SkillsC) && Disjoint(SkillsA, SkillsD)
  {
  }

  lemma SkillGroupsDisjointB()
    ensures Disjoint(SkillsB, SkillsC) && Disjoint(SkillsB, SkillsD)
  {
  }

  lemma SkillGroupsDisjointC()
    ensures Disjoint(SkillsC, SkillsD)
  {
  }

  lemma SkillKeywordsDistinct()
    ensures Distinct(SkillKeywords)
  {
    SkillGroupsDistinct();
    SkillGroupsDisjointA();
    SkillGroupsDisjointB();
    SkillGroupsDisjointC();
    DistinctConcat(SkillsA, SkillsB);
    DisjointConcat(SkillsA, SkillsB, SkillsC);
    DistinctConcat(SkillsA + SkillsB, SkillsC);
    DisjointConcat(SkillsA, SkillsB, SkillsD);
    DisjointConcat(SkillsA + SkillsB, SkillsC, SkillsD);
    DistinctConcat(SkillsA + SkillsB + SkillsC, SkillsD);
  }

  /**
   * `extract_skills`: keyword `k` of the vocabulary is reported, capitalized, exactly when it
   * occurs in the lower-cased text (also inside a longer word); every entry comes from such a
   * keyword; the list has no duplicates and at most 20 entries.
   */
  lemma ExtractSkillsExact(text: string)
    ensures var r := SkillsIn(Lower(text), SkillKeywords);
      && (forall k :: k in SkillKeywords ==> (Capitalize(k) in r <==> Contains(Lower(text), k)))
      && (forall s :: s in r ==> exists k :: k in SkillKeywords && Contains(Lower(text), k) && s == Capitalize(k))
      && Distinct(r)
      && |r| <= 20
  {
    SkillKeywordsLowerCase();
    SkillKeywordsDistinct();
    SkillsInExact(Lower(text), SkillKeywords);
    SkillsInSound(Lower(text), SkillKeywords);
    SkillsInLength(Lower(text), SkillKeywords);
  }

  /** Lower-casing the text first changes nothing, since the text is lower-cased anyway. */
  lemma ExtractSkillsIgnoresCase(text: string)
    ensures SkillsIn(Lower(Lower(text)), SkillKeywords) == SkillsIn(Lower(text), SkillKeywords)
  {
    LowerIdempotent(text);
  }

  /** `"power bi".capitalize()` is `"Power bi"`: only the first character is raised. */
  lemma CapitalizePowerBi()
    ensures Capitalize("power bi") == "Power bi"
  {
  }

  // ---------------------------------------------------------------------------------------
  // extract_experience

  /** `any(keyword in line.lower() for keyword in [...])` */
  predicate HasExperienceKeyword(line: string)
  {
    exists k :: k in ExperienceKeywords && Contains(Lower(line), k)
  }

  /** The stripped forms of the lines that mention a keyword, in input order. */
  function ExperienceIn(lines: seq<string>): seq<string>
    decreases |lines|
  {
    if lines == [] then []
    else
      var line := lines[|lines| - 1];
      ExperienceIn(lines[..|lines| - 1]) + (if HasExperienceKeyword(line) then [Strip(line)] else [])
  }

  /** `extract_experience(text)` */
  method ExtractExperience(text: string) returns (experience: seq<string>)
    ensures experience == ExperienceIn(Split(text, '\n'))
  {
    experience := [];
    var lines := Split(text, '\n');
    for i := 0 to |lines|
      invariant experience == ExperienceIn(lines[..i])
    {
      var line := lines[i];
      if exists k :: k in ExperienceKeywords && Contains(Lower(line), k) {
        experience := experience + [Strip(line)];
      }
      assert lines[..i + 1][..i] == lines[..i];
    }
    assert lines[..|lines|] == lines;
  }

  /** Lines are handled one at a time, in order: the result for two blocks of lines is the two results in order. */
  lemma {:induction false} ExperienceInConcat(a: seq<string>, b: seq<string>)
    ensures ExperienceIn(a + b) == ExperienceIn(a) + ExperienceIn(b)
    decreases |b|
  {
    if b != [] {
      assert (a + b)[..|a + b| - 1] == a + b[..|b| - 1];
      ExperienceInConcat(a, b[..|b| - 1]);
      assert (a + b)[|a + b| - 1] == b[|b| - 1];
    } else {
      assert a + b == a;
    }
  }

  /** `e` is the stripped form of a line of `lines` that mentions a keyword. */
  ghost predicate FromKeywordLine(lines: seq<string>, e: string)
  {
    exists l :: l in lines && HasExperienceKeyword(l) && e == Strip(l)
  }

  /** Every line that mentions a keyword is kept, stripped. */
  lemma {:induction false} ExperienceKeepsKeywordLines(lines: seq<string>)
    ensures forall l :: l in lines && HasExperienceKeyword(l) ==> Strip(l) in ExperienceIn(lines)
    decreases |lines|
  {
    if lines != [] {
      var init := lines[..|lines| - 1];
      ExperienceKeepsKeywordLines(init);
      assert lines == init + [lines[|lines| - 1]];
    }
  }

  /** Everything kept is a stripped line that mentions a keyword, and is itself stripped. */
  lemma {:induction false} ExperienceOnlyKeywordLines(lines: seq<string>)
    ensures forall e :: e in ExperienceIn(lines) ==> FromKeywordLine(lines, e) && IsTrimmed(e, IsPyWhitespace)
    decreases |lines|
  {
    if lines != [] {
      var init := lines[..|lines| - 1];
      ExperienceOnlyKeywordLines(init);
      forall e | e in ExperienceIn(init) ensures FromKeywordLine(lines, e) {
        var l :| l in init && HasExperienceKeyword(l) && e == Strip(l);
        assert l in lines;
      }
    }
  }

  /** There is never more than one entry per line. */
  lemma {:induction false} ExperienceInBound(lines: seq<string>)
    ensures |ExperienceIn(lines)| <= |lines|
    decreases |lines|
  {
    if lines != [] {
      ExperienceInBound(lines[..|lines| - 1]);
    }
  }

  /** `extract_experience` returns at most one entry per newline-separated segment. */
  lemma ExtractExperienceBound(text: string)
    ensures |ExperienceIn(Split(text, '\n'))| <= Count(text, '\n') + 1
  {
    ExperienceInBound(Split(text, '\n'));
    SplitCount(text, '\n');
  }
}
