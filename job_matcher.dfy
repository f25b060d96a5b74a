/**
 * The backend's skill matching (app/services/job_matcher.py): the CV's and the job's skills are
 * normalised into sets, compared, and combined with a semantic score into a match score out of 100.
 * The semantic score itself (TF-IDF cosine similarity) is an input here.
 */
module JobMatcher {
  import opened Wrappers
  import opened Text
  import opened PyText

  // ---------------------------------------------------------------------------------------
  // Python's order on strings, which `sorted` uses

  /** `a < b` on Python strings: code point by code point, a proper prefix first. */
  predicate Less(a: string, b: string)
    decreases |a|
  {
    if a == [] then b != []
    else b != [] && (a[0] < b[0] || (a[0] == b[0] && Less(a[1..], b[1..])))
  }

  lemma {:induction false} LessIrreflexive(a: string)
    ensures !Less(a, a)
    decreases |a|
  {
    if a != [] {
      LessIrreflexive(a[1..]);
    }
  }

  lemma {:induction false} LessAsymmetric(a: string, b: string)
    ensures !(Less(a, b) && Less(b, a))
    decreases |a|
  {
    if a != [] && b != [] && a[0] == b[0] {
      LessAsymmetric(a[1..], b[1..]);
    }
  }

  lemma {:induction false} LessTransitive(a: string, b: string, c: string)
    requires Less(a, b) && Less(b, c)
    ensures Less(a, c)
    decreases |a|
  {
    if a != [] && a[0] == b[0] && b[0] == c[0] {
      LessTransitive(a[1..], b[1..], c[1..]);
    }
  }

  lemma {:induction false} LessTotal(a: string, b: string)
    ensures a == b || Less(a, b) || Less(b, a)
    decreases |a|
  {
    if a != [] && b != [] && a[0] == b[0] {
      LessTotal(a[1..], b[1..]);
      if a[1..] == b[1..] {
        assert a == [a[0]] + a[1..] && b == [b[0]] + b[1..];
      }
    }
  }

  /** Every element is below every later one: sorted, and so without duplicates. */
  predicate StrictlyAscending(xs: seq<string>)
  {
    forall i, j :: 0 <= i < j < |xs| ==> Less(xs[i], xs[j])
  }

  /** `m` is the smallest element of `s`. */
  predicate IsLeast(m: string, s: set<string>)
  {
    m in s && forall y :: y in s ==> m == y || Less(m, y)
  }

  lemma {:induction false} LeastExists(s: set<string>)
    requires s != {}
    ensures exists m :: IsLeast(m, s)
    decreases |s|
  {
    var x :| x in s;
    if s != {x} {
      LeastExists(s - {x});
      var m :| IsLeast(m, s - {x});
      LessTotal(x, m);
      if Less(x, m) {
        forall y | y in s ensures x == y || Less(x, y) {
          if y != x && y != m {
            LessTransitive(x, m, y);
          }
        }
        assert IsLeast(x, s);
      } else {
        assert IsLeast(m, s);
      }
    } else {
      assert IsLeast(x, s);
    }
  }

  lemma LeastUnique(s: set<string>)
    ensures forall m, n :: IsLeast(m, s) && IsLeast(n, s) ==> m == n
  {
    forall m, n | IsLeast(m, s) && IsLeast(n, s) ensures m == n {
      LessAsymmetric(m, n);
    }
  }

  /** `sorted(list(s))`: the elements of `s` in ascending order. */
  function SortedList(s: set<string>): (r: seq<string>)
    ensures StrictlyAscending(r)
    ensures forall x :: x in r <==> x in s
    ensures |r| == |s|
    decreases |s|
  {
    if s == {} then []
    else
      LeastExists(s);
      LeastUnique(s);
      var m :| IsLeast(m, s);
      var r := [m] + SortedList(s - {m});
      assert forall j :: 1 <= j < |r| ==> r[j] in s - {m};
      r
  }

  /**
   * There is only one ascending list of the elements of a set; so `SortedList` is what `sorted`
   * returns whatever order `list(s)` happens to produce.
   */
  lemma {:induction false} SortedListUnique(xs: seq<string>, s: set<string>)
    requires StrictlyAscending(xs)
    requires forall x :: x in xs <==> x in s
    ensures xs == SortedList(s)
    decreases |s|
  {
    if xs == [] {
      assert s == {};
    } else {
      var m := xs[0];
      HeadIsLeast(xs, s);
      TailHoldsRest(xs, s);
      TailAscending(xs);
      var rest := SortedList(s - {m});
      SortedListUnique(xs[1..], s - {m});
      SortedListCons(s, m);
      calc {
        xs;
        [m] + xs[1..];
        [m] + rest;
      }
    }
  }

  /** The head of an ascending list is the least of its elements. */
  lemma HeadIsLeast(xs: seq<string>, s: set<string>)
    requires xs != [] && StrictlyAscending(xs)
    requires forall x :: x in xs <==> x in s
    ensures IsLeast(xs[0], s)
  {
    forall y | y in s ensures xs[0] == y || Less(xs[0], y) {
      var j :| 0 <= j < |xs| && xs[j] == y;
      if j > 0 { assert Less(xs[0], xs[j]); }
    }
  }

  /** The tail of an ascending list holds the other elements. */
  lemma TailHoldsRest(xs: seq<string>, s: set<string>)
    requires xs != [] && StrictlyAscending(xs)
    requires forall x :: x in xs <==> x in s
    ensures forall x :: x in xs[1..] <==> x in s - {xs[0]}
  {
    var m := xs[0];
    forall x ensures x in xs[1..] <==> x in s - {m} {
      if x in xs[1..] {
        var j :| 1 <= j < |xs| && xs[j] == x;
        assert Less(m, x);
        LessIrreflexive(m);
      }
      if x in s - {m} {
        var j :| 0 <= j < |xs| && xs[j] == x;
        assert j != 0;
        assert xs[1..][j - 1] == x;
      }
    }
  }

  lemma TailAscending(xs: seq<string>)
    requires xs != [] && StrictlyAscending(xs)
    ensures StrictlyAscending(xs[1..])
  {
    forall i, j | 0 <= i < j < |xs| - 1 ensures Less(xs[1..][i], xs[1..][j]) {
      assert Less(xs[i + 1], xs[j + 1]);
    }
  }

  /** The sorted list starts with the least element. */
  lemma SortedListCons(s: set<string>, m: string)
    requires IsLeast(m, s)
    ensures SortedList(s) == [m] + SortedList(s - {m})
  {
    LeastUnique(s);
  }

  // ---------------------------------------------------------------------------------------
  // compute_skill_overlap

  /** The normalised skill set: `strip().lower()` of every entry that is not blank. */
  function SkillSet(skills: seq<string>): (r: set<string>)
    ensures forall x :: x in r <==> exists s :: s in skills && Strip(s) != [] && x == Lower(Strip(s))
    ensures [] !in r
  {
    set s | s in skills && Strip(s) != [] :: Lower(Strip(s))
  }

  /** The result of `compute_skill_overlap`. */
  datatype SkillOverlap = SkillOverlap(overlapping: seq<string>, missing: seq<string>, skillScore: real)

  /**
   * `compute_skill_overlap(cv_skills, job_skills)`: with no job skills, nothing overlaps, nothing
   * is missing and the score is 0; otherwise `overlapping` lists the job skills the CV has,
   * `missing` those it lacks, both ascending, and the score is the share of job skills covered.
   */
  function ComputeSkillOverlap(cvSkills: seq<string>, jobSkills: seq<string>): (r: SkillOverlap)
    ensures var job := SkillSet(jobSkills);
      && (job == {} ==> r == SkillOverlap([], [], 0.0))
      && (job != {} ==> r.skillScore == |r.overlapping| as real / |job| as real)
      && 0.0 <= r.skillScore <= 1.0
      && (r.skillScore == 1.0 <==> job != {} && job <= SkillSet(cvSkills))
  {
    var cvSet := SkillSet(cvSkills);
    var jobSet := SkillSet(jobSkills);
    if jobSet == {} then SkillOverlap([], [], 0.0)
    else
      var overlapping := cvSet * jobSet;
      var missing := jobSet - cvSet;
      ScoreBounds(cvSet, jobSet);
      SkillOverlap(SortedList(overlapping), SortedList(missing), |overlapping| as real / |jobSet| as real)
  }

  /**
   * What the two lists hold: `overlapping` the job skills the CV has, `missing` those it lacks,
   * each once and in ascending order.
   */
  lemma OverlapContents(cvSkills: seq<string>, jobSkills: seq<string>)
    ensures var r := ComputeSkillOverlap(cvSkills, jobSkills);
      var cv := SkillSet(cvSkills); var job := SkillSet(jobSkills);
      && (forall x :: x in r.overlapping <==> x in cv && x in job)
      && (forall x :: x in r.missing <==> x in job && x !in cv)
      && StrictlyAscending(r.overlapping) && StrictlyAscending(r.missing)
  {
  }

  /** The share of job skills the CV covers is between 0 and 1, and is 1 exactly when it covers them all. */
  lemma ScoreBounds(cv: set<string>, job: set<string>)
    requires job != {}
    ensures 0.0 <= |cv * job| as real / |job| as real <= 1.0
    ensures |cv * job| as real / |job| as real == 1.0 <==> job <= cv
  {
    PartitionSize(cv, job);
    RatioBounds(|cv * job|, |job|);
    if |cv * job| == |job| {
      assert |job - cv| == 0;
      assert job - cv == {};
      forall x | x in job ensures x in cv {
        assert x in cv || x in job - cv;
      }
    }
    if job <= cv {
      assert cv * job == job;
    }
  }

  /** A share of a non-empty whole lies between 0 and 1, and is 1 only for the whole. */
  lemma RatioBounds(a: nat, n: nat)
    requires 0 < n && a <= n
    ensures 0.0 <= a as real / n as real <= 1.0
    ensures a as real / n as real == 1.0 <==> a == n
  {
    var q := a as real / n as real;
    var m := n as real;
    assert q * m == a as real;
    assert (q - 1.0) * m == a as real - m;
    ProductSign(q, m);
    ProductSign(q - 1.0, m);
  }

  /** With a positive factor, a product has the sign of the other factor. */
  lemma ProductSign(x: real, m: real)
    requires m > 0.0
    ensures x * m >= 0.0 ==> x >= 0.0
    ensures x * m <= 0.0 ==> x <= 0.0
  {
  }

  /** The two lists split the job's skills: no skill is in both, and together they hold all of them. */
  lemma OverlapPartitionsJobSkills(cvSkills: seq<string>, jobSkills: seq<string>)
    ensures var r := ComputeSkillOverlap(cvSkills, jobSkills);
      && (forall x :: !(x in r.overlapping && x in r.missing))
      && (forall x :: x in SkillSet(jobSkills) <==> x in r.overlapping || x in r.missing)
      && |r.overlapping| + |r.missing| == |SkillSet(jobSkills)|
  {
    var job := SkillSet(jobSkills);
    OverlapContents(cvSkills, jobSkills);
    if job != {} {
      PartitionSize(SkillSet(cvSkills), job);
    }
  }

  lemma PartitionSize(cv: set<string>, job: set<string>)
    ensures |cv * job| + |job - cv| == |job|
  {
    assert job == (cv * job) + (job - cv);
    assert (cv * job) * (job - cv) == {};
  }

  // ---------------------------------------------------------------------------------------
  // compute_match_result

  const SemanticWeight: real := 0.7
  const SkillWeight: real := 0.3

  /**
   * The weighted combination, out of 100, over the reals: within [0, 100] when both scores are
   * within [0, 1], and 100 only when both are 1.
   */
  function MatchScore(semantic: real, skill: real): (m: real)
    ensures 0.0 <= semantic <= 1.0 && 0.0 <= skill <= 1.0 ==> 0.0 <= m <= 100.0
    ensures 0.0 <= semantic <= 1.0 && 0.0 <= skill <= 1.0 ==> (m == 100.0 <==> semantic == 1.0 && skill == 1.0)
  {
    (SemanticWeight * semantic + SkillWeight * skill) * 100.0
  }

  /** The record `compute_match_result` returns, before rounding. */
  datatype MatchResult = MatchResult(
    cvId: string,
    jobTitle: Option<string>,
    company: Option<string>,
    matchScore: real,
    semanticScore: real,
    skillScore: real,
    jobSkills: seq<string>,
    overlappingSkills: seq<string>,
    missingSkills: seq<string>)

  /**
   * `compute_match_result` with the semantic score given: the skill fields come from
   * `compute_skill_overlap`, the job skills are passed through as given, and whenever the
   * semantic score is within [0, 1] the match score is within [0, 100], reaching 100 only for a
   * perfect semantic score and a CV that covers every job skill.
   */
  function ComputeMatchResult(cvId: string, semanticScore: real, cvSkills: seq<string>,
                              jobTitle: Option<string>, company: Option<string>,
                              jobSkills: seq<string>): (r: MatchResult)
    ensures 0.0 <= semanticScore <= 1.0 ==> 0.0 <= r.matchScore <= 100.0
    ensures 0.0 <= semanticScore <= 1.0 ==>
      (r.matchScore == 100.0 <==> semanticScore == 1.0 && SkillSet(jobSkills) != {} && SkillSet(jobSkills) <= SkillSet(cvSkills))
  {
    var o := ComputeSkillOverlap(cvSkills, jobSkills);
    MatchResult(cvId, jobTitle, company, MatchScore(semanticScore, o.skillScore), semanticScore,
                o.skillScore, jobSkills, o.overlapping, o.missing)
  }

  /** The identifying fields and the job skills are passed through; the skill fields are those of `compute_skill_overlap`. */
  lemma MatchResultFields(cvId: string, semanticScore: real, cvSkills: seq<string>,
                          jobTitle: Option<string>, company: Option<string>, jobSkills: seq<string>)
    ensures var r := ComputeMatchResult(cvId, semanticScore, cvSkills, jobTitle, company, jobSkills);
      var o := ComputeSkillOverlap(cvSkills, jobSkills);
      && r.cvId == cvId && r.jobTitle == jobTitle && r.company == company && r.jobSkills == jobSkills
      && r.semanticScore == semanticScore && r.skillScore == o.skillScore
      && r.overlappingSkills == o.overlapping && r.missingSkills == o.missing
  {
  }
}
