/**
 * Sequence operations that the Python and the JavaScript sides of the system share:
 * substring search (`in`, `includes`), slicing to a maximum length, trimming whitespace,
 * joining with a separator and splitting on a separator. They are generic in the element
 * type, so the same definitions serve Python strings (sequences of code points) and
 * JavaScript strings (sequences of UTF-16 code units).
 */
module Text {

  /** `needle` occurs in `hay` as a contiguous block (Python `needle in hay`, JavaScript `hay.includes(needle)`). */
  predicate Contains<T(==)>(hay: seq<T>, needle: seq<T>)
    decreases |hay|
  {
    needle <= hay || (hay != [] && Contains(hay[1..], needle))
  }

  /** `needle` occurs in `hay` starting at index `i`: the index-based reading of `Contains`. */
  ghost predicate OccursAt<T>(hay: seq<T>, needle: seq<T>, i: int)
  {
    0 <= i <= |hay| - |needle| && hay[i..i + |needle|] == needle
  }

  /** An occurrence at index 0 is a prefix. */
  lemma OccursAtStart<T>(hay: seq<T>, needle: seq<T>)
    ensures OccursAt(hay, needle, 0) ==> needle <= hay
  {
    if OccursAt(hay, needle, 0) {
      assert hay[..|needle|] == needle;
    }
  }

  /** The recursive search finds `needle` exactly when it occurs at some index. */
  lemma {:induction false} ContainsIffOccurs<T>(hay: seq<T>, needle: seq<T>)
    ensures Contains(hay, needle) <==> exists i :: OccursAt(hay, needle, i)
    decreases |hay|
  {
    if needle <= hay {
      assert OccursAt(hay, needle, 0);
    } else if hay != [] {
      ContainsIffOccurs(hay[1..], needle);
      if exists i :: OccursAt(hay[1..], needle, i) {
        var i :| OccursAt(hay[1..], needle, i);
        OccursInTail(hay, needle, i + 1);
      }
      if exists i :: OccursAt(hay, needle, i) {
        var i :| OccursAt(hay, needle, i);
        OccursAtStart(hay, needle);
        if i != 0 {
          OccursInTail(hay, needle, i);
        }
      }
    }
  }

  /** An occurrence past the first element is an occurrence in the tail, one index earlier. */
  lemma OccursInTail<T>(hay: seq<T>, needle: seq<T>, i: nat)
    requires 1 <= i
    requires hay != []
    ensures OccursAt(hay, needle, i) <==> OccursAt(hay[1..], needle, i - 1)
  {
    if i + |needle| <= |hay| {
      assert hay[1..][i - 1..i - 1 + |needle|] == hay[i..i + |needle|];
    }
  }

  /** Only something no longer than `hay` can occur in it. */
  lemma {:induction false} ContainsShorter<T>(hay: seq<T>, needle: seq<T>)
    requires Contains(hay, needle)
    ensures |needle| <= |hay|
    decreases |hay|
  {
    if !(needle <= hay) {
      ContainsShorter(hay[1..], needle);
    }
  }

  /** Whatever occurs in `hay` still occurs once text is added on either side. */
  lemma ContainsWithin<T>(a: seq<T>, hay: seq<T>, b: seq<T>, needle: seq<T>)
    requires Contains(hay, needle)
    ensures Contains(a + hay + b, needle)
  {
    ContainsIffOccurs(hay, needle);
    var i :| OccursAt(hay, needle, i);
    var s := a + hay + b;
    assert s[|a| + i..|a| + i + |needle|] == hay[i..i + |needle|];
    assert OccursAt(s, needle, |a| + i);
    ContainsIffOccurs(s, needle);
  }

  /** What occurs in a block of `a` occurs in `a`. */
  lemma ContainsTransitive<T>(a: seq<T>, b: seq<T>, c: seq<T>)
    requires Contains(a, b) && Contains(b, c)
    ensures Contains(a, c)
  {
    ContainsIffOccurs(a, b);
    ContainsIffOccurs(b, c);
    var i :| OccursAt(a, b, i);
    var j :| OccursAt(b, c, j);
    forall x | 0 <= x < |c| ensures a[i + j + x] == c[x] {
      assert a[i + j + x] == a[i..i + |b|][j + x];
      assert b[j + x] == b[j..j + |c|][x];
    }
    assert a[i + j..i + j + |c|] == c;
    assert OccursAt(a, c, i + j);
    ContainsIffOccurs(a, c);
  }

  /** A sequence contains every block it is built around. */
  lemma ContainsInfix<T>(a: seq<T>, x: seq<T>, b: seq<T>)
    ensures Contains(a + x + b, x)
  {
    assert x <= x + [];
    assert Contains(x, x);
    ContainsWithin(a, x, b, x);
  }

  /** The first `n` elements of `s`, or all of `s` when it is shorter (Python `s[:n]`, JavaScript `s.slice(0, n)`). */
  function Take<T>(s: seq<T>, n: nat): (r: seq<T>)
    ensures r <= s
    ensures |r| == if |s| <= n then |s| else n
  {
    if |s| <= n then s else s[..n]
  }

  /** Every element of `s` satisfies `p`. */
  ghost predicate All<T>(s: seq<T>, p: T -> bool)
  {
    forall i :: 0 <= i < |s| ==> p(s[i])
  }

  /** `s` neither starts nor ends with an element that `isWs` calls whitespace. */
  predicate IsTrimmed<T>(s: seq<T>, isWs: T -> bool)
  {
    s == [] || (!isWs(s[0]) && !isWs(s[|s| - 1]))
  }

  /** `s` without its leading whitespace. */
  function TrimStart<T>(s: seq<T>, isWs: T -> bool): (r: seq<T>)
    ensures |r| <= |s| && r == s[|s| - |r|..]
    ensures All(s[..|s| - |r|], isWs)
    ensures r == [] || !isWs(r[0])
    decreases |s|
  {
    if s != [] && isWs(s[0]) then TrimStart(s[1..], isWs) else s
  }

  /** `s` without its trailing whitespace. */
  function TrimEnd<T>(s: seq<T>, isWs: T -> bool): (r: seq<T>)
    ensures |r| <= |s| && r == s[..|r|]
    ensures All(s[|r|..], isWs)
    ensures r == [] || !isWs(r[|r| - 1])
    decreases |s|
  {
    if s != [] && isWs(s[|s| - 1]) then TrimEnd(s[..|s| - 1], isWs) else s
  }

  /** `s` without leading and trailing whitespace (Python `strip()`, JavaScript `trim()`, each with its own whitespace set). */
  function Trim<T>(s: seq<T>, isWs: T -> bool): (r: seq<T>)
    ensures IsTrimmed(r, isWs)
    ensures |r| <= |s|
  {
    TrimEnd(TrimStart(s, isWs), isWs)
  }

  /**
   * What trimming keeps: the result is the block of `s` at index `i`, and what was cut on either
   * side of it is all whitespace.
   */
  lemma TrimBlock<T>(s: seq<T>, isWs: T -> bool) returns (i: nat)
    ensures BlockBetweenWhitespace(s, i, Trim(s, isWs), isWs)
  {
    var t := TrimStart(s, isWs);
    var r := TrimEnd(t, isWs);
    i := BlockOf(s, t, r, isWs);
  }

  /** `r` is the block of `s` at index `i`, and what lies on either side of it is all whitespace. */
  ghost predicate BlockBetweenWhitespace<T>(s: seq<T>, i: nat, r: seq<T>, isWs: T -> bool)
  {
    i + |r| <= |s| && r == s[i..i + |r|] && All(s[..i], isWs) && All(s[i + |r|..], isWs)
  }

  /** `r` is what trimming `s` must give: a block of `s` between whitespace, with none left at its ends. */
  ghost predicate TrimOf<T>(s: seq<T>, r: seq<T>, isWs: T -> bool)
  {
    IsTrimmed(r, isWs) && exists i :: BlockBetweenWhitespace(s, i, r, isWs)
  }

  lemma TrimIsTrimOf<T>(s: seq<T>, isWs: T -> bool)
    ensures TrimOf(s, Trim(s, isWs), isWs)
  {
    var i := TrimBlock(s, isWs);
  }

  /** A suffix of `s` after whitespace, and a prefix of that suffix before whitespace, is a block of `s` between whitespace. */
  lemma BlockOf<T>(s: seq<T>, t: seq<T>, r: seq<T>, isWs: T -> bool) returns (i: nat)
    requires |t| <= |s| && t == s[|s| - |t|..] && All(s[..|s| - |t|], isWs)
    requires |r| <= |t| && r == t[..|r|] && All(t[|r|..], isWs)
    ensures BlockBetweenWhitespace(s, i, r, isWs)
  {
    i := |s| - |t|;
    SuffixSlices(s, i, |r|);
  }

  /** Slicing a suffix of `s` is slicing `s` further on. */
  lemma SuffixSlices<T>(s: seq<T>, i: nat, n: nat)
    requires i + n <= |s|
    ensures s[i..][..n] == s[i..i + n] && s[i..][n..] == s[i + n..]
  {
  }

  /** The trimmed text is a block of the original. */
  lemma TrimIsBlock<T>(s: seq<T>, isWs: T -> bool) returns (i: nat)
    ensures i + |Trim(s, isWs)| <= |s| && Trim(s, isWs) == s[i..i + |Trim(s, isWs)|]
  {
    i := TrimBlock(s, isWs);
  }

  lemma {:induction false} TrimStartPadded<T>(a: seq<T>, t: seq<T>, isWs: T -> bool)
    requires All(a, isWs)
    requires t == [] || !isWs(t[0])
    ensures TrimStart(a + t, isWs) == t
    decreases |a|
  {
    if a != [] {
      assert (a + t)[1..] == a[1..] + t;
      TrimStartPadded(a[1..], t, isWs);
    }
  }

  lemma {:induction false} TrimEndPadded<T>(t: seq<T>, b: seq<T>, isWs: T -> bool)
    requires All(b, isWs)
    requires t == [] || !isWs(t[|t| - 1])
    ensures TrimEnd(t + b, isWs) == t
    decreases |b|
  {
    if b != [] {
      assert (t + b)[..|t + b| - 1] == t + b[..|b| - 1];
      TrimEndPadded(t, b[..|b| - 1], isWs);
    }
  }

  /**
   * Trimming is determined by what it keeps: a trimmed block surrounded by whitespace trims to
   * exactly that block. With empty padding this says that trimming is idempotent.
   */
  lemma TrimPadded<T>(a: seq<T>, m: seq<T>, b: seq<T>, isWs: T -> bool)
    requires All(a, isWs) && All(b, isWs)
    requires IsTrimmed(m, isWs)
    ensures Trim(a + m + b, isWs) == m
  {
    if m == [] {
      assert a + m + b == a + b;
      assert All(a + b, isWs);
      TrimStartPadded(a + b, [], isWs);
      assert a + b + [] == a + b;
    } else {
      assert a + m + b == a + (m + b);
      TrimStartPadded(a, m + b, isWs);
      TrimEndPadded(m, b, isWs);
    }
  }

  /** Trimming a trimmed sequence changes nothing. */
  lemma TrimIdempotent<T>(s: seq<T>, isWs: T -> bool)
    requires IsTrimmed(s, isWs)
    ensures Trim(s, isWs) == s
  {
    TrimPadded([], s, [], isWs);
    assert [] + s + [] == s;
  }

  /** `sep.join(parts)`: the parts in order with `sep` between neighbours. */
  function Join<T>(parts: seq<seq<T>>, sep: seq<T>): seq<T>
  {
    if |parts| == 0 then []
    else if |parts| == 1 then parts[0]
    else parts[0] + sep + Join(parts[1..], sep)
  }

  /** Every part appears in the joined sequence. */
  lemma {:induction false} JoinContainsParts<T>(parts: seq<seq<T>>, sep: seq<T>, k: nat)
    requires k < |parts|
    ensures Contains(Join(parts, sep), parts[k])
  {
    if |parts| == 1 {
      ContainsInfix([], parts[0], []);
      assert [] + parts[0] + [] == parts[0];
    } else if k == 0 {
      ContainsInfix([], parts[0], sep + Join(parts[1..], sep));
      assert [] + parts[0] + (sep + Join(parts[1..], sep)) == Join(parts, sep);
    } else {
      JoinContainsParts(parts[1..], sep, k - 1);
      ContainsWithin(parts[0] + sep, Join(parts[1..], sep), [], parts[k]);
      assert parts[0] + sep + Join(parts[1..], sep) + [] == Join(parts, sep);
    }
  }

  /** The number of occurrences of `x` in `s`. */
  function Count<T(==)>(s: seq<T>, x: T): nat
  {
    if s == [] then 0 else (if s[0] == x then 1 else 0) + Count(s[1..], x)
  }

  /**
   * Python `s.split(sep)` for a one-element separator: the pieces between separators, in order,
   * none of them containing `sep` (the empty sequence splits into one empty piece).
   */
  function Split<T(==)>(s: seq<T>, sep: T): (r: seq<seq<T>>)
    ensures |r| >= 1
    decreases |s|
  {
    if s == [] then [[]]
    else
      var rest := Split(s[1..], sep);
      if s[0] == sep then [[]] + rest else [[s[0]] + rest[0]] + rest[1..]
  }

  /** Concatenation regrouped from right-nested to left-nested. */
  lemma Regroup5<T>(a: seq<T>, b: seq<T>, c: seq<T>, d: seq<T>, e: seq<T>)
    ensures a + (b + (c + (d + e))) == a + b + c + d + e
  {
  }

  /** No piece holds the separator. */
  lemma {:induction false} SplitPieces<T>(s: seq<T>, sep: T)
    ensures forall i :: 0 <= i < |Split(s, sep)| ==> sep !in Split(s, sep)[i]
    decreases |s|
  {
    if s != [] {
      SplitPieces(s[1..], sep);
      var rest := Split(s[1..], sep);
      if s[0] != sep {
        assert sep !in [s[0]] + rest[0];
      }
    }
  }

  /** Joining the pieces with the separator gives back the input. */
  lemma {:induction false} JoinSplit<T>(s: seq<T>, sep: T)
    ensures Join(Split(s, sep), [sep]) == s
    decreases |s|
  {
    if s != [] {
      JoinSplit(s[1..], sep);
      JoinStep(s[0], sep, Split(s[1..], sep));
      assert s == [s[0]] + s[1..];
    }
  }

  /** Joining the pieces after one step of `Split` on `c` puts `c` in front of the joined pieces. */
  lemma JoinStep<T>(c: T, sep: T, rest: seq<seq<T>>)
    requires |rest| >= 1
    ensures Join(if c == sep then [[]] + rest else [[c] + rest[0]] + rest[1..], [sep]) == [c] + Join(rest, [sep])
  {
    if c == sep {
      assert ([[]] + rest)[1..] == rest;
    } else if |rest| == 1 {
      assert Join([[c] + rest[0]] + rest[1..], [sep]) == [c] + rest[0];
    } else {
      var parts := [[c] + rest[0]] + rest[1..];
      assert parts[1..] == rest[1..];
      assert Join(parts, [sep]) == [c] + (rest[0] + [sep] + Join(rest[1..], [sep]));
    }
  }

  /** A join starts with its first part. */
  lemma JoinStart<T>(parts: seq<seq<T>>, sep: seq<T>)
    requires parts != []
    ensures parts[0] <= Join(parts, sep)
  {
    if |parts| > 1 {
      assert Join(parts, sep) == parts[0] + (sep + Join(parts[1..], sep));
    }
  }

  /** A join ends with its last part. */
  lemma JoinEnd<T>(parts: seq<seq<T>>, sep: seq<T>)
    requires parts != []
    ensures var j := Join(parts, sep); var l := parts[|parts| - 1]; |l| <= |j| && j[|j| - |l|..] == l
  {
    var l := parts[|parts| - 1];
    if |parts| > 1 {
      var init := parts[..|parts| - 1];
      assert init + [l] == parts;
      JoinConcat(init, [l], sep);
      var j := Join(init, sep) + sep + l;
      assert j[|j| - |l|..] == l;
    }
  }

  /** There is one more piece than there are separators. */
  lemma {:induction false} SplitCount<T>(s: seq<T>, sep: T)
    ensures |Split(s, sep)| == Count(s, sep) + 1
    decreases |s|
  {
    if s != [] {
      SplitCount(s[1..], sep);
    }
  }

  /** Splitting at a separator splits the two sides independently. */
  lemma {:induction false} SplitConcat<T>(a: seq<T>, b: seq<T>, sep: T)
    ensures Split(a + [sep] + b, sep) == Split(a, sep) + Split(b, sep)
    decreases |a|
  {
    if a == [] {
      assert a + [sep] + b == [sep] + b;
      assert ([sep] + b)[1..] == b;
    } else {
      var x := a + [sep] + b;
      assert x[0] == a[0] && x[1..] == a[1..] + [sep] + b;
      SplitConcat(a[1..], b, sep);
      SplitStep(a[0], sep, Split(a[1..], sep), Split(b, sep));
    }
  }

  /** One step of `Split` on a first element `c`, applied to pieces followed by more pieces. */
  lemma SplitStep<T>(c: T, sep: T, ra: seq<seq<T>>, rb: seq<seq<T>>)
    requires |ra| >= 1
    ensures (if c == sep then [[]] + (ra + rb) else [[c] + (ra + rb)[0]] + (ra + rb)[1..])
         == (if c == sep then [[]] + ra else [[c] + ra[0]] + ra[1..]) + rb
  {
    if c != sep {
      assert (ra + rb)[1..] == ra[1..] + rb;
    }
  }

  /** A sequence without the separator is a single piece. */
  lemma {:induction false} SplitNoSep<T>(s: seq<T>, sep: T)
    requires sep !in s
    ensures Split(s, sep) == [s]
    decreases |s|
  {
    if s != [] {
      SplitNoSep(s[1..], sep);
      assert [s[0]] + s[1..] == s;
    }
  }

  /** Joining two non-empty lists of parts puts one separator between the two joins. */
  lemma {:induction false} JoinConcat<T>(a: seq<seq<T>>, b: seq<seq<T>>, sep: seq<T>)
    requires a != [] && b != []
    ensures Join(a + b, sep) == Join(a, sep) + sep + Join(b, sep)
    decreases |a|
  {
    if |a| == 1 {
      assert (a + b)[1..] == b;
    } else {
      assert (a + b)[1..] == a[1..] + b;
      JoinConcat(a[1..], b, sep);
    }
  }

  /** Splitting what was joined with the separator gives back the parts, when no part holds the separator. */
  lemma {:induction false} SplitJoin<T>(parts: seq<seq<T>>, sep: T)
    requires parts != []
    requires forall i :: 0 <= i < |parts| ==> sep !in parts[i]
    ensures Split(Join(parts, [sep]), sep) == parts
    decreases |parts|
  {
    if |parts| == 1 {
      SplitNoSep(parts[0], sep);
    } else {
      SplitJoin(parts[1..], sep);
      SplitNoSep(parts[0], sep);
      SplitConcat(parts[0], Join(parts[1..], [sep]), sep);
      assert parts[0] + [sep] + Join(parts[1..], [sep]) == Join(parts, [sep]);
    }
  }
}
