/**
 * The path ranker of backend/src/services/ai/careerAnalyzer.js: four fixed
 * career paths of five skills each; a user's skill list gets a percentage
 * score per path (exact, case-insensitive, whole-string matches), the list
 * of the path skills it lacks, a stable descending sort of the four paths
 * by score, the first three, and the missing skills of the best one.
 *
 * The `careerPaths` table is filled once in the constructor and never
 * changed, so it is a constant here and the analyser's methods are
 * module-level members. `analyzeCareer` sorts the freshly built array of
 * matches in place (`SortByScore`), proved against `Seqs.SortDesc`.
 */
module CareerAnalyzer {
  import opened Text
  import opened Seqs

  /** One entry of `careerPaths`. */
  datatype CareerPath = CareerPath(
    id: nat, title: string, skills: seq<string>,
    averageSalary: nat, demandLevel: string, description: string)

  /** `this.careerPaths`, in table order (careerAnalyzer.js:3-36). */
  const CareerPaths: seq<CareerPath> := [
    CareerPath(1, "Frontend Developer",
      ["javascript", "react", "html", "css", "typescript"],
      75000, "high", "Build user interfaces and user experiences"),
    CareerPath(2, "Backend Developer",
      ["javascript", "nodejs", "python", "sql", "mongodb"],
      80000, "high", "Build server-side logic and databases"),
    CareerPath(3, "Full Stack Developer",
      ["javascript", "react", "nodejs", "sql", "python"],
      85000, "very-high", "Work on both frontend and backend"),
    CareerPath(4, "Data Scientist",
      ["python", "sql", "machine-learning", "statistics", "pandas"],
      95000, "very-high", "Analyze data to help companies make decisions")]

  /** Every path lists five skills. */
  lemma FiveSkillsPerPath(k: nat)
    requires k < |CareerPaths|
    ensures |CareerPaths[k].skills| == 5
  {
  }

  // ---------------------------------------------------------------------
  // Scoring one path
  // ---------------------------------------------------------------------

  /**
   * Some user skill equals `skill` once both are lowercased: the test of
   * `userSkillsLower.includes(skill.toLowerCase())` and of
   * `userSkills.some(u => u.toLowerCase() === skill.toLowerCase())`.
   */
  predicate HasSkill(userSkills: seq<string>, skill: string) {
    exists u <- userSkills :: Lower(u) == Lower(skill)
  }

  /** `matchingSkills`: the path skills the user has, in path order. */
  function Matching(userSkills: seq<string>, pathSkills: seq<string>): seq<string> {
    Filter(pathSkills, s => HasSkill(userSkills, s))
  }

  /** `missingSkills`: the path skills the user lacks, in path order. */
  function Missing(userSkills: seq<string>, pathSkills: seq<string>): seq<string> {
    Filter(pathSkills, s => !HasSkill(userSkills, s))
  }

  /**
   * `Math.round(m / n * 100)` taken on the exact quotient: the integer
   * nearest to `100 * m / n`, a half rounding up. JavaScript rounds the
   * quotient to a double first; the two agree for every `n` below 40, so for
   * every five-skill path.
   */
  function RoundedPercent(m: nat, n: nat): (r: nat)
    requires n > 0
    ensures n * (2 * r - 1) <= 200 * m < n * (2 * r + 1)
  {
    var d, a := 2 * n, 200 * m + n;
    var q := a / d;
    assert d * q <= a < d * q + d by {
      assert a == d * q + a % d;
    }
    assert n * (2 * q - 1) == d * q - n;
    assert n * (2 * q + 1) == d * q + n;
    q
  }

  /** A share of at most the whole rounds to at most 100. */
  lemma RoundedPercentAtMostFull(m: nat, n: nat)
    requires 0 < n && m <= n
    ensures RoundedPercent(m, n) <= 100
  {
    var r := RoundedPercent(m, n);
    if r >= 101 {
      MulMonotone(n, 201, 2 * r - 1);
      assert false;
    }
  }

  /** `calculateSkillMatch(userSkills, pathSkills)` (careerAnalyzer.js:60-69). */
  function CalculateSkillMatch(userSkills: seq<string>, pathSkills: seq<string>): (r: nat)
    requires |pathSkills| > 0
    ensures |userSkills| == 0 ==> r == 0
    ensures r <= 100
  {
    if |userSkills| == 0 then 0
    else
      var m := |Matching(userSkills, pathSkills)|;
      RoundedPercentAtMostFull(m, |pathSkills|);
      RoundedPercent(m, |pathSkills|)
  }

  /** The path skills split into those the user has and those missing. */
  lemma MatchingAndMissing(userSkills: seq<string>, pathSkills: seq<string>)
    ensures |Matching(userSkills, pathSkills)| + |Missing(userSkills, pathSkills)| == |pathSkills|
    ensures IsSubsequence(Missing(userSkills, pathSkills), pathSkills)
    ensures forall s <- Missing(userSkills, pathSkills) :: s in pathSkills && !HasSkill(userSkills, s)
    ensures forall s <- pathSkills :: s in Missing(userSkills, pathSkills) <==> !HasSkill(userSkills, s)
  {
    FilterComplement(pathSkills, s => HasSkill(userSkills, s), s => !HasSkill(userSkills, s));
    FilterIsSubsequence(pathSkills, s => !HasSkill(userSkills, s));
    forall s
      ensures s in Missing(userSkills, pathSkills) <==> s in pathSkills && !HasSkill(userSkills, s)
    {
      FilterMembership(pathSkills, s => !HasSkill(userSkills, s), s);
    }
  }

  /** `a <= b` scaled by a non-negative factor. */
  lemma MulMonotone(f: int, a: int, b: int)
    requires f >= 0 && a <= b
    ensures f * a <= f * b
  {
    assert f * b == f * a + f * (b - a);
  }

  /** With fewer than 200 path skills, only a full match rounds to 100. */
  lemma RoundedPercentFull(m: nat, n: nat)
    requires 0 < n < 200 && m <= n
    ensures RoundedPercent(m, n) == 100 <==> m == n
  {
    var r: int := RoundedPercent(m, n);
    if m == n {
      if r <= 99 {
        MulMonotone(n, 2 * r + 1, 199);
      } else if r >= 101 {
        MulMonotone(n, 201, 2 * r - 1);
      }
    } else if r == 100 {
      MulMonotone(200, m, n - 1);
    }
  }

  /**
   * For a non-empty skill list and fewer than 200 path skills, the score is
   * 100 exactly when no path skill is missing (with 200 or more path skills a
   * single missing one would still round to 100).
   */
  lemma FullScoreIffNothingMissing(userSkills: seq<string>, pathSkills: seq<string>)
    requires |userSkills| > 0 && 0 < |pathSkills| < 200
    ensures CalculateSkillMatch(userSkills, pathSkills) == 100 <==> Missing(userSkills, pathSkills) == []
  {
    MatchingAndMissing(userSkills, pathSkills);
    RoundedPercentFull(|Matching(userSkills, pathSkills)|, |pathSkills|);
  }

  /** With five path skills the score is 20 points per matched skill. */
  lemma FiveSkillScore(userSkills: seq<string>, pathSkills: seq<string>)
    requires |userSkills| > 0 && |pathSkills| == 5
    ensures CalculateSkillMatch(userSkills, pathSkills) == 20 * |Matching(userSkills, pathSkills)|
    ensures CalculateSkillMatch(userSkills, pathSkills) % 20 == 0
  {
    var m := |Matching(userSkills, pathSkills)|;
    assert 200 * m + 5 == 10 * (20 * m) + 5;
  }

  // ---------------------------------------------------------------------
  // Matching every path and ranking the matches
  // ---------------------------------------------------------------------

  /** One element of `matches`: the path's fields, its score and its missing skills. */
  datatype PathMatch = PathMatch(
    id: nat, title: string, skills: seq<string>,
    averageSalary: nat, demandLevel: string, description: string,
    matchScore: nat, missingSkills: seq<string>)

  /** The object `{ ...path, matchScore, missingSkills }` (careerAnalyzer.js:41-48). */
  function MatchPath(userSkills: seq<string>, path: CareerPath): (m: PathMatch)
    requires |path.skills| > 0
    ensures m.id == path.id && m.title == path.title && m.skills == path.skills
    ensures m.averageSalary == path.averageSalary && m.demandLevel == path.demandLevel
    ensures m.description == path.description
    ensures m.matchScore == CalculateSkillMatch(userSkills, path.skills)
    ensures m.missingSkills == Missing(userSkills, path.skills)
    ensures m.matchScore <= 100 && (|userSkills| == 0 ==> m.matchScore == 0)
    ensures IsSubsequence(m.missingSkills, path.skills)
    ensures forall s <- path.skills :: s in m.missingSkills <==> !HasSkill(userSkills, s)
  {
    MatchingAndMissing(userSkills, path.skills);
    PathMatch(path.id, path.title, path.skills, path.averageSalary, path.demandLevel,
              path.description, CalculateSkillMatch(userSkills, path.skills),
              Missing(userSkills, path.skills))
  }

  /** The sort key of `(a, b) => b.matchScore - a.matchScore`. */
  function ScoreOf(m: PathMatch): int {
    m.matchScore
  }

  /** `this.careerPaths.map(...)`: one match per path, in table order. */
  function AllMatches(userSkills: seq<string>): (ms: seq<PathMatch>)
    ensures |ms| == |CareerPaths|
    ensures forall k :: 0 <= k < |ms| ==>
      |CareerPaths[k].skills| == 5 && ms[k] == MatchPath(userSkills, CareerPaths[k])
  {
    forall k | 0 <= k < |CareerPaths|
      ensures |CareerPaths[k].skills| == 5
    {
      FiveSkillsPerPath(k);
    }
    seq(|CareerPaths|, k requires 0 <= k < |CareerPaths| =>
      FiveSkillsPerPath(k); MatchPath(userSkills, CareerPaths[k]))
  }

  /** `matches` after `matches.sort(...)`. */
  function Ranked(userSkills: seq<string>): seq<PathMatch> {
    SortDesc(AllMatches(userSkills), ScoreOf)
  }

  /**
   * `generateRecommendations(topMatch)`, with `toLocaleString` left to
   * `formatSalary`: four lines naming the top match's title and score (whose
   * digits read back as the score), its salary, its demand level, and
   * exactly its first two missing skills, or fewer when fewer are missing.
   */
  function Recommendations(top: PathMatch, formatSalary: nat -> string): (r: seq<string>)
    ensures |r| == 4
    ensures r[0] == "Focus on " + top.title + " with " + NatToString(top.matchScore) + "% match"
    ensures DigitsValue(NatToString(top.matchScore)) == top.matchScore
    ensures r[1] == "Average salary: $" + formatSalary(top.averageSalary)
    ensures r[2] == "Market demand: " + top.demandLevel
    ensures |top.missingSkills| == 0 ==> r[3] == "Next skills: "
    ensures |top.missingSkills| == 1 ==> r[3] == "Next skills: " + top.missingSkills[0]
    ensures |top.missingSkills| >= 2 ==>
      r[3] == "Next skills: " + top.missingSkills[0] + ", " + top.missingSkills[1]
  {
    NatToStringValue(top.matchScore);
    var next := if |top.missingSkills| < 2 then top.missingSkills else top.missingSkills[..2];
    assert |top.missingSkills| >= 2 ==> Join(next, ", ") == top.missingSkills[0] + ", " + top.missingSkills[1] by {
      if |top.missingSkills| >= 2 {
        assert next[1..] == [top.missingSkills[1]];
      }
    }
    ["Focus on " + top.title + " with " + NatToString(top.matchScore) + "% match",
     "Average salary: $" + formatSalary(top.averageSalary),
     "Market demand: " + top.demandLevel,
     "Next skills: " + Join(next, ", ")]
  }

  /** What `analyzeCareer` returns. */
  datatype Report = Report(topMatches: seq<PathMatch>, recommendations: seq<string>, skillGaps: seq<string>)

  /** The ranking is a permutation of the four matches, ordered by non-increasing score. */
  lemma RankedOrdered(userSkills: seq<string>)
    ensures |Ranked(userSkills)| == |CareerPaths|
    ensures multiset(Ranked(userSkills)) == multiset(AllMatches(userSkills))
    ensures SortedDesc(Ranked(userSkills), ScoreOf)
  {
    SortDescPermutation(AllMatches(userSkills), ScoreOf);
    SortDescSorted(AllMatches(userSkills), ScoreOf);
  }

  /** Matches with equal scores keep the order of the path table (the sort is stable). */
  lemma RankedTiesKeepTableOrder(userSkills: seq<string>, score: int)
    ensures WithKey(Ranked(userSkills), ScoreOf, score) == WithKey(AllMatches(userSkills), ScoreOf, score)
  {
    SortDescStable(AllMatches(userSkills), ScoreOf, score);
  }

  /** The first ranked match scores at least as high as every path. */
  lemma TopIsBest(userSkills: seq<string>, k: nat)
    requires k < |CareerPaths|
    ensures Ranked(userSkills)[0].matchScore >= AllMatches(userSkills)[k].matchScore
  {
    RankedOrdered(userSkills);
    var r := Ranked(userSkills);
    var x := AllMatches(userSkills)[k];
    assert x in multiset(AllMatches(userSkills));
    assert x in multiset(r);
    var i :| 0 <= i < |r| && r[i] == x;
    assert i == 0 || ScoreOf(r[0]) >= ScoreOf(r[i]);
  }

  /**
   * With no skills every score is 0, so the ranking is the table order and
   * the skill gaps are the five frontend skills.
   */
  lemma NoSkillsRanking()
    ensures Ranked([]) == AllMatches([])
    ensures Ranked([])[0].missingSkills == CareerPaths[0].skills
  {
    NoSkillsScoreZero();
    RankedTiesKeepTableOrder([], 0);
    WithKeyAll(AllMatches([]), ScoreOf, 0);
    WithKeyAll(Ranked([]), ScoreOf, 0);
    NoSkillsMissAll(CareerPaths[0].skills);
  }

  /** With no skills every match, before and after sorting, scores 0. */
  lemma NoSkillsScoreZero()
    ensures forall y <- AllMatches([]) :: ScoreOf(y) == 0
    ensures forall y <- Ranked([]) :: ScoreOf(y) == 0
  {
    var ms := AllMatches([]);
    forall k | 0 <= k < |ms|
      ensures ScoreOf(ms[k]) == 0
    {
      FiveSkillsPerPath(k);
    }
    RankedOrdered([]);
    forall y <- Ranked([])
      ensures ScoreOf(y) == 0
    {
      assert y in multiset(ms);
    }
  }

  /** With no skills every path skill is missing. */
  lemma NoSkillsMissAll(skills: seq<string>)
    ensures Missing([], skills) == skills
  {
    forall s <- skills
      ensures !HasSkill([], s)
    {
    }
    FilterAll(skills, s => !HasSkill([], s));
  }

  // ---------------------------------------------------------------------
  // analyzeCareer
  // ---------------------------------------------------------------------

  /** `analyzeCareer(userSkills)` (careerAnalyzer.js:39-58). */
  method AnalyzeCareer(userSkills: seq<string>, formatSalary: nat -> string) returns (report: Report)
    ensures report.topMatches == Ranked(userSkills)[..3]
    ensures report.skillGaps == Ranked(userSkills)[0].missingSkills
    ensures report.recommendations == Recommendations(Ranked(userSkills)[0], formatSalary)
  {
    var all := AllMatches(userSkills);
    var matches := new PathMatch[|all|](k requires 0 <= k < |all| => all[k]);
    assert matches[..] == all;
    SortByScore(matches);
    RankedOrdered(userSkills);
    report := Report(matches[..3], Recommendations(matches[0], formatSalary), matches[0].missingSkills);
  }

  /**
   * `matches.sort((a, b) => b.matchScore - a.matchScore)` in place, as a
   * stable insertion sort: each element moves left past the elements with a
   * lower score.
   */
  method SortByScore(a: array<PathMatch>)
    modifies a
    ensures a[..] == SortDesc(old(a[..]), ScoreOf)
  {
    ghost var s := a[..];
    var i := 0;
    while i < a.Length
      invariant 0 <= i <= a.Length
      invariant a[..i] == SortDesc(s[..i], ScoreOf)
      invariant a[i..] == s[i..]
    {
      SortDescSorted(s[..i], ScoreOf);
      assert a[i] == s[i] && a[i + 1..] == s[i + 1..] by {
        assert a[i..][0] == a[i] && a[i..][1..] == a[i + 1..];
        assert s[i..][0] == s[i] && s[i..][1..] == s[i + 1..];
      }
      InsertNext(a, i);
      SortDescSnoc(s, ScoreOf, i);
      i := i + 1;
    }
    assert s[..a.Length] == s;
  }

  /**
   * One pass of the insertion sort: `a[i]` moves left past the elements of
   * the sorted prefix `a[..i]` that score lower than it.
   */
  method InsertNext(a: array<PathMatch>, i: nat)
    requires i < a.Length
    requires SortedDesc(a[..i], ScoreOf)
    modifies a
    ensures a[..i + 1] == Insert(old(a[..i]), old(a[i]), ScoreOf)
    ensures a[i + 1..] == old(a[i + 1..])
  {
    ghost var t := a[..i];
    var x := a[i];
    var j := ShiftLower(a, i);
    a[j] := x;
    SortedAbove(t, ScoreOf, x, j);
    InsertAt(t, x, ScoreOf, j);
    ShiftedInsert(a[..], t, x, j);
  }

  /**
   * The backward scan of one pass: the elements of `a[..i]` scoring lower
   * than `a[i]`, which sit at its end, move one place right, and `j` is the
   * gap they leave.
   */
  method ShiftLower(a: array<PathMatch>, i: nat) returns (j: nat)
    requires i < a.Length
    modifies a
    ensures j <= i
    ensures forall k :: 0 <= k < j ==> a[k] == old(a[k])
    ensures forall k :: j < k <= i ==> a[k] == old(a[k - 1])
    ensures a[i + 1..] == old(a[i + 1..])
    ensures forall k :: j <= k < i ==> ScoreOf(old(a[k])) < ScoreOf(old(a[i]))
    ensures j > 0 ==> ScoreOf(old(a[j - 1])) >= ScoreOf(old(a[i]))
  {
    var x := a[i];
    j := i;
    while j > 0 && ScoreOf(a[j - 1]) < ScoreOf(x)
      invariant 0 <= j <= i
      invariant forall k :: 0 <= k < j ==> a[k] == old(a[k])
      invariant forall k :: j < k <= i ==> a[k] == old(a[k - 1])
      invariant a[i + 1..] == old(a[i + 1..])
      invariant forall k :: j <= k < i ==> ScoreOf(old(a[k])) < ScoreOf(x)
    {
      a[j] := a[j - 1];
      j := j - 1;
    }
  }
}
