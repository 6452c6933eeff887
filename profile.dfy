/**
 * The career profile document of backend/src/models/Profile.js: the
 * additive completion score, the pre-save hook that stores it, the
 * experience total split into years and months, and the two queries on the
 * skill and experience lists.
 *
 * Optional strings are `""` when absent (JavaScript treats both as falsy);
 * dates are milliseconds since the epoch, and "now" is a parameter.
 */
module Profiles {
  import opened Seqs

  datatype Skill = Skill(name: string, category: string, level: string)

  /** An experience entry; a missing `endDate` marks the current job. */
  datatype Experience = Experience(title: string, company: string, startDate: int, endDate: Option<int>)

  datatype Education = Education(institution: string, degree: string)

  datatype Project = Project(name: string)

  // ---------------------------------------------------------------------
  // The completion score as a table of awards
  // ---------------------------------------------------------------------

  /** The number of completion tests. */
  const TestCount: nat := 12

  /** `maxScore`. */
  const MaxScore: nat := 100

  /**
   * The points of completion test `k`, in the order the
   * `completionPercentage` getter checks them (Profile.js:323-342).
   */
  function PointsOf(k: nat): nat
    requires k < TestCount
  {
    match k
    case 0 => 5 case 1 => 10 case 2 => 5
    case 3 => 15 case 4 => 10 case 5 => 5
    case 6 => 15 case 7 => 5
    case 8 => 15
    case 9 => 5 case 10 => 5 case _ => 5
  }

  /** The points of every test from position `i` on. */
  function SumFrom(i: nat): nat
    requires i <= TestCount
    decreases TestCount - i
  {
    if i == TestCount then 0 else PointsOf(i) + SumFrom(i + 1)
  }

  /** The awards add up to exactly `maxScore`. */
  lemma PointsTotal()
    ensures SumFrom(0) == MaxScore
  {
    assert SumFrom(8) == 30;
    assert SumFrom(4) == 65;
  }

  // ---------------------------------------------------------------------
  // Experience months
  // ---------------------------------------------------------------------

  /**
   * `1000 * 60 * 60 * 24 * 30.44`, the average month in milliseconds. The
   * floating-point product is exactly this integer.
   */
  const MonthMillis: nat := 2630016000

  function Abs(x: int): nat {
    if x < 0 then -x else x
  }

  /** `Math.ceil(Math.abs(end - start) / MonthMillis)`: the months a span covers, a started month counting whole. */
  function MonthsBetween(start: int, end: int): (m: nat)
    ensures Abs(end - start) <= m * MonthMillis
    ensures m > 0 ==> (m - 1) * MonthMillis < Abs(end - start)
    ensures m == 0 <==> start == end
  {
    (Abs(end - start) + MonthMillis - 1) / MonthMillis
  }

  /** The months of one entry; an entry without an end date runs until `now`. */
  function MonthsOf(e: Experience, now: int): nat {
    MonthsBetween(e.startDate, match e.endDate case Some(d) => d case None => now)
  }

  /** The months of all entries, added in list order. */
  function TotalMonths(exps: seq<Experience>, now: int): nat
    decreases |exps|
  {
    if |exps| == 0 then 0 else TotalMonths(exps[..|exps| - 1], now) + MonthsOf(exps[|exps| - 1], now)
  }

  /** The total of two lists is the sum of their totals. */
  lemma {:induction false} TotalMonthsAppend(a: seq<Experience>, b: seq<Experience>, now: int)
    ensures TotalMonths(a + b, now) == TotalMonths(a, now) + TotalMonths(b, now)
    decreases |b|
  {
    if |b| > 0 {
      var c := b[..|b| - 1];
      assert (a + b)[..|a + b| - 1] == a + c;
      TotalMonthsAppend(a, c, now);
    } else {
      assert a + b == a;
    }
  }

  /** When every entry has an end date, the total does not depend on the clock. */
  lemma {:induction false} ClosedTotalIgnoresNow(exps: seq<Experience>, now: int, later: int)
    requires forall e <- exps :: e.endDate.Some?
    ensures TotalMonths(exps, now) == TotalMonths(exps, later)
    decreases |exps|
  {
    if |exps| > 0 {
      ClosedTotalIgnoresNow(exps[..|exps| - 1], now, later);
    }
  }

  // ---------------------------------------------------------------------
  // getCurrentPosition
  // ---------------------------------------------------------------------

  predicate IsOpen(e: Experience) {
    e.endDate.None?
  }

  function StartOf(e: Experience): int {
    e.startDate
  }

  /**
   * `experience.filter(exp => !exp.endDate).sort(by startDate, latest
   * first)[0]`: the open entry that started last, the earliest in the list
   * among equal start dates; nothing when every entry has an end date.
   */
  function LatestOpen(exps: seq<Experience>): (r: Option<Experience>)
    ensures r.None? <==> forall e <- exps :: e.endDate.Some?
    ensures r.Some? ==> r.value in exps && r.value.endDate.None?
    ensures r.Some? ==> forall e <- exps :: e.endDate.None? ==> e.startDate <= r.value.startDate
  {
    var open := Filter(exps, IsOpen);
    var ranked := SortDesc(open, StartOf);
    FilterMembers(exps, IsOpen);
    SortDescPermutation(open, StartOf);
    SortDescSorted(open, StartOf);
    if |ranked| == 0 then
      None
    else
      assert ranked[0] in multiset(open);
      forall e <- open
        ensures e.startDate <= ranked[0].startDate
      {
        assert e in multiset(ranked);
        var i :| 0 <= i < |ranked| && ranked[i] == e;
        assert i == 0 || StartOf(ranked[0]) >= StartOf(ranked[i]);
      }
      Some(ranked[0])
  }

  /** Among open entries with the latest start date, the first in the list is chosen (the sort is stable). */
  lemma LatestOpenFirstAmongTies(exps: seq<Experience>)
    requires LatestOpen(exps).Some?
    ensures var r := LatestOpen(exps).value;
      var ties := WithKey(Filter(exps, IsOpen), StartOf, r.startDate);
      |ties| > 0 && r == ties[0]
  {
    var open := Filter(exps, IsOpen);
    var ranked := SortDesc(open, StartOf);
    var r := ranked[0];
    SortDescStable(open, StartOf, r.startDate);
    assert WithKey(ranked, StartOf, r.startDate)[0] == r;
  }

  // ---------------------------------------------------------------------
  // The document
  // ---------------------------------------------------------------------

  /**
   * The fields of a profile the core reads or writes: `location.city`,
   * `currentRole.title`, `careerGoals.shortTerm`, `socialLinks.linkedin` and
   * `socialLinks.github` are flattened, and `analytics.profileCompleteness`
   * and `totalExperience.years/months` are stored fields.
   */
  class Profile {
    var headline: string
    var summary: string
    var city: string
    var experience: seq<Experience>
    var currentRoleTitle: string
    var experienceLevel: string
    var skills: seq<Skill>
    var education: seq<Education>
    var projects: seq<Project>
    var shortTermGoal: string
    var linkedin: string
    var github: string
    var profileCompleteness: nat
    var lastUpdated: int
    var totalYears: nat
    var totalMonths: nat

    /** Whether completion test `k` passes, in the getter's order. */
    predicate Passes(k: nat)
      reads this
      requires k < TestCount
    {
      match k
      case 0 => headline != ""
      case 1 => summary != ""
      case 2 => city != ""
      case 3 => |experience| > 0
      case 4 => currentRoleTitle != ""
      case 5 => experienceLevel != ""
      case 6 => |skills| >= 5
      case 7 => |skills| >= 10
      case 8 => |education| > 0
      case 9 => |projects| > 0
      case 10 => shortTermGoal != ""
      case _ => linkedin != "" || github != ""
    }

    /** The points the passed tests from position `i` on earn. */
    function AwardedFrom(i: nat): nat
      reads this
      requires i <= TestCount
      decreases TestCount - i
    {
      if i == TestCount then 0 else (if Passes(i) then PointsOf(i) else 0) + AwardedFrom(i + 1)
    }

    /** The points all passed tests earn. */
    function Score(): nat
      reads this
    {
      AwardedFrom(0)
    }

    /**
     * The `completionPercentage` getter (Profile.js:318-345): the points of
     * the passed tests, which never exceed 100, so the final `Math.min`
     * never lowers the sum.
     */
    method CompletionPercentage() returns (pct: nat)
      ensures pct == Score()
    {
      var score := 0;
      score := score + if headline != "" then 5 else 0;
      score := score + if summary != "" then 10 else 0;
      assert score + AwardedFrom(2) == AwardedFrom(0);
      score := score + if city != "" then 5 else 0;
      score := score + if |experience| > 0 then 15 else 0;
      assert score + AwardedFrom(4) == AwardedFrom(0);
      score := score + if currentRoleTitle != "" then 10 else 0;
      score := score + if experienceLevel != "" then 5 else 0;
      assert score + AwardedFrom(6) == AwardedFrom(0);
      score := score + if |skills| >= 5 then 15 else 0;
      score := score + if |skills| >= 10 then 5 else 0;
      assert score + AwardedFrom(8) == AwardedFrom(0);
      score := score + if |education| > 0 then 15 else 0;
      score := score + if |projects| > 0 then 5 else 0;
      assert score + AwardedFrom(10) == AwardedFrom(0);
      score := score + if shortTermGoal != "" then 5 else 0;
      score := score + if linkedin != "" || github != "" then 5 else 0;
      assert score + AwardedFrom(12) == AwardedFrom(0);
      ScoreAtMostMax(this);
      pct := if score < MaxScore then score else MaxScore;
    }

    /** The pre-save hook (Profile.js:348-352): stores the completion score and stamps the time. */
    method PreSave(now: int)
      modifies this`profileCompleteness, this`lastUpdated
      ensures profileCompleteness == old(Score()) && lastUpdated == now
    {
      profileCompleteness := CompletionPercentage();
      lastUpdated := now;
    }

    /**
     * `calculateTotalExperience` (Profile.js:355-372): adds up the months of
     * every entry and stores them as whole years and remaining months.
     */
    method CalculateTotalExperience(now: int) returns (years: nat, months: nat)
      modifies this`totalYears, this`totalMonths
      ensures 12 * totalYears + totalMonths == TotalMonths(experience, now)
      ensures totalMonths < 12
      ensures years == totalYears && months == totalMonths
    {
      var total := 0;
      for i := 0 to |experience|
        invariant total == TotalMonths(experience[..i], now)
      {
        assert experience[..i + 1][..i] == experience[..i];
        total := total + MonthsOf(experience[i], now);
      }
      assert experience[..|experience|] == experience;
      totalYears := total / 12;
      totalMonths := total % 12;
      years, months := totalYears, totalMonths;
    }

    /**
     * `getSkillsByCategory(category)` (Profile.js:375-377): exactly the
     * skills of that category, in list order, each as often as listed.
     */
    function SkillsByCategory(category: string): (r: seq<Skill>)
      reads this
      ensures IsSubsequence(r, skills)
      ensures forall s :: s in r <==> s in skills && s.category == category
      ensures forall s :: multiset(r)[s] == if s.category == category then multiset(skills)[s] else 0
    {
      var keep := (s: Skill) => s.category == category;
      FilterIsSubsequence(skills, keep);
      FilterMembers(skills, keep);
      assert forall s :: multiset(Filter(skills, keep))[s] == if keep(s) then multiset(skills)[s] else 0 by {
        forall s ensures multiset(Filter(skills, keep))[s] == if keep(s) then multiset(skills)[s] else 0 {
          FilterMultiplicity(skills, keep, s);
        }
      }
      Filter(skills, keep)
    }

    /** `getCurrentPosition()` (Profile.js:380-384). */
    function CurrentPosition(): Option<Experience>
      reads this
    {
      LatestOpen(experience)
    }
  }

  /** The passed tests earn at most every test's points, and all of them exactly when all pass. */
  lemma {:induction false} AwardedAtMostSum(p: Profile, i: nat)
    requires i <= TestCount
    ensures p.AwardedFrom(i) <= SumFrom(i)
    ensures p.AwardedFrom(i) == SumFrom(i) <==> forall k :: i <= k < TestCount ==> p.Passes(k)
    decreases TestCount - i
  {
    if i < TestCount {
      AwardedAtMostSum(p, i + 1);
    }
  }

  /** Passing every test another profile passes earns at least as many points. */
  lemma {:induction false} AwardedMonotone(p: Profile, q: Profile, i: nat)
    requires i <= TestCount
    requires forall k :: i <= k < TestCount ==> p.Passes(k) ==> q.Passes(k)
    ensures p.AwardedFrom(i) <= q.AwardedFrom(i)
    decreases TestCount - i
  {
    if i < TestCount {
      AwardedMonotone(p, q, i + 1);
    }
  }

  /** The score never exceeds `maxScore`. */
  lemma ScoreAtMostMax(p: Profile)
    ensures p.Score() <= MaxScore
  {
    AwardedAtMostSum(p, 0);
    PointsTotal();
  }

  /** The score lies in 0..100 and is 100 exactly when every test passes. */
  lemma ScoreRange(p: Profile)
    ensures p.Score() <= MaxScore
    ensures p.Score() == MaxScore <==> forall k :: 0 <= k < TestCount ==> p.Passes(k)
  {
    AwardedAtMostSum(p, 0);
    PointsTotal();
  }

  /** A profile that passes every test another passes scores at least as much. */
  lemma ScoreMonotone(p: Profile, q: Profile)
    requires forall k :: 0 <= k < TestCount ==> p.Passes(k) ==> q.Passes(k)
    ensures p.Score() <= q.Score()
  {
    AwardedMonotone(p, q, 0);
  }

  /**
   * The two skills tests together earn 0 points below 5 skills, 15 from 5
   * to 9 and 20 from 10 on.
   */
  lemma SkillsShare(p: Profile)
    ensures p.AwardedFrom(6) - p.AwardedFrom(8) == (if |p.skills| >= 10 then 20 else if |p.skills| >= 5 then 15 else 0)
  {
    assert p.AwardedFrom(7) == (if |p.skills| >= 10 then 5 else 0) + p.AwardedFrom(8);
  }
}
