/**
 * The category counts of the skill analyser: for each keyword table, how
 * many of the lowercased skills contain at least one of its keywords as a
 * substring (`skillsLower.filter(skill => table.some(k => skill.includes(k))).length`).
 */
module Categorizer {
  import opened Text
  import opened Seqs
  import opened Taxonomy

  /** `keywords.some(k => skill.includes(k))`, trying the keywords from index `i` on. */
  predicate MentionsFrom(skill: string, keywords: seq<string>, i: nat)
    decreases |keywords| - i
  {
    i < |keywords| && (Includes(skill, keywords[i]) || MentionsFrom(skill, keywords, i + 1))
  }

  /** `keywords.some(k => skill.includes(k))`. */
  predicate MentionsAny(skill: string, keywords: seq<string>) {
    MentionsFrom(skill, keywords, 0)
  }

  lemma {:induction false} MentionsFromIff(skill: string, keywords: seq<string>, i: nat)
    ensures MentionsFrom(skill, keywords, i)
        <==> exists j :: i <= j < |keywords| && Includes(skill, keywords[j])
    decreases |keywords| - i
  {
    if i < |keywords| {
      MentionsFromIff(skill, keywords, i + 1);
      if MentionsFrom(skill, keywords, i + 1) {
        var j :| i + 1 <= j < |keywords| && Includes(skill, keywords[j]);
      }
    }
  }

  /** `some` holds exactly when one of the keywords is included in the skill. */
  lemma MentionsAnyIff(skill: string, keywords: seq<string>)
    ensures MentionsAny(skill, keywords) <==> exists k :: k in keywords && Includes(skill, k)
  {
    MentionsFromIff(skill, keywords, 0);
    if k :| k in keywords && Includes(skill, k) {
      var j :| 0 <= j < |keywords| && keywords[j] == k;
    }
  }

  /** The lowercased skill mentions one of the keywords. */
  predicate Matches(skill: string, keywords: seq<string>) {
    MentionsAny(Lower(skill), keywords)
  }

  /** `skillsLower.filter(skill => keywords.some(k => skill.includes(k))).length`. */
  function CountWith(skills: seq<string>, keywords: seq<string>): (n: nat)
    ensures n <= |skills|
  {
    |Filter(skills, s => Matches(s, keywords))|
  }

  /** The 21 counts, under the names the cascade uses for them. */
  datatype Counts = Counts(
    medicalFoundation: nat, clinical: nat, surgery: nat, nursing: nat,
    pharmacy: nat, dentistry: nat, physicalTherapy: nat, laboratory: nat,
    imaging: nat, mentalHealth: nat, publicHealth: nat,
    dataScience: nat, frontend: nat, backend: nat, database: nat,
    devops: nat, mobile: nat, cybersecurity: nat, gameDev: nat,
    softwareEngineering: nat, uiux: nat)

  /** The count a category's table produced. */
  function Get(n: Counts, c: Category): nat {
    match c
    case MedicalFoundation => n.medicalFoundation
    case ClinicalMedicine => n.clinical
    case Surgery => n.surgery
    case Nursing => n.nursing
    case Pharmacy => n.pharmacy
    case Dentistry => n.dentistry
    case PhysicalTherapy => n.physicalTherapy
    case Laboratory => n.laboratory
    case MedicalImaging => n.imaging
    case MentalHealth => n.mentalHealth
    case PublicHealth => n.publicHealth
    case DataScience => n.dataScience
    case Frontend => n.frontend
    case Backend => n.backend
    case Database => n.database
    case DevOps => n.devops
    case Mobile => n.mobile
    case Cybersecurity => n.cybersecurity
    case GameDevelopment => n.gameDev
    case SoftwareEngineering => n.softwareEngineering
    case UiUxDesign => n.uiux
  }

  /** The 21 counts of a skill list against the given keyword table of each category. */
  function CountIn(skills: seq<string>, tables: Category -> seq<string>): Counts {
    Counts(
      CountWith(skills, tables(MedicalFoundation)), CountWith(skills, tables(ClinicalMedicine)),
      CountWith(skills, tables(Surgery)), CountWith(skills, tables(Nursing)),
      CountWith(skills, tables(Pharmacy)), CountWith(skills, tables(Dentistry)),
      CountWith(skills, tables(PhysicalTherapy)), CountWith(skills, tables(Laboratory)),
      CountWith(skills, tables(MedicalImaging)), CountWith(skills, tables(MentalHealth)),
      CountWith(skills, tables(PublicHealth)), CountWith(skills, tables(DataScience)),
      CountWith(skills, tables(Frontend)), CountWith(skills, tables(Backend)),
      CountWith(skills, tables(Database)), CountWith(skills, tables(DevOps)),
      CountWith(skills, tables(Mobile)), CountWith(skills, tables(Cybersecurity)),
      CountWith(skills, tables(GameDevelopment)), CountWith(skills, tables(SoftwareEngineering)),
      CountWith(skills, tables(UiUxDesign)))
  }

  /** All 21 counts of a skill list, one per table as the source computes them. */
  function CountAll(skills: seq<string>): Counts {
    CountIn(skills, Keywords)
  }

  // ---------------------------------------------------------------------
  // What a count means
  // ---------------------------------------------------------------------

  /** A skill matches exactly when some keyword occurs somewhere in the lowercased skill. */
  lemma MatchesIff(skill: string, keywords: seq<string>)
    ensures Matches(skill, keywords)
        <==> exists k, p: nat :: k in keywords && OccursAt(Lower(skill), k, p)
  {
    var s := Lower(skill);
    MentionsAnyIff(s, keywords);
    forall k | k in keywords {
      IncludesIff(s, k);
    }
    if Matches(skill, keywords) {
      var k :| k in keywords && Includes(s, k);
      var p: nat :| OccursAt(s, k, p);
    }
  }

  /** One skill counts once when it matches, and not at all otherwise. */
  lemma CountSingle(skill: string, keywords: seq<string>)
    ensures CountWith([skill], keywords) == if Matches(skill, keywords) then 1 else 0
  {
    assert [skill][1..] == [];
  }

  /** Counts add up over concatenated skill lists. */
  lemma CountAppend(a: seq<string>, b: seq<string>, keywords: seq<string>)
    ensures CountWith(a + b, keywords) == CountWith(a, keywords) + CountWith(b, keywords)
  {
    FilterAppend(a, b, s => Matches(s, keywords));
  }

  /** Appending a skill never lowers a count, and raises it by one exactly when the skill matches. */
  lemma CountAppendOne(skills: seq<string>, skill: string, keywords: seq<string>)
    ensures CountWith(skills + [skill], keywords)
         == CountWith(skills, keywords) + (if Matches(skill, keywords) then 1 else 0)
    ensures CountWith(skills + [skill], keywords) >= CountWith(skills, keywords)
  {
    CountAppend(skills, [skill], keywords);
    CountSingle(skill, keywords);
  }

  /** The count of a list is the first skill's contribution plus the count of the rest. */
  lemma CountFirst(skills: seq<string>, keywords: seq<string>)
    requires |skills| > 0
    ensures CountWith(skills, keywords)
         == (if Matches(skills[0], keywords) then 1 else 0) + CountWith(skills[1..], keywords)
  {
    assert skills == [skills[0]] + skills[1..];
    CountAppend([skills[0]], skills[1..], keywords);
    CountSingle(skills[0], keywords);
  }

  /** A repeated skill is counted each time it occurs. */
  lemma CountDuplicate(skills: seq<string>, skill: string, keywords: seq<string>)
    requires Matches(skill, keywords)
    ensures CountWith(skills + [skill, skill], keywords) == CountWith(skills, keywords) + 2
  {
    assert skills + [skill, skill] == (skills + [skill]) + [skill];
    CountAppendOne(skills, skill, keywords);
    CountAppendOne(skills + [skill], skill, keywords);
  }

  /** Reordering the skill list changes no count. */
  lemma CountPermutation(a: seq<string>, b: seq<string>, keywords: seq<string>)
    requires multiset(a) == multiset(b)
    ensures CountWith(a, keywords) == CountWith(b, keywords)
  {
    var p := s => Matches(s, keywords);
    var fa, fb := multiset(Filter(a, p)), multiset(Filter(b, p));
    forall x
      ensures fa[x] == fb[x]
    {
      FilterMultiplicity(a, p, x);
      FilterMultiplicity(b, p, x);
    }
    assert fa == fb;
    assert |fa| == |Filter(a, p)| && |fb| == |Filter(b, p)|;
  }

  /** A count is zero exactly when no skill matches. */
  lemma {:induction false} CountZeroIff(skills: seq<string>, keywords: seq<string>)
    ensures CountWith(skills, keywords) == 0 <==> forall s <- skills :: !Matches(s, keywords)
  {
    if |skills| > 0 {
      assert skills == [skills[0]] + skills[1..];
      CountAppend([skills[0]], skills[1..], keywords);
      CountSingle(skills[0], keywords);
      CountZeroIff(skills[1..], keywords);
    }
  }

  /** A count is the full length exactly when every skill matches. */
  lemma {:induction false} CountFullIff(skills: seq<string>, keywords: seq<string>)
    ensures CountWith(skills, keywords) == |skills| <==> forall s <- skills :: Matches(s, keywords)
  {
    if |skills| > 0 {
      assert skills == [skills[0]] + skills[1..];
      CountAppend([skills[0]], skills[1..], keywords);
      CountSingle(skills[0], keywords);
      CountFullIff(skills[1..], keywords);
    }
  }

  // ---------------------------------------------------------------------
  // Deciding single skills
  // ---------------------------------------------------------------------

  /** A skill matches a table as soon as one keyword of the table occurs in its lowered form. */
  lemma MatchesKeyword(skill: string, lowered: string, keywords: seq<string>, k: string)
    requires Lower(skill) == lowered && k in keywords && Includes(lowered, k)
    ensures Matches(skill, keywords)
  {
    MentionsAnyIff(lowered, keywords);
  }

  /** No keyword among `keywords[lo..hi]` occurs in `s`. */
  predicate NoneIncluded(s: string, keywords: seq<string>, lo: nat, hi: nat)
    requires lo <= hi <= |keywords|
  {
    forall k <- keywords[lo..hi] :: !Includes(s, k)
  }

  lemma NoneIncludedJoin(s: string, keywords: seq<string>, lo: nat, mid: nat, hi: nat)
    requires lo <= mid <= hi <= |keywords|
    requires NoneIncluded(s, keywords, lo, mid) && NoneIncluded(s, keywords, mid, hi)
    ensures NoneIncluded(s, keywords, lo, hi)
  {
    assert keywords[lo..hi] == keywords[lo..mid] + keywords[mid..hi];
  }

  /** A skill none of whose keywords occurs in its lowered form does not match the table. */
  lemma NoMatch(skill: string, lowered: string, keywords: seq<string>)
    requires Lower(skill) == lowered && NoneIncluded(lowered, keywords, 0, |keywords|)
    ensures !Matches(skill, keywords)
  {
    assert keywords[0..|keywords|] == keywords;
    MentionsAnyIff(lowered, keywords);
  }

  // ---------------------------------------------------------------------
  // Short keywords match inside longer words
  // ---------------------------------------------------------------------

  /** A one-character keyword fires on any skill containing that character. */
  lemma CharKeyword(skill: string, keywords: seq<string>, ch: char)
    requires [ch] in keywords && ch in Lower(skill)
    ensures Matches(skill, keywords)
  {
    var s := Lower(skill);
    var i :| 0 <= i < |s| && s[i] == ch;
    assert s[i..i + 1] == [ch];
    assert OccursAt(s, [ch], i);
    IncludesIff(s, [ch]);
    MentionsAnyIff(s, keywords);
  }

  /** The keyword "r" puts every skill with an "r" or "R" in it into data science. */
  lemma LetterRIsDataScience(skill: string)
    requires 'r' in Lower(skill)
    ensures Matches(skill, DataScienceKeywords())
  {
    assert "r" in DataScienceKeywords();
    CharKeyword(skill, DataScienceKeywords(), 'r');
  }

  /** The same skill can raise several categories: "python" is in three tables. */
  lemma PythonInThreeCategories()
    ensures Matches("python", DataScienceKeywords())
    ensures Matches("python", BackendKeywords())
    ensures Matches("python", GameDevelopmentKeywords())
  {
    assert Lower("python") == "python";
    assert Includes("python", "python");
    MentionsAnyIff("python", DataScienceKeywords());
    MentionsAnyIff("python", BackendKeywords());
    MentionsAnyIff("python", GameDevelopmentKeywords());
    assert "python" in DataScienceKeywords();
    assert "python" in BackendKeywords();
    assert "python" in GameDevelopmentKeywords();
  }
}
