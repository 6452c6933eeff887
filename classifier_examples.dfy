/**
 * The worked examples of the skill analyser, stated per stage: the counts a
 * skill list produces in the tables the example depends on, and what the
 * cascade returns for any counts that agree with them.
 */
module ClassifierExamples {
  import Seqs
  import opened Text
  import opened Categorizer
  import opened Taxonomy
  import opened Classifier

  // ---------------------------------------------------------------------
  // No skills: the default record
  // ---------------------------------------------------------------------

  /** The counts of twenty-one empty categories. */
  const NoCounts := Counts(0, 0, 0, 0, 0, 0, 0, 0, 0, 0, 0, 0, 0, 0, 0, 0, 0, 0, 0, 0, 0)

  /** Every count of an empty skill list is zero. */
  lemma NoSkillsCountNothing(keywords: seq<string>)
    ensures CountWith([], keywords) == 0
  {
  }

  /** An empty skill list has the all-zero counts, whatever the tables. */
  lemma NoSkillsNoCounts(skills: seq<string>, tables: Category -> seq<string>)
    requires |skills| == 0
    ensures CountIn(skills, tables) == NoCounts
  {
    forall c
      ensures CountWith(skills, tables(c)) == 0
    {
      NoSkillsCountNothing(tables(c));
    }
  }

  /** The all-zero counts take the default branch with score 60. */
  lemma NoCountsExplorer()
    ensures Cascade(NoCounts) == Outcome(CareerExplorer, 60)
  {
  }

  /** The default record is titled "Career Explorer". */
  lemma ExplorerTitle()
    ensures Record(CareerExplorer).title == "Career Explorer"
  {
  }

  /** The default record gives a salary of 65000. */
  lemma ExplorerSalary()
    ensures Record(CareerExplorer).averageSalary == 65000
  {
  }

  /** With no skills every count is zero. */
  lemma NoSkillsAllZero(skills: seq<string>)
    requires |skills| == 0
    ensures CountAll(skills) == NoCounts
  {
    NoSkillsNoCounts(skills, Keywords);
  }

  /**
   * With no skills every count is zero, the default branch is taken with
   * score 60, and the analysis is the "Career Explorer" record.
   */
  lemma NoSkillsExplorer(skills: seq<string>)
    requires |skills| == 0
    ensures CountAll(skills) == NoCounts
    ensures AnalyzeSkills(skills) == Scored(Record(CareerExplorer), 60)
    ensures AnalyzeSkills(skills).title == "Career Explorer"
    ensures AnalyzeSkills(skills).matchScore == 60
    ensures AnalyzeSkills(skills).averageSalary == 65000
  {
    NoSkillsAllZero(skills);
    NoCountsExplorer();
    ExplorerTitle();
    ExplorerSalary();
  }

  // ---------------------------------------------------------------------
  // Three surgical skills: the surgeon record
  // ---------------------------------------------------------------------

  const SurgerySkills: seq<string> := ["surgery", "surgical", "operating room"]

  /** "surgery" contains the Surgery keyword "surgery". */
  lemma SurgeryIsSurgery()
    ensures Matches("surgery", SurgeryKeywords())
  {
    MatchesKeyword("surgery", "surgery", SurgeryKeywords(), "surgery");
  }

  /** "surgical" contains the Surgery keyword "surgical". */
  lemma SurgicalIsSurgery()
    ensures Matches("surgical", SurgeryKeywords())
  {
    MatchesKeyword("surgical", "surgical", SurgeryKeywords(), "surgical");
  }

  /** "operating room" contains the Surgery keyword "operating room". */
  lemma OperatingRoomIsSurgery()
    ensures Matches("operating room", SurgeryKeywords())
  {
    MatchesKeyword("operating room", "operating room", SurgeryKeywords(), "operating room");
  }

  /** Each of the three skills contains a surgery keyword. */
  lemma SurgerySkillsSurgeryCount()
    ensures CountWith(SurgerySkills, SurgeryKeywords()) == 3
  {
    SurgeryIsSurgery();
    SurgicalIsSurgery();
    OperatingRoomIsSurgery();
    CountFirst(SurgerySkills, SurgeryKeywords());
    CountFirst(SurgerySkills[1..], SurgeryKeywords());
    CountFirst(SurgerySkills[2..], SurgeryKeywords());
    assert SurgerySkills[3..] == [];
  }

  lemma SurgeryNotMedicalFoundationPart0()
    ensures NoneIncluded("surgery", MedicalFoundationKeywords(), 0, 8)
  {
  }

  lemma SurgeryNotMedicalFoundationPart1()
    ensures NoneIncluded("surgery", MedicalFoundationKeywords(), 8, 16)
  {
  }

  lemma SurgeryNotMedicalFoundationPart2()
    ensures NoneIncluded("surgery", MedicalFoundationKeywords(), 16, 24)
  {
  }

  lemma SurgeryNotMedicalFoundationPart3()
    ensures NoneIncluded("surgery", MedicalFoundationKeywords(), 24, 27)
  {
  }

  /** No keyword of the MedicalFoundation table occurs in "surgery". */
  lemma SurgeryNotMedicalFoundation()
    ensures !Matches("surgery", MedicalFoundationKeywords())
  {
    var ks := MedicalFoundationKeywords();
    SurgeryNotMedicalFoundationPart0();
    SurgeryNotMedicalFoundationPart1();
    SurgeryNotMedicalFoundationPart2();
    SurgeryNotMedicalFoundationPart3();
    NoneIncludedJoin("surgery", ks, 0, 8, 16);
    NoneIncludedJoin("surgery", ks, 0, 16, 24);
    NoneIncludedJoin("surgery", ks, 0, 24, 27);
    NoMatch("surgery", "surgery", ks);
  }

  lemma SurgicalNotMedicalFoundationPart0()
    ensures NoneIncluded("surgical", MedicalFoundationKeywords(), 0, 8)
  {
  }

  lemma SurgicalNotMedicalFoundationPart1()
    ensures NoneIncluded("surgical", MedicalFoundationKeywords(), 8, 16)
  {
  }

  lemma SurgicalNotMedicalFoundationPart2()
    ensures NoneIncluded("surgical", MedicalFoundationKeywords(), 16, 24)
  {
  }

  lemma SurgicalNotMedicalFoundationPart3()
    ensures NoneIncluded("surgical", MedicalFoundationKeywords(), 24, 27)
  {
  }

  /** No keyword of the MedicalFoundation table occurs in "surgical". */
  lemma SurgicalNotMedicalFoundation()
    ensures !Matches("surgical", MedicalFoundationKeywords())
  {
    var ks := MedicalFoundationKeywords();
    SurgicalNotMedicalFoundationPart0();
    SurgicalNotMedicalFoundationPart1();
    SurgicalNotMedicalFoundationPart2();
    SurgicalNotMedicalFoundationPart3();
    NoneIncludedJoin("surgical", ks, 0, 8, 16);
    NoneIncludedJoin("surgical", ks, 0, 16, 24);
    NoneIncludedJoin("surgical", ks, 0, 24, 27);
    NoMatch("surgical", "surgical", ks);
  }

  lemma OperatingRoomNotMedicalFoundationPart0()
    ensures NoneIncluded("operating room", MedicalFoundationKeywords(), 0, 5)
  {
  }

  lemma OperatingRoomNotMedicalFoundationPart1()
    ensures NoneIncluded("operating room", MedicalFoundationKeywords(), 5, 10)
  {
  }

  lemma OperatingRoomNotMedicalFoundationPart2()
    ensures NoneIncluded("operating room", MedicalFoundationKeywords(), 10, 15)
  {
  }

  lemma OperatingRoomNotMedicalFoundationPart3()
    ensures NoneIncluded("operating room", MedicalFoundationKeywords(), 15, 20)
  {
  }

  lemma OperatingRoomNotMedicalFoundationPart4()
    ensures NoneIncluded("operating room", MedicalFoundationKeywords(), 20, 25)
  {
  }

  lemma OperatingRoomNotMedicalFoundationPart5()
    ensures NoneIncluded("operating room", MedicalFoundationKeywords(), 25, 27)
  {
  }

  /** No keyword of the MedicalFoundation table occurs in "operating room". */
  lemma OperatingRoomNotMedicalFoundation()
    ensures !Matches("operating room", MedicalFoundationKeywords())
  {
    var ks := MedicalFoundationKeywords();
    OperatingRoomNotMedicalFoundationPart0();
    OperatingRoomNotMedicalFoundationPart1();
    OperatingRoomNotMedicalFoundationPart2();
    OperatingRoomNotMedicalFoundationPart3();
    OperatingRoomNotMedicalFoundationPart4();
    OperatingRoomNotMedicalFoundationPart5();
    NoneIncludedJoin("operating room", ks, 0, 5, 10);
    NoneIncludedJoin("operating room", ks, 0, 10, 15);
    NoneIncludedJoin("operating room", ks, 0, 15, 20);
    NoneIncludedJoin("operating room", ks, 0, 20, 25);
    NoneIncludedJoin("operating room", ks, 0, 25, 27);
    NoMatch("operating room", "operating room", ks);
  }

  /** None of the three skills contains a medical-foundation keyword. */
  lemma SurgerySkillsFoundationCount()
    ensures CountWith(SurgerySkills, MedicalFoundationKeywords()) == 0
  {
    SurgeryNotMedicalFoundation();
    SurgicalNotMedicalFoundation();
    OperatingRoomNotMedicalFoundation();
    CountZeroIff(SurgerySkills, MedicalFoundationKeywords());
  }

  /** For the three surgical skills the surgeon branch is taken with score 97. */
  lemma SurgerySkillsSurgeon(n: Counts)
    requires n.surgery == CountWith(SurgerySkills, SurgeryKeywords())
    requires n.medicalFoundation == CountWith(SurgerySkills, MedicalFoundationKeywords())
    ensures Cascade(n) == Outcome(Surgeon, 97)
  {
    SurgerySkillsSurgeryCount();
    SurgerySkillsFoundationCount();
    SurgeonWhen(n);
  }

  // ---------------------------------------------------------------------
  // A web stack with one frontend skill: not "Full Stack Developer"
  // ---------------------------------------------------------------------

  const WebSkills: seq<string> := ["react", "node.js", "sql", "express", "mongodb"]

  lemma NodeJsNotFrontendPart0()
    ensures NoneIncluded("node.js", FrontendKeywords(), 0, 8)
  {
  }

  lemma NodeJsNotFrontendPart1()
    ensures NoneIncluded("node.js", FrontendKeywords(), 8, 16)
  {
  }

  lemma NodeJsNotFrontendPart2()
    ensures NoneIncluded("node.js", FrontendKeywords(), 16, 24)
  {
  }

  lemma NodeJsNotFrontendPart3()
    ensures NoneIncluded("node.js", FrontendKeywords(), 24, 32)
  {
  }

  lemma NodeJsNotFrontendPart4()
    ensures NoneIncluded("node.js", FrontendKeywords(), 32, 40)
  {
  }

  lemma NodeJsNotFrontendPart5()
    ensures NoneIncluded("node.js", FrontendKeywords(), 40, 48)
  {
  }

  lemma NodeJsNotFrontendPart6()
    ensures NoneIncluded("node.js", FrontendKeywords(), 48, 49)
  {
  }

  /** No keyword of the Frontend table occurs in "node.js". */
  lemma NodeJsNotFrontend()
    ensures !Matches("node.js", FrontendKeywords())
  {
    var ks := FrontendKeywords();
    NodeJsNotFrontendPart0();
    NodeJsNotFrontendPart1();
    NodeJsNotFrontendPart2();
    NodeJsNotFrontendPart3();
    NodeJsNotFrontendPart4();
    NodeJsNotFrontendPart5();
    NodeJsNotFrontendPart6();
    NoneIncludedJoin("node.js", ks, 0, 8, 16);
    NoneIncludedJoin("node.js", ks, 0, 16, 24);
    NoneIncludedJoin("node.js", ks, 0, 24, 32);
    NoneIncludedJoin("node.js", ks, 0, 32, 40);
    NoneIncludedJoin("node.js", ks, 0, 40, 48);
    NoneIncludedJoin("node.js", ks, 0, 48, 49);
    NoMatch("node.js", "node.js", ks);
  }

  lemma SqlNotFrontendPart0()
    ensures NoneIncluded("sql", FrontendKeywords(), 0, 8)
  {
  }

  lemma SqlNotFrontendPart1()
    ensures NoneIncluded("sql", FrontendKeywords(), 8, 16)
  {
  }

  lemma SqlNotFrontendPart2()
    ensures NoneIncluded("sql", FrontendKeywords(), 16, 24)
  {
  }

  lemma SqlNotFrontendPart3()
    ensures NoneIncluded("sql", FrontendKeywords(), 24, 32)
  {
  }

  lemma SqlNotFrontendPart4()
    ensures NoneIncluded("sql", FrontendKeywords(), 32, 40)
  {
  }

  lemma SqlNotFrontendPart5()
    ensures NoneIncluded("sql", FrontendKeywords(), 40, 48)
  {
  }

  lemma SqlNotFrontendPart6()
    ensures NoneIncluded("sql", FrontendKeywords(), 48, 49)
  {
  }

  /** No keyword of the Frontend table occurs in "sql". */
  lemma SqlNotFrontend()
    ensures !Matches("sql", FrontendKeywords())
  {
    var ks := FrontendKeywords();
    SqlNotFrontendPart0();
    SqlNotFrontendPart1();
    SqlNotFrontendPart2();
    SqlNotFrontendPart3();
    SqlNotFrontendPart4();
    SqlNotFrontendPart5();
    SqlNotFrontendPart6();
    NoneIncludedJoin("sql", ks, 0, 8, 16);
    NoneIncludedJoin("sql", ks, 0, 16, 24);
    NoneIncludedJoin("sql", ks, 0, 24, 32);
    NoneIncludedJoin("sql", ks, 0, 32, 40);
    NoneIncludedJoin("sql", ks, 0, 40, 48);
    NoneIncludedJoin("sql", ks, 0, 48, 49);
    NoMatch("sql", "sql", ks);
  }

  lemma ExpressNotFrontendPart0()
    ensures NoneIncluded("express", FrontendKeywords(), 0, 8)
  {
  }

  lemma ExpressNotFrontendPart1()
    ensures NoneIncluded("express", FrontendKeywords(), 8, 16)
  {
  }

  lemma ExpressNotFrontendPart2()
    ensures NoneIncluded("express", FrontendKeywords(), 16, 24)
  {
  }

  lemma ExpressNotFrontendPart3()
    ensures NoneIncluded("express", FrontendKeywords(), 24, 32)
  {
  }

  lemma ExpressNotFrontendPart4()
    ensures NoneIncluded("express", FrontendKeywords(), 32, 40)
  {
  }

  lemma ExpressNotFrontendPart5()
    ensures NoneIncluded("express", FrontendKeywords(), 40, 48)
  {
  }

  lemma ExpressNotFrontendPart6()
    ensures NoneIncluded("express", FrontendKeywords(), 48, 49)
  {
  }

  /** No keyword of the Frontend table occurs in "express". */
  lemma ExpressNotFrontend()
    ensures !Matches("express", FrontendKeywords())
  {
    var ks := FrontendKeywords();
    ExpressNotFrontendPart0();
    ExpressNotFrontendPart1();
    ExpressNotFrontendPart2();
    ExpressNotFrontendPart3();
    ExpressNotFrontendPart4();
    ExpressNotFrontendPart5();
    ExpressNotFrontendPart6();
    NoneIncludedJoin("express", ks, 0, 8, 16);
    NoneIncludedJoin("express", ks, 0, 16, 24);
    NoneIncludedJoin("express", ks, 0, 24, 32);
    NoneIncludedJoin("express", ks, 0, 32, 40);
    NoneIncludedJoin("express", ks, 0, 40, 48);
    NoneIncludedJoin("express", ks, 0, 48, 49);
    NoMatch("express", "express", ks);
  }

  lemma MongodbNotFrontendPart0()
    ensures NoneIncluded("mongodb", FrontendKeywords(), 0, 8)
  {
  }

  lemma MongodbNotFrontendPart1()
    ensures NoneIncluded("mongodb", FrontendKeywords(), 8, 16)
  {
  }

  lemma MongodbNotFrontendPart2()
    ensures NoneIncluded("mongodb", FrontendKeywords(), 16, 24)
  {
  }

  lemma MongodbNotFrontendPart3()
    ensures NoneIncluded("mongodb", FrontendKeywords(), 24, 32)
  {
  }

  lemma MongodbNotFrontendPart4()
    ensures NoneIncluded("mongodb", FrontendKeywords(), 32, 40)
  {
  }

  lemma MongodbNotFrontendPart5()
    ensures NoneIncluded("mongodb", FrontendKeywords(), 40, 48)
  {
  }

  lemma MongodbNotFrontendPart6()
    ensures NoneIncluded("mongodb", FrontendKeywords(), 48, 49)
  {
  }

  /** No keyword of the Frontend table occurs in "mongodb". */
  lemma MongodbNotFrontend()
    ensures !Matches("mongodb", FrontendKeywords())
  {
    var ks := FrontendKeywords();
    MongodbNotFrontendPart0();
    MongodbNotFrontendPart1();
    MongodbNotFrontendPart2();
    MongodbNotFrontendPart3();
    MongodbNotFrontendPart4();
    MongodbNotFrontendPart5();
    MongodbNotFrontendPart6();
    NoneIncludedJoin("mongodb", ks, 0, 8, 16);
    NoneIncludedJoin("mongodb", ks, 0, 16, 24);
    NoneIncludedJoin("mongodb", ks, 0, 24, 32);
    NoneIncludedJoin("mongodb", ks, 0, 32, 40);
    NoneIncludedJoin("mongodb", ks, 0, 40, 48);
    NoneIncludedJoin("mongodb", ks, 0, 48, 49);
    NoMatch("mongodb", "mongodb", ks);
  }

  /** "react" contains the Frontend keyword "react". */
  lemma ReactIsFrontend()
    ensures Matches("react", FrontendKeywords())
  {
    MatchesKeyword("react", "react", FrontendKeywords(), "react");
  }

  /** Only "react" contains a frontend keyword. */
  lemma WebSkillsFrontendCount()
    ensures CountWith(WebSkills, FrontendKeywords()) == 1
  {
    ReactIsFrontend();
    NodeJsNotFrontend();
    SqlNotFrontend();
    ExpressNotFrontend();
    MongodbNotFrontend();
    CountFirst(WebSkills, FrontendKeywords());
    assert WebSkills[1..] == ["node.js", "sql", "express", "mongodb"];
    CountZeroIff(WebSkills[1..], FrontendKeywords());
  }

  /** "react" and "express" both contain the data-science keyword "r". */
  lemma WebSkillsDataScienceCount()
    ensures CountWith(WebSkills, DataScienceKeywords()) >= 2
  {
    assert Lower("react")[0] == 'r' && Lower("express")[3] == 'r';
    LetterRIsDataScience("react");
    LetterRIsDataScience("express");
    CountFirst(WebSkills, DataScienceKeywords());
    CountFirst(WebSkills[1..], DataScienceKeywords());
    CountFirst(WebSkills[2..], DataScienceKeywords());
    CountFirst(WebSkills[3..], DataScienceKeywords());
  }

  /**
   * These five skills give one frontend match, so the full-stack branch is
   * not taken; two data-science matches keep the default away as well.
   */
  lemma WebSkillsNotFullStack(n: Counts)
    requires n.frontend == CountWith(WebSkills, FrontendKeywords())
    requires n.dataScience == CountWith(WebSkills, DataScienceKeywords())
    ensures Cascade(n).path != FullStackDeveloper
    ensures Cascade(n).path != CareerExplorer
  {
    WebSkillsFrontendCount();
    WebSkillsDataScienceCount();
    FullStackNeedsBoth(n);
    TechnologyAvoidsDefault(n);
  }

  // ---------------------------------------------------------------------
  // Words outside every field: still not the default record
  // ---------------------------------------------------------------------

  /** Any two skills with an "r" in them count twice for data science. */
  lemma TwoSkillsWithR(a: string, b: string)
    requires 'r' in Lower(a) && 'r' in Lower(b)
    ensures CountWith([a, b], DataScienceKeywords()) == 2
  {
    LetterRIsDataScience(a);
    LetterRIsDataScience(b);
    CountFirst([a, b], DataScienceKeywords());
    CountFirst([b], DataScienceKeywords());
    assert [a, b][1..] == [b] && [b][1..] == [];
  }

  /**
   * "unrelated" and "gibberish" belong to no field, but both contain "r":
   * the data-science count is 2 and the default record is not returned.
   */
  lemma UnrelatedSkillsNotExplorer(n: Counts)
    requires n.dataScience == CountWith(["unrelated", "gibberish"], DataScienceKeywords())
    ensures n.dataScience == 2
    ensures Cascade(n).path != CareerExplorer
  {
    assert Lower("unrelated")[2] == 'r' && Lower("gibberish")[5] == 'r';
    TwoSkillsWithR("unrelated", "gibberish");
    TechnologyAvoidsDefault(n);
  }
}
