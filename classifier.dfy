/**
 * The career classifier of the skill analyser (`analyzeSkills`,
 * backend/server.js): the 21 category counts feed an if/else-if cascade of
 * 24 guards in a fixed order, and the first guard that holds picks the
 * result record; when none holds the result is the "Career Explorer" default.
 *
 * The cascade is written out as the source has it (`Cascade`), and again as
 * data: a table of rules, each a guard over the counts, a score formula
 * `min(cap, base + sum of factor * count)` and a fixed record, read by a
 * first-match search (`Classify`). `CascadeAgrees` proves the two equal.
 */
module Classifier {
  import opened Taxonomy
  import opened Categorizer

  /** The record `analyzeSkills` returns. */
  datatype Analysis = Analysis(
    title: string, matchScore: nat, averageSalary: nat, description: string,
    skillGaps: seq<string>, recommendations: seq<string>)

  /** Everything in a result record except its score: the fixed literals of one branch. */
  datatype Career = Career(
    title: string, averageSalary: nat, description: string,
    skillGaps: seq<string>, recommendations: seq<string>)

  /** The record of `career` with score `score`. */
  function Scored(career: Career, score: nat): Analysis {
    Analysis(career.title, score, career.averageSalary, career.description,
             career.skillGaps, career.recommendations)
  }

  /** `Math.min` on non-negative integers. */
  function Min(a: nat, b: nat): (m: nat)
    ensures m <= a && m <= b
    ensures m == a || m == b
  {
    if a <= b then a else b
  }

  // ---------------------------------------------------------------------
  // The fixed records, in cascade order
  // ---------------------------------------------------------------------

  /** The branches of the cascade, each named after the career its record describes. */
  datatype Path =
      Surgeon
    | Physician
    | Psychiatrist
    | RegisteredNurse
    | Pharmacist
    | Dentist
    | PhysicalTherapist
    | LaboratoryScientist
    | RadiologicTechnologist
    | PublicHealthProfessional
    | DataScientist
    | FullStackDeveloper
    | FrontendDeveloper
    | BackendDeveloper
    | DevOpsEngineer
    | MobileDeveloper
    | CybersecuritySpecialist
    | GameDeveloper
    | UiUxDesigner
    | SoftwareEngineer
    | HealthInformaticsSpecialist
    | BiomedicalEngineer
    | HealthcareProfessional
    | TechnologyProfessional
    | CareerExplorer

  /** The fixed record of each branch. */
  function Record(p: Path): Career {
    match p
    // backend/server.js:387-399
    case Surgeon => Career(
      "Surgeon / Surgical Specialist",
      400000,
      "Exceptional fit for surgical specialties and operating room leadership!",
      ["Advanced Surgical Techniques",
       "Minimally Invasive Surgery",
       "Surgical Research",
       "Teaching & Mentoring"],
      ["Outstanding surgical knowledge and medical foundation",
       "Consider subspecialty training in cardiac, neuro, or orthopedic surgery",
       "4 years medical school + 5-7 years surgical residency required",
       "Average salary: $400,000 - $700,000+ depending on specialty"])
    // backend/server.js:405-417
    case Physician => Career(
      "Physician / Medical Doctor",
      250000,
      "Excellent foundation for medical practice and patient care!",
      ["Clinical Diagnosis",
       "Medical Research",
       "Patient Communication",
       "Evidence-Based Medicine"],
      ["Strong medical knowledge foundation with clinical focus",
       "Choose specialty: Internal Medicine, Family Medicine, Pediatrics, etc.",
       "4 years medical school + 3-7 years residency required",
       "Average salary: $250,000 - $450,000 depending on specialty"])
    // backend/server.js:421-433
    case Psychiatrist => Career(
      "Psychiatrist / Mental Health Professional",
      220000,
      "Excellent fit for mental health and behavioral healthcare!",
      ["Psychopharmacology",
       "Therapeutic Techniques",
       "Crisis Intervention",
       "Cultural Competency"],
      ["Strong foundation in psychology and mental health",
       "MD in Psychiatry: $220k+, PhD in Psychology: $90k+, LCSW: $65k+",
       "Specialization options: Child Psychiatry, Addiction Medicine, Forensic Psychology",
       "Average salary: $90,000 - $250,000 depending on credential"])
    // backend/server.js:437-449
    case RegisteredNurse => Career(
      "Registered Nurse (RN)",
      85000,
      "Perfect match for nursing and comprehensive patient care!",
      ["Advanced Practice Nursing",
       "Critical Care",
       "Evidence-Based Practice",
       "Leadership"],
      ["Excellent nursing foundation and patient care skills",
       "BSN degree strongly recommended for career advancement",
       "Consider specialization: ICU, ER, OR, Pediatrics, or Nurse Practitioner",
       "Average salary: $85,000 - $120,000 (RN), $120,000+ (NP)"])
    // backend/server.js:453-465
    case Pharmacist => Career(
      "Pharmacist",
      140000,
      "Outstanding fit for pharmaceutical care and medication expertise!",
      ["Clinical Pharmacology",
       "Pharmaceutical Care",
       "Drug Information",
       "Patient Counseling"],
      ["Strong pharmaceutical science and chemistry foundation",
       "PharmD (Doctor of Pharmacy) degree required",
       "Specialization options: Clinical, Hospital, Retail, or Industrial Pharmacy",
       "Average salary: $140,000 - $170,000"])
    // backend/server.js:469-481
    case Dentist => Career(
      "Dentist / Dental Specialist",
      200000,
      "Excellent match for dental practice and oral healthcare!",
      ["Advanced Restorative Procedures",
       "Oral Surgery",
       "Practice Management",
       "Digital Dentistry"],
      ["Strong foundation in dental science and oral health",
       "DDS or DMD degree required (4 years dental school)",
       "Specialization options: Orthodontics, Oral Surgery, Periodontics",
       "Average salary: $200,000 - $300,000+ (specialists earn more)"])
    // backend/server.js:485-497
    case PhysicalTherapist => Career(
      "Physical Therapist",
      95000,
      "Perfect fit for rehabilitation and movement therapy!",
      ["Advanced Manual Therapy",
       "Research Methods",
       "Specialty Certification",
       "Technology Integration"],
      ["Excellent foundation in movement science and rehabilitation",
       "DPT (Doctor of Physical Therapy) degree required",
       "Specialization options: Sports, Orthopedic, Neurological, Pediatric PT",
       "Average salary: $95,000 - $115,000"])
    // backend/server.js:501-513
    case LaboratoryScientist => Career(
      "Medical Laboratory Scientist",
      75000,
      "Excellent fit for laboratory diagnostics and medical testing!",
      ["Molecular Diagnostics",
       "Quality Management",
       "Laboratory Information Systems",
       "Research"],
      ["Strong analytical and laboratory science foundation",
       "Bachelor's in Medical Laboratory Science + certification required",
       "Specialization options: Hematology, Microbiology, Chemistry, Molecular Diagnostics",
       "Average salary: $75,000 - $95,000"])
    // backend/server.js:517-529
    case RadiologicTechnologist => Career(
      "Radiologic Technologist",
      70000,
      "Great match for medical imaging and diagnostic technology!",
      ["Advanced Imaging Modalities",
       "Radiation Safety",
       "Image Analysis",
       "Technology Updates"],
      ["Strong foundation in medical imaging and technology",
       "Associate degree in Radiologic Technology + certification required",
       "Specialization options: CT, MRI, Nuclear Medicine, Mammography",
       "Average salary: $70,000 - $85,000"])
    // backend/server.js:533-545
    case PublicHealthProfessional => Career(
      "Public Health Professional",
      80000,
      "Great match for population health and disease prevention!",
      ["Health Policy",
       "Program Evaluation",
       "Global Health",
       "Health Communication"],
      ["Strong foundation in public health sciences and epidemiology",
       "MPH (Master of Public Health) degree highly recommended",
       "Career options: Government, NGOs, Healthcare Organizations, Research",
       "Average salary: $80,000 - $120,000"])
    // backend/server.js:554-566
    case DataScientist => Career(
      "Data Scientist / AI Engineer",
      130000,
      "Outstanding fit for data science and artificial intelligence!",
      ["MLOps",
       "Deep Learning",
       "Big Data Engineering",
       "Model Deployment"],
      ["Exceptional data science and machine learning expertise",
       "Consider specialization in Computer Vision, NLP, or Robotics",
       "Advanced degree in Data Science/CS often preferred",
       "Average salary: $130,000 - $200,000+"])
    // backend/server.js:572-584
    case FullStackDeveloper => Career(
      "Full Stack Developer",
      105000,
      "Perfect match for full stack development across the entire web stack!",
      ["System Architecture",
       "DevOps Integration",
       "Performance Optimization",
       "Security Best Practices"],
      ["Excellent full stack capabilities with both frontend and backend expertise",
       "Consider specializing in modern frameworks like React/Node.js or Vue/Django",
       "Cloud deployment and DevOps skills would enhance your profile",
       "Average salary: $105,000 - $150,000"])
    // backend/server.js:588-600
    case FrontendDeveloper => Career(
      "Frontend Developer",
      90000,
      "Excellent match for frontend development and user interface creation!",
      ["Advanced JavaScript",
       "Performance Optimization",
       "Testing Frameworks",
       "Build Tools"],
      ["Strong frontend development skills with modern frameworks",
       "TypeScript and advanced React/Vue patterns would be valuable",
       "Consider learning mobile development or design systems",
       "Average salary: $90,000 - $125,000"])
    // backend/server.js:604-616
    case BackendDeveloper => Career(
      "Backend Developer",
      100000,
      "Outstanding fit for backend development and server-side architecture!",
      ["Microservices Architecture",
       "API Security",
       "Caching Strategies",
       "Message Queues"],
      ["Excellent backend development foundation with database expertise",
       "Microservices and cloud architecture skills are highly valuable",
       "Consider specializing in distributed systems or API design",
       "Average salary: $100,000 - $140,000"])
    // backend/server.js:620-632
    case DevOpsEngineer => Career(
      "DevOps Engineer",
      120000,
      "Perfect match for DevOps and cloud infrastructure engineering!",
      ["Site Reliability Engineering",
       "Observability",
       "Security Automation",
       "Cost Optimization"],
      ["Outstanding DevOps and cloud engineering capabilities",
       "Consider AWS/Azure/GCP certifications for specialization",
       "Site Reliability Engineering (SRE) would be a natural progression",
       "Average salary: $120,000 - $170,000"])
    // backend/server.js:636-648
    case MobileDeveloper => Career(
      "Mobile Developer",
      95000,
      "Excellent fit for mobile application development!",
      ["Advanced Mobile Architecture",
       "Performance Optimization",
       "App Store Optimization",
       "Cross-Platform Expertise"],
      ["Strong mobile development skills across platforms",
       "Consider specializing in React Native, Flutter, or native development",
       "AR/VR mobile development is an emerging high-value area",
       "Average salary: $95,000 - $130,000"])
    // backend/server.js:652-664
    case CybersecuritySpecialist => Career(
      "Cybersecurity Specialist",
      115000,
      "Outstanding fit for cybersecurity and information security roles!",
      ["Advanced Threat Detection",
       "Incident Response",
       "Security Architecture",
       "Compliance Frameworks"],
      ["Excellent cybersecurity foundation with technical depth",
       "Consider certifications: CISSP, CEH, OSCP, or SANS specializations",
       "Cloud security and DevSecOps are high-growth areas",
       "Average salary: $115,000 - $160,000"])
    // backend/server.js:668-680
    case GameDeveloper => Career(
      "Game Developer",
      85000,
      "Great match for game development and interactive entertainment!",
      ["Advanced Game Engines",
       "Multiplayer Programming",
       "VR/AR Development",
       "Game Optimization"],
      ["Strong game development skills with programming foundation",
       "Consider specializing in Unity, Unreal Engine, or indie game development",
       "VR/AR and mobile gaming are rapidly growing segments",
       "Average salary: $85,000 - $120,000"])
    // backend/server.js:684-696
    case UiUxDesigner => Career(
      "UI/UX Designer",
      80000,
      "Excellent fit for user interface and user experience design!",
      ["Design Systems",
       "User Research",
       "Prototyping Tools",
       "Accessibility Design"],
      ["Strong design foundation with user experience focus",
       "Consider specializing in product design or design systems",
       "Frontend development skills give you a significant advantage",
       "Average salary: $80,000 - $120,000"])
    // backend/server.js:700-712
    case SoftwareEngineer => Career(
      "Software Engineer",
      95000,
      "Strong foundation for software engineering and development roles!",
      ["System Design",
       "Advanced Algorithms",
       "Software Architecture",
       "Technical Leadership"],
      ["Solid software engineering fundamentals",
       "Consider specializing in a specific domain: web, mobile, or systems",
       "System design and architecture skills are valuable for senior roles",
       "Average salary: $95,000 - $140,000"])
    // backend/server.js:722-734
    case HealthInformaticsSpecialist => Career(
      "Medical Technology / Health Informatics Specialist",
      110000,
      "Perfect blend of medical knowledge and technology expertise!",
      ["Health Data Standards",
       "Medical Device Integration",
       "Healthcare Analytics",
       "Regulatory Compliance"],
      ["Exceptional combination of medical and technology skills",
       "High demand in telemedicine, medical devices, and health analytics",
       "Consider specializing in medical AI, EHR systems, or digital health",
       "Average salary: $110,000 - $150,000"])
    // backend/server.js:739-751
    case BiomedicalEngineer => Career(
      "Biomedical Engineer",
      100000,
      "Excellent fit for biomedical engineering and medical technology!",
      ["Medical Device Design",
       "Regulatory Affairs",
       "Biomedical Signal Processing",
       "Clinical Trials"],
      ["Strong foundation in both medical sciences and engineering",
       "Medical device development and digital health are growing rapidly",
       "Consider specializing in medical imaging, prosthetics, or diagnostic equipment",
       "Average salary: $100,000 - $135,000"])
    // backend/server.js:762-774
    case HealthcareProfessional => Career(
      "Healthcare Professional",
      75000,
      "Strong foundation for various healthcare career paths!",
      ["Clinical Experience",
       "Specialty Knowledge",
       "Professional Certification",
       "Patient Care Skills"],
      ["Solid medical knowledge foundation",
       "Consider focusing on a specific healthcare specialty",
       "Clinical experience and certification will enhance opportunities",
       "Average salary: $75,000 - $120,000 depending on specialty"])
    // backend/server.js:779-791
    case TechnologyProfessional => Career(
      "Technology Professional",
      85000,
      "Good foundation for technology and software development roles!",
      ["Specialized Framework",
       "Advanced Programming",
       "System Design",
       "Industry Experience"],
      ["Solid technology foundation with room for specialization",
       "Consider focusing on a specific tech stack or domain",
       "Building projects and gaining experience will accelerate growth",
       "Average salary: $85,000 - $120,000 depending on specialization"])
    // backend/server.js:798-811
    case CareerExplorer => Career(
      "Career Explorer",
      65000,
      "Great foundation for exploring diverse career opportunities!",
      ["Specialized Skills",
       "Industry Knowledge",
       "Professional Experience",
       "Certification/Education"],
      ["Consider exploring both medical and technology fields based on your interests",
       "Medical fields: Medicine, Nursing, Pharmacy, Physical Therapy offer excellent growth",
       "Technology fields: Software Development, Data Science, Cybersecurity are in high demand",
       "Focus on building depth in a chosen field through education and experience",
       "Average salary varies significantly: $50,000 - $300,000+ depending on specialization"])
  }

  /** Which branch of the cascade was taken, and the score it computed. */
  datatype Outcome = Outcome(path: Path, score: nat)

  /** The score of the default record. */
  const ExplorerScore: nat := 60

  // ---------------------------------------------------------------------
  // The cascade as written
  // ---------------------------------------------------------------------

  /** The if/else-if chain of backend/server.js:386-812 over the counts. */
  function Cascade(n: Counts): Outcome {
    if n.surgery >= 3 || (n.surgery >= 2 && n.medicalFoundation >= 2) then
      Outcome(Surgeon, Min(98, 85 + n.surgery * 4 + n.medicalFoundation * 2))
    else if n.clinical >= 3 || n.medicalFoundation >= 5 || (n.medicalFoundation >= 3 && n.clinical >= 1) || (n.medicalFoundation >= 4) then
      Outcome(Physician, Min(95, 80 + n.clinical * 3 + n.medicalFoundation * 2))
    else if n.mentalHealth >= 4 || (n.mentalHealth >= 3 && n.medicalFoundation >= 2) then
      Outcome(Psychiatrist, Min(95, 80 + n.mentalHealth * 4 + n.medicalFoundation * 2))
    else if n.nursing >= 3 || (n.nursing >= 2 && n.medicalFoundation >= 2) then
      Outcome(RegisteredNurse, Min(95, 85 + n.nursing * 4 + n.medicalFoundation * 2))
    else if n.pharmacy >= 3 || (n.pharmacy >= 2 && n.medicalFoundation >= 1) then
      Outcome(Pharmacist, Min(95, 80 + n.pharmacy * 5 + n.medicalFoundation * 2))
    else if n.dentistry >= 3 || (n.dentistry >= 2 && n.medicalFoundation >= 1) then
      Outcome(Dentist, Min(95, 85 + n.dentistry * 5 + n.medicalFoundation * 2))
    else if n.physicalTherapy >= 3 || (n.physicalTherapy >= 2 && n.medicalFoundation >= 1) then
      Outcome(PhysicalTherapist, Min(95, 85 + n.physicalTherapy * 5 + n.medicalFoundation * 2))
    else if n.laboratory >= 3 || (n.laboratory >= 2 && n.medicalFoundation >= 2) then
      Outcome(LaboratoryScientist, Min(95, 80 + n.laboratory * 5 + n.medicalFoundation * 3))
    else if n.imaging >= 3 || (n.imaging >= 2 && n.medicalFoundation >= 1) then
      Outcome(RadiologicTechnologist, Min(95, 85 + n.imaging * 5 + n.medicalFoundation * 2))
    else if n.publicHealth >= 3 || (n.publicHealth >= 2 && n.medicalFoundation >= 2) then
      Outcome(PublicHealthProfessional, Min(95, 80 + n.publicHealth * 4 + n.medicalFoundation * 2))
    else if n.dataScience >= 4 || (n.dataScience >= 3 && n.softwareEngineering >= 2) then
      Outcome(DataScientist, Min(98, 80 + n.dataScience * 3 + n.softwareEngineering * 2))
    else if (n.frontend >= 3 && n.backend >= 3) || (n.frontend >= 4 && n.backend >= 2) || (n.frontend >= 2 && n.backend >= 4) then
      Outcome(FullStackDeveloper, Min(98, 85 + n.frontend * 2 + n.backend * 2 + n.database * 2))
    else if n.frontend >= 4 || (n.frontend >= 3 && n.uiux >= 2) then
      Outcome(FrontendDeveloper, Min(95, 85 + n.frontend * 3 + n.uiux * 2))
    else if n.backend >= 4 || (n.backend >= 3 && n.database >= 2) then
      Outcome(BackendDeveloper, Min(95, 85 + n.backend * 3 + n.database * 2))
    else if n.devops >= 4 || (n.devops >= 3 && (n.backend >= 2 || n.database >= 2)) then
      Outcome(DevOpsEngineer, Min(98, 85 + n.devops * 4 + n.backend * 2))
    else if n.mobile >= 4 || (n.mobile >= 3 && (n.frontend >= 2 || n.softwareEngineering >= 2)) then
      Outcome(MobileDeveloper, Min(95, 85 + n.mobile * 4 + n.frontend * 2))
    else if n.cybersecurity >= 4 || (n.cybersecurity >= 3 && (n.backend >= 2 || n.softwareEngineering >= 2)) then
      Outcome(CybersecuritySpecialist, Min(98, 85 + n.cybersecurity * 4 + n.softwareEngineering * 2))
    else if n.gameDev >= 4 || (n.gameDev >= 3 && n.softwareEngineering >= 2) then
      Outcome(GameDeveloper, Min(95, 85 + n.gameDev * 4 + n.softwareEngineering * 2))
    else if n.uiux >= 4 || (n.uiux >= 3 && n.frontend >= 2) then
      Outcome(UiUxDesigner, Min(95, 85 + n.uiux * 4 + n.frontend * 2))
    else if n.softwareEngineering >= 4 || (n.softwareEngineering >= 3 && (n.frontend >= 2 || n.backend >= 2)) then
      Outcome(SoftwareEngineer, Min(92, 80 + n.softwareEngineering * 3 + n.frontend * 2 + n.backend * 2))
    else if (n.medicalFoundation >= 3 && (n.dataScience >= 2 || n.softwareEngineering >= 2)) || (n.medicalFoundation >= 2 && n.dataScience >= 3) then
      Outcome(HealthInformaticsSpecialist, Min(96, 80 + n.medicalFoundation * 3 + n.dataScience * 3 + n.softwareEngineering * 2))
    else if (n.medicalFoundation >= 2 && n.softwareEngineering >= 3) || (n.medicalFoundation >= 3 && (n.frontend >= 2 || n.backend >= 2)) then
      Outcome(BiomedicalEngineer, Min(95, 80 + n.medicalFoundation * 3 + n.softwareEngineering * 3))
    else if n.medicalFoundation >= 3 || n.nursing >= 2 || (n.medicalFoundation >= 2 && (n.laboratory >= 1 || n.imaging >= 1)) || n.mentalHealth >= 2 || n.publicHealth >= 2 then
      Outcome(HealthcareProfessional, Min(85, 70 + n.medicalFoundation * 4 + n.nursing * 3 + n.mentalHealth * 3))
    else if n.frontend >= 2 || n.backend >= 2 || n.dataScience >= 2 || n.softwareEngineering >= 3 || n.devops >= 2 || n.uiux >= 2 || n.gameDev >= 2 then
      Outcome(TechnologyProfessional, Min(80, 65 + n.frontend * 3 + n.backend * 3 + n.dataScience * 3 + n.softwareEngineering * 2))
    else Outcome(CareerExplorer, ExplorerScore)
  }

  /** The record of a branch with its score. */
  function Realize(o: Outcome): Analysis {
    Scored(Record(o.path), o.score)
  }

  /** `analyzeSkills(skills)`: the cascade applied to the counts of the skills. */
  function AnalyzeSkills(skills: seq<string>): Analysis {
    Realize(Cascade(CountAll(skills)))
  }

  // ---------------------------------------------------------------------
  // The cascade as data
  // ---------------------------------------------------------------------

  /** A guard: a lower bound on one count, or a conjunction or disjunction of guards. */
  datatype Guard =
    | AtLeast(category: Category, bound: nat)
    | All(l: Guard, r: Guard)
    | Any(l: Guard, r: Guard)

  predicate Holds(g: Guard, n: Counts) {
    match g
    case AtLeast(c, k) => Get(n, c) >= k
    case All(l, r) => Holds(l, n) && Holds(r, n)
    case Any(l, r) => Holds(l, n) || Holds(r, n)
  }

  /** One term `count * factor` of a score formula. */
  datatype Weight = Weight(category: Category, factor: nat)

  /** A branch of the cascade: its guard, its score formula and its record. */
  datatype Rule = Rule(guard: Guard, cap: nat, base: nat, weights: seq<Weight>, path: Path)

  /** The weighted sum of the counts, from the `i`-th term on. */
  function WeightedFrom(ws: seq<Weight>, n: Counts, i: nat): nat
    decreases |ws| - i
  {
    if i >= |ws| then 0 else ws[i].factor * Get(n, ws[i].category) + WeightedFrom(ws, n, i + 1)
  }

  /** `Math.min(cap, base + ...)`: never above the cap, and the base when that is below it. */
  function Score(rule: Rule, n: Counts): (s: nat)
    ensures s <= rule.cap
    ensures rule.base <= rule.cap ==> rule.base <= s
  {
    Min(rule.cap, rule.base + WeightedFrom(rule.weights, n, 0))
  }

  /** backend/server.js:386-399. */
  const SurgeonRule := Rule(
    Any(AtLeast(Surgery, 3), All(AtLeast(Surgery, 2), AtLeast(MedicalFoundation, 2))),
    98, 85, [Weight(Surgery, 4), Weight(MedicalFoundation, 2)],
    Surgeon)

  /** backend/server.js:402-417. */
  const PhysicianRule := Rule(
    Any(Any(Any(AtLeast(ClinicalMedicine, 3), AtLeast(MedicalFoundation, 5)), All(AtLeast(MedicalFoundation, 3), AtLeast(ClinicalMedicine, 1))), AtLeast(MedicalFoundation, 4)),
    95, 80, [Weight(ClinicalMedicine, 3), Weight(MedicalFoundation, 2)],
    Physician)

  /** backend/server.js:420-433. */
  const PsychiatristRule := Rule(
    Any(AtLeast(MentalHealth, 4), All(AtLeast(MentalHealth, 3), AtLeast(MedicalFoundation, 2))),
    95, 80, [Weight(MentalHealth, 4), Weight(MedicalFoundation, 2)],
    Psychiatrist)

  /** backend/server.js:436-449. */
  const RegisteredNurseRule := Rule(
    Any(AtLeast(Nursing, 3), All(AtLeast(Nursing, 2), AtLeast(MedicalFoundation, 2))),
    95, 85, [Weight(Nursing, 4), Weight(MedicalFoundation, 2)],
    RegisteredNurse)

  /** backend/server.js:452-465. */
  const PharmacistRule := Rule(
    Any(AtLeast(Pharmacy, 3), All(AtLeast(Pharmacy, 2), AtLeast(MedicalFoundation, 1))),
    95, 80, [Weight(Pharmacy, 5), Weight(MedicalFoundation, 2)],
    Pharmacist)

  /** backend/server.js:468-481. */
  const DentistRule := Rule(
    Any(AtLeast(Dentistry, 3), All(AtLeast(Dentistry, 2), AtLeast(MedicalFoundation, 1))),
    95, 85, [Weight(Dentistry, 5), Weight(MedicalFoundation, 2)],
    Dentist)

  /** backend/server.js:484-497. */
  const PhysicalTherapistRule := Rule(
    Any(AtLeast(PhysicalTherapy, 3), All(AtLeast(PhysicalTherapy, 2), AtLeast(MedicalFoundation, 1))),
    95, 85, [Weight(PhysicalTherapy, 5), Weight(MedicalFoundation, 2)],
    PhysicalTherapist)

  /** backend/server.js:500-513. */
  const LaboratoryScientistRule := Rule(
    Any(AtLeast(Laboratory, 3), All(AtLeast(Laboratory, 2), AtLeast(MedicalFoundation, 2))),
    95, 80, [Weight(Laboratory, 5), Weight(MedicalFoundation, 3)],
    LaboratoryScientist)

  /** backend/server.js:516-529. */
  const RadiologicTechnologistRule := Rule(
    Any(AtLeast(MedicalImaging, 3), All(AtLeast(MedicalImaging, 2), AtLeast(MedicalFoundation, 1))),
    95, 85, [Weight(MedicalImaging, 5), Weight(MedicalFoundation, 2)],
    RadiologicTechnologist)

  /** backend/server.js:532-545. */
  const PublicHealthProfessionalRule := Rule(
    Any(AtLeast(PublicHealth, 3), All(AtLeast(PublicHealth, 2), AtLeast(MedicalFoundation, 2))),
    95, 80, [Weight(PublicHealth, 4), Weight(MedicalFoundation, 2)],
    PublicHealthProfessional)

  /** backend/server.js:553-566. */
  const DataScientistRule := Rule(
    Any(AtLeast(DataScience, 4), All(AtLeast(DataScience, 3), AtLeast(SoftwareEngineering, 2))),
    98, 80, [Weight(DataScience, 3), Weight(SoftwareEngineering, 2)],
    DataScientist)

  /** backend/server.js:569-584. */
  const FullStackDeveloperRule := Rule(
    Any(Any(All(AtLeast(Frontend, 3), AtLeast(Backend, 3)), All(AtLeast(Frontend, 4), AtLeast(Backend, 2))), All(AtLeast(Frontend, 2), AtLeast(Backend, 4))),
    98, 85, [Weight(Frontend, 2), Weight(Backend, 2), Weight(Database, 2)],
    FullStackDeveloper)

  /** backend/server.js:587-600. */
  const FrontendDeveloperRule := Rule(
    Any(AtLeast(Frontend, 4), All(AtLeast(Frontend, 3), AtLeast(UiUxDesign, 2))),
    95, 85, [Weight(Frontend, 3), Weight(UiUxDesign, 2)],
    FrontendDeveloper)

  /** backend/server.js:603-616. */
  const BackendDeveloperRule := Rule(
    Any(AtLeast(Backend, 4), All(AtLeast(Backend, 3), AtLeast(Database, 2))),
    95, 85, [Weight(Backend, 3), Weight(Database, 2)],
    BackendDeveloper)

  /** backend/server.js:619-632. */
  const DevOpsEngineerRule := Rule(
    Any(AtLeast(DevOps, 4), All(AtLeast(DevOps, 3), Any(AtLeast(Backend, 2), AtLeast(Database, 2)))),
    98, 85, [Weight(DevOps, 4), Weight(Backend, 2)],
    DevOpsEngineer)

  /** backend/server.js:635-648. */
  const MobileDeveloperRule := Rule(
    Any(AtLeast(Mobile, 4), All(AtLeast(Mobile, 3), Any(AtLeast(Frontend, 2), AtLeast(SoftwareEngineering, 2)))),
    95, 85, [Weight(Mobile, 4), Weight(Frontend, 2)],
    MobileDeveloper)

  /** backend/server.js:651-664. */
  const CybersecuritySpecialistRule := Rule(
    Any(AtLeast(Cybersecurity, 4), All(AtLeast(Cybersecurity, 3), Any(AtLeast(Backend, 2), AtLeast(SoftwareEngineering, 2)))),
    98, 85, [Weight(Cybersecurity, 4), Weight(SoftwareEngineering, 2)],
    CybersecuritySpecialist)

  /** backend/server.js:667-680. */
  const GameDeveloperRule := Rule(
    Any(AtLeast(GameDevelopment, 4), All(AtLeast(GameDevelopment, 3), AtLeast(SoftwareEngineering, 2))),
    95, 85, [Weight(GameDevelopment, 4), Weight(SoftwareEngineering, 2)],
    GameDeveloper)

  /** backend/server.js:683-696. */
  const UiUxDesignerRule := Rule(
    Any(AtLeast(UiUxDesign, 4), All(AtLeast(UiUxDesign, 3), AtLeast(Frontend, 2))),
    95, 85, [Weight(UiUxDesign, 4), Weight(Frontend, 2)],
    UiUxDesigner)

  /** backend/server.js:699-712. */
  const SoftwareEngineerRule := Rule(
    Any(AtLeast(SoftwareEngineering, 4), All(AtLeast(SoftwareEngineering, 3), Any(AtLeast(Frontend, 2), AtLeast(Backend, 2)))),
    92, 80, [Weight(SoftwareEngineering, 3), Weight(Frontend, 2), Weight(Backend, 2)],
    SoftwareEngineer)

  /** backend/server.js:720-734. */
  const HealthInformaticsSpecialistRule := Rule(
    Any(All(AtLeast(MedicalFoundation, 3), Any(AtLeast(DataScience, 2), AtLeast(SoftwareEngineering, 2))), All(AtLeast(MedicalFoundation, 2), AtLeast(DataScience, 3))),
    96, 80, [Weight(MedicalFoundation, 3), Weight(DataScience, 3), Weight(SoftwareEngineering, 2)],
    HealthInformaticsSpecialist)

  /** backend/server.js:737-751. */
  const BiomedicalEngineerRule := Rule(
    Any(All(AtLeast(MedicalFoundation, 2), AtLeast(SoftwareEngineering, 3)), All(AtLeast(MedicalFoundation, 3), Any(AtLeast(Frontend, 2), AtLeast(Backend, 2)))),
    95, 80, [Weight(MedicalFoundation, 3), Weight(SoftwareEngineering, 3)],
    BiomedicalEngineer)

  /** backend/server.js:759-774. */
  const HealthcareProfessionalRule := Rule(
    Any(Any(Any(Any(AtLeast(MedicalFoundation, 3), AtLeast(Nursing, 2)), All(AtLeast(MedicalFoundation, 2), Any(AtLeast(Laboratory, 1), AtLeast(MedicalImaging, 1)))), AtLeast(MentalHealth, 2)), AtLeast(PublicHealth, 2)),
    85, 70, [Weight(MedicalFoundation, 4), Weight(Nursing, 3), Weight(MentalHealth, 3)],
    HealthcareProfessional)

  /** backend/server.js:777-791. */
  const TechnologyProfessionalRule := Rule(
    Any(Any(Any(Any(Any(Any(AtLeast(Frontend, 2), AtLeast(Backend, 2)), AtLeast(DataScience, 2)), AtLeast(SoftwareEngineering, 3)), AtLeast(DevOps, 2)), AtLeast(UiUxDesign, 2)), AtLeast(GameDevelopment, 2)),
    80, 65, [Weight(Frontend, 3), Weight(Backend, 3), Weight(DataScience, 3), Weight(SoftwareEngineering, 2)],
    TechnologyProfessional)

  /** All 24 branches, in cascade order (backend/server.js:386-791). */
  const Rules: seq<Rule> := [
    SurgeonRule, PhysicianRule, PsychiatristRule, RegisteredNurseRule,
    PharmacistRule, DentistRule, PhysicalTherapistRule, LaboratoryScientistRule,
    RadiologicTechnologistRule, PublicHealthProfessionalRule, DataScientistRule, FullStackDeveloperRule,
    FrontendDeveloperRule, BackendDeveloperRule, DevOpsEngineerRule, MobileDeveloperRule,
    CybersecuritySpecialistRule, GameDeveloperRule, UiUxDesignerRule, SoftwareEngineerRule,
    HealthInformaticsSpecialistRule, BiomedicalEngineerRule, HealthcareProfessionalRule, TechnologyProfessionalRule]

  /** The first-match search over the rules from index `i` on; the default record when none holds. */
  function ClassifyFrom(rules: seq<Rule>, n: Counts, i: nat): Outcome
    decreases |rules| - i
  {
    if i >= |rules| then Outcome(CareerExplorer, ExplorerScore)
    else if Holds(rules[i].guard, n) then Outcome(rules[i].path, Score(rules[i], n))
    else ClassifyFrom(rules, n, i + 1)
  }

  function Classify(rules: seq<Rule>, n: Counts): Outcome {
    ClassifyFrom(rules, n, 0)
  }

  /** The rule for backend/server.js:386 has that line's guard. */
  lemma SurgeonGuard(n: Counts)
    ensures Holds(SurgeonRule.guard, n) <==> n.surgery >= 3 || (n.surgery >= 2 && n.medicalFoundation >= 2)
  {
    var g := SurgeonRule.guard;
    assert Holds(g.r, n) <==> Holds(g.r.l, n) && Holds(g.r.r, n);
  }

  /** The rule for backend/server.js:386 has the score formula of line 388. */
  lemma SurgeonScore(n: Counts)
    ensures Score(SurgeonRule, n) == Min(98, 85 + n.surgery * 4 + n.medicalFoundation * 2)
  {
    var ws := SurgeonRule.weights;
    assert WeightedFrom(ws, n, 1) == n.medicalFoundation * 2;
  }

  /** The rule for backend/server.js:402 has that line's guard. */
  lemma PhysicianGuard(n: Counts)
    ensures Holds(PhysicianRule.guard, n) <==> n.clinical >= 3 || n.medicalFoundation >= 5 || (n.medicalFoundation >= 3 && n.clinical >= 1) || (n.medicalFoundation >= 4)
  {
    var g := PhysicianRule.guard;
    assert Holds(g.l, n) <==> Holds(g.l.l, n) || Holds(g.l.r, n);
    assert Holds(g.l.l, n) <==> Holds(g.l.l.l, n) || Holds(g.l.l.r, n);
    assert Holds(g.l.r, n) <==> Holds(g.l.r.l, n) && Holds(g.l.r.r, n);
  }

  /** The rule for backend/server.js:402 has the score formula of line 406. */
  lemma PhysicianScore(n: Counts)
    ensures Score(PhysicianRule, n) == Min(95, 80 + n.clinical * 3 + n.medicalFoundation * 2)
  {
    var ws := PhysicianRule.weights;
    assert WeightedFrom(ws, n, 1) == n.medicalFoundation * 2;
  }

  /** The rule for backend/server.js:420 has that line's guard. */
  lemma PsychiatristGuard(n: Counts)
    ensures Holds(PsychiatristRule.guard, n) <==> n.mentalHealth >= 4 || (n.mentalHealth >= 3 && n.medicalFoundation >= 2)
  {
    var g := PsychiatristRule.guard;
    assert Holds(g.r, n) <==> Holds(g.r.l, n) && Holds(g.r.r, n);
  }

  /** The rule for backend/server.js:420 has the score formula of line 422. */
  lemma PsychiatristScore(n: Counts)
    ensures Score(PsychiatristRule, n) == Min(95, 80 + n.mentalHealth * 4 + n.medicalFoundation * 2)
  {
    var ws := PsychiatristRule.weights;
    assert WeightedFrom(ws, n, 1) == n.medicalFoundation * 2;
  }

  /** The rule for backend/server.js:436 has that line's guard. */
  lemma RegisteredNurseGuard(n: Counts)
    ensures Holds(RegisteredNurseRule.guard, n) <==> n.nursing >= 3 || (n.nursing >= 2 && n.medicalFoundation >= 2)
  {
    var g := RegisteredNurseRule.guard;
    assert Holds(g.r, n) <==> Holds(g.r.l, n) && Holds(g.r.r, n);
  }

  /** The rule for backend/server.js:436 has the score formula of line 438. */
  lemma RegisteredNurseScore(n: Counts)
    ensures Score(RegisteredNurseRule, n) == Min(95, 85 + n.nursing * 4 + n.medicalFoundation * 2)
  {
    var ws := RegisteredNurseRule.weights;
    assert WeightedFrom(ws, n, 1) == n.medicalFoundation * 2;
  }

  /** The rule for backend/server.js:452 has that line's guard. */
  lemma PharmacistGuard(n: Counts)
    ensures Holds(PharmacistRule.guard, n) <==> n.pharmacy >= 3 || (n.pharmacy >= 2 && n.medicalFoundation >= 1)
  {
    var g := PharmacistRule.guard;
    assert Holds(g.r, n) <==> Holds(g.r.l, n) && Holds(g.r.r, n);
  }

  /** The rule for backend/server.js:452 has the score formula of line 454. */
  lemma PharmacistScore(n: Counts)
    ensures Score(PharmacistRule, n) == Min(95, 80 + n.pharmacy * 5 + n.medicalFoundation * 2)
  {
    var ws := PharmacistRule.weights;
    assert WeightedFrom(ws, n, 1) == n.medicalFoundation * 2;
  }

  /** The rule for backend/server.js:468 has that line's guard. */
  lemma DentistGuard(n: Counts)
    ensures Holds(DentistRule.guard, n) <==> n.dentistry >= 3 || (n.dentistry >= 2 && n.medicalFoundation >= 1)
  {
    var g := DentistRule.guard;
    assert Holds(g.r, n) <==> Holds(g.r.l, n) && Holds(g.r.r, n);
  }

  /** The rule for backend/server.js:468 has the score formula of line 470. */
  lemma DentistScore(n: Counts)
    ensures Score(DentistRule, n) == Min(95, 85 + n.dentistry * 5 + n.medicalFoundation * 2)
  {
    var ws := DentistRule.weights;
    assert WeightedFrom(ws, n, 1) == n.medicalFoundation * 2;
  }

  /** The rule for backend/server.js:484 has that line's guard. */
  lemma PhysicalTherapistGuard(n: Counts)
    ensures Holds(PhysicalTherapistRule.guard, n) <==> n.physicalTherapy >= 3 || (n.physicalTherapy >= 2 && n.medicalFoundation >= 1)
  {
    var g := PhysicalTherapistRule.guard;
    assert Holds(g.r, n) <==> Holds(g.r.l, n) && Holds(g.r.r, n);
  }

  /** The rule for backend/server.js:484 has the score formula of line 486. */
  lemma PhysicalTherapistScore(n: Counts)
    ensures Score(PhysicalTherapistRule, n) == Min(95, 85 + n.physicalTherapy * 5 + n.medicalFoundation * 2)
  {
    var ws := PhysicalTherapistRule.weights;
    assert WeightedFrom(ws, n, 1) == n.medicalFoundation * 2;
  }

  /** The rule for backend/server.js:500 has that line's guard. */
  lemma LaboratoryScientistGuard(n: Counts)
    ensures Holds(LaboratoryScientistRule.guard, n) <==> n.laboratory >= 3 || (n.laboratory >= 2 && n.medicalFoundation >= 2)
  {
    var g := LaboratoryScientistRule.guard;
    assert Holds(g.r, n) <==> Holds(g.r.l, n) && Holds(g.r.r, n);
  }

  /** The rule for backend/server.js:500 has the score formula of line 502. */
  lemma LaboratoryScientistScore(n: Counts)
    ensures Score(LaboratoryScientistRule, n) == Min(95, 80 + n.laboratory * 5 + n.medicalFoundation * 3)
  {
    var ws := LaboratoryScientistRule.weights;
    assert WeightedFrom(ws, n, 1) == n.medicalFoundation * 3;
  }

  /** The rule for backend/server.js:516 has that line's guard. */
  lemma RadiologicTechnologistGuard(n: Counts)
    ensures Holds(RadiologicTechnologistRule.guard, n) <==> n.imaging >= 3 || (n.imaging >= 2 && n.medicalFoundation >= 1)
  {
    var g := RadiologicTechnologistRule.guard;
    assert Holds(g.r, n) <==> Holds(g.r.l, n) && Holds(g.r.r, n);
  }

  /** The rule for backend/server.js:516 has the score formula of line 518. */
  lemma RadiologicTechnologistScore(n: Counts)
    ensures Score(RadiologicTechnologistRule, n) == Min(95, 85 + n.imaging * 5 + n.medicalFoundation * 2)
  {
    var ws := RadiologicTechnologistRule.weights;
    assert WeightedFrom(ws, n, 1) == n.medicalFoundation * 2;
  }

  /** The rule for backend/server.js:532 has that line's guard. */
  lemma PublicHealthProfessionalGuard(n: Counts)
    ensures Holds(PublicHealthProfessionalRule.guard, n) <==> n.publicHealth >= 3 || (n.publicHealth >= 2 && n.medicalFoundation >= 2)
  {
    var g := PublicHealthProfessionalRule.guard;
    assert Holds(g.r, n) <==> Holds(g.r.l, n) && Holds(g.r.r, n);
  }

  /** The rule for backend/server.js:532 has the score formula of line 534. */
  lemma PublicHealthProfessionalScore(n: Counts)
    ensures Score(PublicHealthProfessionalRule, n) == Min(95, 80 + n.publicHealth * 4 + n.medicalFoundation * 2)
  {
    var ws := PublicHealthProfessionalRule.weights;
    assert WeightedFrom(ws, n, 1) == n.medicalFoundation * 2;
  }

  /** The rule for backend/server.js:553 has that line's guard. */
  lemma DataScientistGuard(n: Counts)
    ensures Holds(DataScientistRule.guard, n) <==> n.dataScience >= 4 || (n.dataScience >= 3 && n.softwareEngineering >= 2)
  {
    var g := DataScientistRule.guard;
    assert Holds(g.r, n) <==> Holds(g.r.l, n) && Holds(g.r.r, n);
  }

  /** The rule for backend/server.js:553 has the score formula of line 555. */
  lemma DataScientistScore(n: Counts)
    ensures Score(DataScientistRule, n) == Min(98, 80 + n.dataScience * 3 + n.softwareEngineering * 2)
  {
    var ws := DataScientistRule.weights;
    assert WeightedFrom(ws, n, 1) == n.softwareEngineering * 2;
  }

  /** The rule for backend/server.js:569 has that line's guard. */
  lemma FullStackDeveloperGuard(n: Counts)
    ensures Holds(FullStackDeveloperRule.guard, n) <==> (n.frontend >= 3 && n.backend >= 3) || (n.frontend >= 4 && n.backend >= 2) || (n.frontend >= 2 && n.backend >= 4)
  {
    var g := FullStackDeveloperRule.guard;
    assert Holds(g.l, n) <==> Holds(g.l.l, n) || Holds(g.l.r, n);
    assert Holds(g.l.l, n) <==> Holds(g.l.l.l, n) && Holds(g.l.l.r, n);
    assert Holds(g.l.r, n) <==> Holds(g.l.r.l, n) && Holds(g.l.r.r, n);
    assert Holds(g.r, n) <==> Holds(g.r.l, n) && Holds(g.r.r, n);
  }

  /** The rule for backend/server.js:569 has the score formula of line 573. */
  lemma FullStackDeveloperScore(n: Counts)
    ensures Score(FullStackDeveloperRule, n) == Min(98, 85 + n.frontend * 2 + n.backend * 2 + n.database * 2)
  {
    var ws := FullStackDeveloperRule.weights;
    assert WeightedFrom(ws, n, 2) == n.database * 2;
    assert WeightedFrom(ws, n, 1) == n.backend * 2 + n.database * 2;
  }

  /** The rule for backend/server.js:587 has that line's guard. */
  lemma FrontendDeveloperGuard(n: Counts)
    ensures Holds(FrontendDeveloperRule.guard, n) <==> n.frontend >= 4 || (n.frontend >= 3 && n.uiux >= 2)
  {
    var g := FrontendDeveloperRule.guard;
    assert Holds(g.r, n) <==> Holds(g.r.l, n) && Holds(g.r.r, n);
  }

  /** The rule for backend/server.js:587 has the score formula of line 589. */
  lemma FrontendDeveloperScore(n: Counts)
    ensures Score(FrontendDeveloperRule, n) == Min(95, 85 + n.frontend * 3 + n.uiux * 2)
  {
    var ws := FrontendDeveloperRule.weights;
    assert WeightedFrom(ws, n, 1) == n.uiux * 2;
  }

  /** The rule for backend/server.js:603 has that line's guard. */
  lemma BackendDeveloperGuard(n: Counts)
    ensures Holds(BackendDeveloperRule.guard, n) <==> n.backend >= 4 || (n.backend >= 3 && n.database >= 2)
  {
    var g := BackendDeveloperRule.guard;
    assert Holds(g.r, n) <==> Holds(g.r.l, n) && Holds(g.r.r, n);
  }

  /** The rule for backend/server.js:603 has the score formula of line 605. */
  lemma BackendDeveloperScore(n: Counts)
    ensures Score(BackendDeveloperRule, n) == Min(95, 85 + n.backend * 3 + n.database * 2)
  {
    var ws := BackendDeveloperRule.weights;
    assert WeightedFrom(ws, n, 1) == n.database * 2;
  }

  /** The rule for backend/server.js:619 has that line's guard. */
  lemma DevOpsEngineerGuard(n: Counts)
    ensures Holds(DevOpsEngineerRule.guard, n) <==> n.devops >= 4 || (n.devops >= 3 && (n.backend >= 2 || n.database >= 2))
  {
    var g := DevOpsEngineerRule.guard;
    assert Holds(g.r, n) <==> Holds(g.r.l, n) && Holds(g.r.r, n);
    assert Holds(g.r.r, n) <==> Holds(g.r.r.l, n) || Holds(g.r.r.r, n);
  }

  /** The rule for backend/server.js:619 has the score formula of line 621. */
  lemma DevOpsEngineerScore(n: Counts)
    ensures Score(DevOpsEngineerRule, n) == Min(98, 85 + n.devops * 4 + n.backend * 2)
  {
    var ws := DevOpsEngineerRule.weights;
    assert WeightedFrom(ws, n, 1) == n.backend * 2;
  }

  /** The rule for backend/server.js:635 has that line's guard. */
  lemma MobileDeveloperGuard(n: Counts)
    ensures Holds(MobileDeveloperRule.guard, n) <==> n.mobile >= 4 || (n.mobile >= 3 && (n.frontend >= 2 || n.softwareEngineering >= 2))
  {
    var g := MobileDeveloperRule.guard;
    assert Holds(g.r, n) <==> Holds(g.r.l, n) && Holds(g.r.r, n);
    assert Holds(g.r.r, n) <==> Holds(g.r.r.l, n) || Holds(g.r.r.r, n);
  }

  /** The rule for backend/server.js:635 has the score formula of line 637. */
  lemma MobileDeveloperScore(n: Counts)
    ensures Score(MobileDeveloperRule, n) == Min(95, 85 + n.mobile * 4 + n.frontend * 2)
  {
    var ws := MobileDeveloperRule.weights;
    assert WeightedFrom(ws, n, 1) == n.frontend * 2;
  }

  /** The rule for backend/server.js:651 has that line's guard. */
  lemma CybersecuritySpecialistGuard(n: Counts)
    ensures Holds(CybersecuritySpecialistRule.guard, n) <==> n.cybersecurity >= 4 || (n.cybersecurity >= 3 && (n.backend >= 2 || n.softwareEngineering >= 2))
  {
    var g := CybersecuritySpecialistRule.guard;
    assert Holds(g.r, n) <==> Holds(g.r.l, n) && Holds(g.r.r, n);
    assert Holds(g.r.r, n) <==> Holds(g.r.r.l, n) || Holds(g.r.r.r, n);
  }

  /** The rule for backend/server.js:651 has the score formula of line 653. */
  lemma CybersecuritySpecialistScore(n: Counts)
    ensures Score(CybersecuritySpecialistRule, n) == Min(98, 85 + n.cybersecurity * 4 + n.softwareEngineering * 2)
  {
    var ws := CybersecuritySpecialistRule.weights;
    assert WeightedFrom(ws, n, 1) == n.softwareEngineering * 2;
  }

  /** The rule for backend/server.js:667 has that line's guard. */
  lemma GameDeveloperGuard(n: Counts)
    ensures Holds(GameDeveloperRule.guard, n) <==> n.gameDev >= 4 || (n.gameDev >= 3 && n.softwareEngineering >= 2)
  {
    var g := GameDeveloperRule.guard;
    assert Holds(g.r, n) <==> Holds(g.r.l, n) && Holds(g.r.r, n);
  }

  /** The rule for backend/server.js:667 has the score formula of line 669. */
  lemma GameDeveloperScore(n: Counts)
    ensures Score(GameDeveloperRule, n) == Min(95, 85 + n.gameDev * 4 + n.softwareEngineering * 2)
  {
    var ws := GameDeveloperRule.weights;
    assert WeightedFrom(ws, n, 1) == n.softwareEngineering * 2;
  }

  /** The rule for backend/server.js:683 has that line's guard. */
  lemma UiUxDesignerGuard(n: Counts)
    ensures Holds(UiUxDesignerRule.guard, n) <==> n.uiux >= 4 || (n.uiux >= 3 && n.frontend >= 2)
  {
    var g := UiUxDesignerRule.guard;
    assert Holds(g.r, n) <==> Holds(g.r.l, n) && Holds(g.r.r, n);
  }

  /** The rule for backend/server.js:683 has the score formula of line 685. */
  lemma UiUxDesignerScore(n: Counts)
    ensures Score(UiUxDesignerRule, n) == Min(95, 85 + n.uiux * 4 + n.frontend * 2)
  {
    var ws := UiUxDesignerRule.weights;
    assert WeightedFrom(ws, n, 1) == n.frontend * 2;
  }

  /** The rule for backend/server.js:699 has that line's guard. */
  lemma SoftwareEngineerGuard(n: Counts)
    ensures Holds(SoftwareEngineerRule.guard, n) <==> n.softwareEngineering >= 4 || (n.softwareEngineering >= 3 && (n.frontend >= 2 || n.backend >= 2))
  {
    var g := SoftwareEngineerRule.guard;
    assert Holds(g.r, n) <==> Holds(g.r.l, n) && Holds(g.r.r, n);
    assert Holds(g.r.r, n) <==> Holds(g.r.r.l, n) || Holds(g.r.r.r, n);
  }

  /** The rule for backend/server.js:699 has the score formula of line 701. */
  lemma SoftwareEngineerScore(n: Counts)
    ensures Score(SoftwareEngineerRule, n) == Min(92, 80 + n.softwareEngineering * 3 + n.frontend * 2 + n.backend * 2)
  {
    var ws := SoftwareEngineerRule.weights;
    assert WeightedFrom(ws, n, 2) == n.backend * 2;
    assert WeightedFrom(ws, n, 1) == n.frontend * 2 + n.backend * 2;
  }

  /** The rule for backend/server.js:720 has that line's guard. */
  lemma HealthInformaticsSpecialistGuard(n: Counts)
    ensures Holds(HealthInformaticsSpecialistRule.guard, n) <==> (n.medicalFoundation >= 3 && (n.dataScience >= 2 || n.softwareEngineering >= 2)) || (n.medicalFoundation >= 2 && n.dataScience >= 3)
  {
    var g := HealthInformaticsSpecialistRule.guard;
    assert Holds(g.l, n) <==> Holds(g.l.l, n) && Holds(g.l.r, n);
    assert Holds(g.l.r, n) <==> Holds(g.l.r.l, n) || Holds(g.l.r.r, n);
    assert Holds(g.r, n) <==> Holds(g.r.l, n) && Holds(g.r.r, n);
  }

  /** The rule for backend/server.js:720 has the score formula of line 723. */
  lemma HealthInformaticsSpecialistScore(n: Counts)
    ensures Score(HealthInformaticsSpecialistRule, n) == Min(96, 80 + n.medicalFoundation * 3 + n.dataScience * 3 + n.softwareEngineering * 2)
  {
    var ws := HealthInformaticsSpecialistRule.weights;
    assert WeightedFrom(ws, n, 2) == n.softwareEngineering * 2;
    assert WeightedFrom(ws, n, 1) == n.dataScience * 3 + n.softwareEngineering * 2;
  }

  /** The rule for backend/server.js:737 has that line's guard. */
  lemma BiomedicalEngineerGuard(n: Counts)
    ensures Holds(BiomedicalEngineerRule.guard, n) <==> (n.medicalFoundation >= 2 && n.softwareEngineering >= 3) || (n.medicalFoundation >= 3 && (n.frontend >= 2 || n.backend >= 2))
  {
    var g := BiomedicalEngineerRule.guard;
    assert Holds(g.l, n) <==> Holds(g.l.l, n) && Holds(g.l.r, n);
    assert Holds(g.r, n) <==> Holds(g.r.l, n) && Holds(g.r.r, n);
    assert Holds(g.r.r, n) <==> Holds(g.r.r.l, n) || Holds(g.r.r.r, n);
  }

  /** The rule for backend/server.js:737 has the score formula of line 740. */
  lemma BiomedicalEngineerScore(n: Counts)
    ensures Score(BiomedicalEngineerRule, n) == Min(95, 80 + n.medicalFoundation * 3 + n.softwareEngineering * 3)
  {
    var ws := BiomedicalEngineerRule.weights;
    assert WeightedFrom(ws, n, 1) == n.softwareEngineering * 3;
  }

  /** The rule for backend/server.js:759 has that line's guard. */
  lemma HealthcareProfessionalGuard(n: Counts)
    ensures Holds(HealthcareProfessionalRule.guard, n) <==> n.medicalFoundation >= 3 || n.nursing >= 2 || (n.medicalFoundation >= 2 && (n.laboratory >= 1 || n.imaging >= 1)) || n.mentalHealth >= 2 || n.publicHealth >= 2
  {
    var g := HealthcareProfessionalRule.guard;
    assert Holds(g.l, n) <==> Holds(g.l.l, n) || Holds(g.l.r, n);
    assert Holds(g.l.l, n) <==> Holds(g.l.l.l, n) || Holds(g.l.l.r, n);
    assert Holds(g.l.l.l, n) <==> Holds(g.l.l.l.l, n) || Holds(g.l.l.l.r, n);
    assert Holds(g.l.l.r, n) <==> Holds(g.l.l.r.l, n) && Holds(g.l.l.r.r, n);
    assert Holds(g.l.l.r.r, n) <==> Holds(g.l.l.r.r.l, n) || Holds(g.l.l.r.r.r, n);
  }

  /** The rule for backend/server.js:759 has the score formula of line 763. */
  lemma HealthcareProfessionalScore(n: Counts)
    ensures Score(HealthcareProfessionalRule, n) == Min(85, 70 + n.medicalFoundation * 4 + n.nursing * 3 + n.mentalHealth * 3)
  {
    var ws := HealthcareProfessionalRule.weights;
    assert WeightedFrom(ws, n, 2) == n.mentalHealth * 3;
    assert WeightedFrom(ws, n, 1) == n.nursing * 3 + n.mentalHealth * 3;
  }

  /** The rule for backend/server.js:777 has that line's guard. */
  lemma TechnologyProfessionalGuard(n: Counts)
    ensures Holds(TechnologyProfessionalRule.guard, n) <==> n.frontend >= 2 || n.backend >= 2 || n.dataScience >= 2 || n.softwareEngineering >= 3 || n.devops >= 2 || n.uiux >= 2 || n.gameDev >= 2
  {
    var g := TechnologyProfessionalRule.guard;
    assert Holds(g.l.l.l.l.l, n) <==> n.frontend >= 2 || n.backend >= 2;
    assert Holds(g.l.l.l.l, n) <==> Holds(g.l.l.l.l.l, n) || n.dataScience >= 2;
    assert Holds(g.l.l.l, n) <==> Holds(g.l.l.l.l, n) || n.softwareEngineering >= 3;
    assert Holds(g.l.l, n) <==> Holds(g.l.l.l, n) || n.devops >= 2;
    assert Holds(g.l, n) <==> Holds(g.l.l, n) || n.uiux >= 2;
  }

  /** The rule for backend/server.js:777 has the score formula of line 780. */
  lemma TechnologyProfessionalScore(n: Counts)
    ensures Score(TechnologyProfessionalRule, n) == Min(80, 65 + n.frontend * 3 + n.backend * 3 + n.dataScience * 3 + n.softwareEngineering * 2)
  {
    var ws := TechnologyProfessionalRule.weights;
    assert WeightedFrom(ws, n, 3) == n.softwareEngineering * 2;
    assert WeightedFrom(ws, n, 2) == n.dataScience * 3 + n.softwareEngineering * 2;
    assert WeightedFrom(ws, n, 1) == n.backend * 3 + n.dataScience * 3 + n.softwareEngineering * 2;
  }

  lemma ClassifyStep0(n: Counts)
    ensures ClassifyFrom(Rules, n, 0)
         == if n.surgery >= 3 || (n.surgery >= 2 && n.medicalFoundation >= 2)
            then Outcome(Surgeon, Min(98, 85 + n.surgery * 4 + n.medicalFoundation * 2))
            else ClassifyFrom(Rules, n, 1)
  {
    SurgeonGuard(n);
    SurgeonScore(n);
    assert Rules[0] == SurgeonRule;
  }

  lemma ClassifyStep1(n: Counts)
    ensures ClassifyFrom(Rules, n, 1)
         == if n.clinical >= 3 || n.medicalFoundation >= 5 || (n.medicalFoundation >= 3 && n.clinical >= 1) || (n.medicalFoundation >= 4)
            then Outcome(Physician, Min(95, 80 + n.clinical * 3 + n.medicalFoundation * 2))
            else ClassifyFrom(Rules, n, 2)
  {
    PhysicianGuard(n);
    PhysicianScore(n);
    assert Rules[1] == PhysicianRule;
  }

  lemma ClassifyStep2(n: Counts)
    ensures ClassifyFrom(Rules, n, 2)
         == if n.mentalHealth >= 4 || (n.mentalHealth >= 3 && n.medicalFoundation >= 2)
            then Outcome(Psychiatrist, Min(95, 80 + n.mentalHealth * 4 + n.medicalFoundation * 2))
            else ClassifyFrom(Rules, n, 3)
  {
    PsychiatristGuard(n);
    PsychiatristScore(n);
    assert Rules[2] == PsychiatristRule;
  }

  lemma ClassifyStep3(n: Counts)
    ensures ClassifyFrom(Rules, n, 3)
         == if n.nursing >= 3 || (n.nursing >= 2 && n.medicalFoundation >= 2)
            then Outcome(RegisteredNurse, Min(95, 85 + n.nursing * 4 + n.medicalFoundation * 2))
            else ClassifyFrom(Rules, n, 4)
  {
    RegisteredNurseGuard(n);
    RegisteredNurseScore(n);
    assert Rules[3] == RegisteredNurseRule;
  }

  lemma ClassifyStep4(n: Counts)
    ensures ClassifyFrom(Rules, n, 4)
         == if n.pharmacy >= 3 || (n.pharmacy >= 2 && n.medicalFoundation >= 1)
            then Outcome(Pharmacist, Min(95, 80 + n.pharmacy * 5 + n.medicalFoundation * 2))
            else ClassifyFrom(Rules, n, 5)
  {
    PharmacistGuard(n);
    PharmacistScore(n);
    assert Rules[4] == PharmacistRule;
  }

  lemma ClassifyStep5(n: Counts)
    ensures ClassifyFrom(Rules, n, 5)
         == if n.dentistry >= 3 || (n.dentistry >= 2 && n.medicalFoundation >= 1)
            then Outcome(Dentist, Min(95, 85 + n.dentistry * 5 + n.medicalFoundation * 2))
            else ClassifyFrom(Rules, n, 6)
  {
    DentistGuard(n);
    DentistScore(n);
    assert Rules[5] == DentistRule;
  }

  lemma ClassifyStep6(n: Counts)
    ensures ClassifyFrom(Rules, n, 6)
         == if n.physicalTherapy >= 3 || (n.physicalTherapy >= 2 && n.medicalFoundation >= 1)
            then Outcome(PhysicalTherapist, Min(95, 85 + n.physicalTherapy * 5 + n.medicalFoundation * 2))
            else ClassifyFrom(Rules, n, 7)
  {
    PhysicalTherapistGuard(n);
    PhysicalTherapistScore(n);
    assert Rules[6] == PhysicalTherapistRule;
  }

  lemma ClassifyStep7(n: Counts)
    ensures ClassifyFrom(Rules, n, 7)
         == if n.laboratory >= 3 || (n.laboratory >= 2 && n.medicalFoundation >= 2)
            then Outcome(LaboratoryScientist, Min(95, 80 + n.laboratory * 5 + n.medicalFoundation * 3))
            else ClassifyFrom(Rules, n, 8)
  {
    LaboratoryScientistGuard(n);
    LaboratoryScientistScore(n);
    assert Rules[7] == LaboratoryScientistRule;
  }

  lemma ClassifyStep8(n: Counts)
    ensures ClassifyFrom(Rules, n, 8)
         == if n.imaging >= 3 || (n.imaging >= 2 && n.medicalFoundation >= 1)
            then Outcome(RadiologicTechnologist, Min(95, 85 + n.imaging * 5 + n.medicalFoundation * 2))
            else ClassifyFrom(Rules, n, 9)
  {
    RadiologicTechnologistGuard(n);
    RadiologicTechnologistScore(n);
    assert Rules[8] == RadiologicTechnologistRule;
  }

  lemma ClassifyStep9(n: Counts)
    ensures ClassifyFrom(Rules, n, 9)
         == if n.publicHealth >= 3 || (n.publicHealth >= 2 && n.medicalFoundation >= 2)
            then Outcome(PublicHealthProfessional, Min(95, 80 + n.publicHealth * 4 + n.medicalFoundation * 2))
            else ClassifyFrom(Rules, n, 10)
  {
    PublicHealthProfessionalGuard(n);
    PublicHealthProfessionalScore(n);
    assert Rules[9] == PublicHealthProfessionalRule;
  }

  lemma ClassifyStep10(n: Counts)
    ensures ClassifyFrom(Rules, n, 10)
         == if n.dataScience >= 4 || (n.dataScience >= 3 && n.softwareEngineering >= 2)
            then Outcome(DataScientist, Min(98, 80 + n.dataScience * 3 + n.softwareEngineering * 2))
            else ClassifyFrom(Rules, n, 11)
  {
    DataScientistGuard(n);
    DataScientistScore(n);
    assert Rules[10] == DataScientistRule;
  }

  lemma ClassifyStep11(n: Counts)
    ensures ClassifyFrom(Rules, n, 11)
         == if (n.frontend >= 3 && n.backend >= 3) || (n.frontend >= 4 && n.backend >= 2) || (n.frontend >= 2 && n.backend >= 4)
            then Outcome(FullStackDeveloper, Min(98, 85 + n.frontend * 2 + n.backend * 2 + n.database * 2))
            else ClassifyFrom(Rules, n, 12)
  {
    FullStackDeveloperGuard(n);
    FullStackDeveloperScore(n);
    assert Rules[11] == FullStackDeveloperRule;
  }

  lemma ClassifyStep12(n: Counts)
    ensures ClassifyFrom(Rules, n, 12)
         == if n.frontend >= 4 || (n.frontend >= 3 && n.uiux >= 2)
            then Outcome(FrontendDeveloper, Min(95, 85 + n.frontend * 3 + n.uiux * 2))
            else ClassifyFrom(Rules, n, 13)
  {
    FrontendDeveloperGuard(n);
    FrontendDeveloperScore(n);
    assert Rules[12] == FrontendDeveloperRule;
  }

  lemma ClassifyStep13(n: Counts)
    ensures ClassifyFrom(Rules, n, 13)
         == if n.backend >= 4 || (n.backend >= 3 && n.database >= 2)
            then Outcome(BackendDeveloper, Min(95, 85 + n.backend * 3 + n.database * 2))
            else ClassifyFrom(Rules, n, 14)
  {
    BackendDeveloperGuard(n);
    BackendDeveloperScore(n);
    assert Rules[13] == BackendDeveloperRule;
  }

  lemma ClassifyStep14(n: Counts)
    ensures ClassifyFrom(Rules, n, 14)
         == if n.devops >= 4 || (n.devops >= 3 && (n.backend >= 2 || n.database >= 2))
            then Outcome(DevOpsEngineer, Min(98, 85 + n.devops * 4 + n.backend * 2))
            else ClassifyFrom(Rules, n, 15)
  {
    DevOpsEngineerGuard(n);
    DevOpsEngineerScore(n);
    assert Rules[14] == DevOpsEngineerRule;
  }

  lemma ClassifyStep15(n: Counts)
    ensures ClassifyFrom(Rules, n, 15)
         == if n.mobile >= 4 || (n.mobile >= 3 && (n.frontend >= 2 || n.softwareEngineering >= 2))
            then Outcome(MobileDeveloper, Min(95, 85 + n.mobile * 4 + n.frontend * 2))
            else ClassifyFrom(Rules, n, 16)
  {
    MobileDeveloperGuard(n);
    MobileDeveloperScore(n);
    assert Rules[15] == MobileDeveloperRule;
  }

  lemma ClassifyStep16(n: Counts)
    ensures ClassifyFrom(Rules, n, 16)
         == if n.cybersecurity >= 4 || (n.cybersecurity >= 3 && (n.backend >= 2 || n.softwareEngineering >= 2))
            then Outcome(CybersecuritySpecialist, Min(98, 85 + n.cybersecurity * 4 + n.softwareEngineering * 2))
            else ClassifyFrom(Rules, n, 17)
  {
    CybersecuritySpecialistGuard(n);
    CybersecuritySpecialistScore(n);
    assert Rules[16] == CybersecuritySpecialistRule;
  }

  lemma ClassifyStep17(n: Counts)
    ensures ClassifyFrom(Rules, n, 17)
         == if n.gameDev >= 4 || (n.gameDev >= 3 && n.softwareEngineering >= 2)
            then Outcome(GameDeveloper, Min(95, 85 + n.gameDev * 4 + n.softwareEngineering * 2))
            else ClassifyFrom(Rules, n, 18)
  {
    GameDeveloperGuard(n);
    GameDeveloperScore(n);
    assert Rules[17] == GameDeveloperRule;
  }

  lemma ClassifyStep18(n: Counts)
    ensures ClassifyFrom(Rules, n, 18)
         == if n.uiux >= 4 || (n.uiux >= 3 && n.frontend >= 2)
            then Outcome(UiUxDesigner, Min(95, 85 + n.uiux * 4 + n.frontend * 2))
            else ClassifyFrom(Rules, n, 19)
  {
    UiUxDesignerGuard(n);
    UiUxDesignerScore(n);
    assert Rules[18] == UiUxDesignerRule;
  }

  lemma ClassifyStep19(n: Counts)
    ensures ClassifyFrom(Rules, n, 19)
         == if n.softwareEngineering >= 4 || (n.softwareEngineering >= 3 && (n.frontend >= 2 || n.backend >= 2))
            then Outcome(SoftwareEngineer, Min(92, 80 + n.softwareEngineering * 3 + n.frontend * 2 + n.backend * 2))
            else ClassifyFrom(Rules, n, 20)
  {
    SoftwareEngineerGuard(n);
    SoftwareEngineerScore(n);
    assert Rules[19] == SoftwareEngineerRule;
  }

  lemma ClassifyStep20(n: Counts)
    ensures ClassifyFrom(Rules, n, 20)
         == if (n.medicalFoundation >= 3 && (n.dataScience >= 2 || n.softwareEngineering >= 2)) || (n.medicalFoundation >= 2 && n.dataScience >= 3)
            then Outcome(HealthInformaticsSpecialist, Min(96, 80 + n.medicalFoundation * 3 + n.dataScience * 3 + n.softwareEngineering * 2))
            else ClassifyFrom(Rules, n, 21)
  {
    HealthInformaticsSpecialistGuard(n);
    HealthInformaticsSpecialistScore(n);
    assert Rules[20] == HealthInformaticsSpecialistRule;
  }

  lemma ClassifyStep21(n: Counts)
    ensures ClassifyFrom(Rules, n, 21)
         == if (n.medicalFoundation >= 2 && n.softwareEngineering >= 3) || (n.medicalFoundation >= 3 && (n.frontend >= 2 || n.backend >= 2))
            then Outcome(BiomedicalEngineer, Min(95, 80 + n.medicalFoundation * 3 + n.softwareEngineering * 3))
            else ClassifyFrom(Rules, n, 22)
  {
    BiomedicalEngineerGuard(n);
    BiomedicalEngineerScore(n);
    assert Rules[21] == BiomedicalEngineerRule;
  }

  lemma ClassifyStep22(n: Counts)
    ensures ClassifyFrom(Rules, n, 22)
         == if n.medicalFoundation >= 3 || n.nursing >= 2 || (n.medicalFoundation >= 2 && (n.laboratory >= 1 || n.imaging >= 1)) || n.mentalHealth >= 2 || n.publicHealth >= 2
            then Outcome(HealthcareProfessional, Min(85, 70 + n.medicalFoundation * 4 + n.nursing * 3 + n.mentalHealth * 3))
            else ClassifyFrom(Rules, n, 23)
  {
    HealthcareProfessionalGuard(n);
    HealthcareProfessionalScore(n);
    assert Rules[22] == HealthcareProfessionalRule;
  }

  lemma ClassifyStep23(n: Counts)
    ensures ClassifyFrom(Rules, n, 23)
         == if n.frontend >= 2 || n.backend >= 2 || n.dataScience >= 2 || n.softwareEngineering >= 3 || n.devops >= 2 || n.uiux >= 2 || n.gameDev >= 2
            then Outcome(TechnologyProfessional, Min(80, 65 + n.frontend * 3 + n.backend * 3 + n.dataScience * 3 + n.softwareEngineering * 2))
            else ClassifyFrom(Rules, n, 24)
  {
    TechnologyProfessionalGuard(n);
    TechnologyProfessionalScore(n);
    assert Rules[23] == TechnologyProfessionalRule;
  }

  /** The data-driven classifier computes exactly what the cascade computes. */
  lemma CascadeAgrees(n: Counts)
    ensures Cascade(n) == Classify(Rules, n)
  {
    ClassifyStep0(n);
    ClassifyStep1(n);
    ClassifyStep2(n);
    if !(n.surgery >= 3 || (n.surgery >= 2 && n.medicalFoundation >= 2))
      && !(n.clinical >= 3 || n.medicalFoundation >= 5 || (n.medicalFoundation >= 3 && n.clinical >= 1) || (n.medicalFoundation >= 4))
      && !(n.mentalHealth >= 4 || (n.mentalHealth >= 3 && n.medicalFoundation >= 2))
    {
      CascadeAgreesFrom3(n);
    }
  }

  lemma CascadeAgreesFrom3(n: Counts)
    requires !(n.surgery >= 3 || (n.surgery >= 2 && n.medicalFoundation >= 2))
    requires !(n.clinical >= 3 || n.medicalFoundation >= 5 || (n.medicalFoundation >= 3 && n.clinical >= 1) || (n.medicalFoundation >= 4))
    requires !(n.mentalHealth >= 4 || (n.mentalHealth >= 3 && n.medicalFoundation >= 2))
    ensures Cascade(n) == ClassifyFrom(Rules, n, 3)
  {
    ClassifyStep3(n);
    ClassifyStep4(n);
    ClassifyStep5(n);
    if !(n.nursing >= 3 || (n.nursing >= 2 && n.medicalFoundation >= 2))
      && !(n.pharmacy >= 3 || (n.pharmacy >= 2 && n.medicalFoundation >= 1))
      && !(n.dentistry >= 3 || (n.dentistry >= 2 && n.medicalFoundation >= 1))
    {
      CascadeAgreesFrom6(n);
    }
  }

  lemma CascadeAgreesFrom6(n: Counts)
    requires !(n.surgery >= 3 || (n.surgery >= 2 && n.medicalFoundation >= 2))
    requires !(n.clinical >= 3 || n.medicalFoundation >= 5 || (n.medicalFoundation >= 3 && n.clinical >= 1) || (n.medicalFoundation >= 4))
    requires !(n.mentalHealth >= 4 || (n.mentalHealth >= 3 && n.medicalFoundation >= 2))
    requires !(n.nursing >= 3 || (n.nursing >= 2 && n.medicalFoundation >= 2))
    requires !(n.pharmacy >= 3 || (n.pharmacy >= 2 && n.medicalFoundation >= 1))
    requires !(n.dentistry >= 3 || (n.dentistry >= 2 && n.medicalFoundation >= 1))
    ensures Cascade(n) == ClassifyFrom(Rules, n, 6)
  {
    ClassifyStep6(n);
    ClassifyStep7(n);
    ClassifyStep8(n);
    if !(n.physicalTherapy >= 3 || (n.physicalTherapy >= 2 && n.medicalFoundation >= 1))
      && !(n.laboratory >= 3 || (n.laboratory >= 2 && n.medicalFoundation >= 2))
      && !(n.imaging >= 3 || (n.imaging >= 2 && n.medicalFoundation >= 1))
    {
      CascadeAgreesFrom9(n);
    }
  }

  lemma CascadeAgreesFrom9(n: Counts)
    requires !(n.surgery >= 3 || (n.surgery >= 2 && n.medicalFoundation >= 2))
    requires !(n.clinical >= 3 || n.medicalFoundation >= 5 || (n.medicalFoundation >= 3 && n.clinical >= 1) || (n.medicalFoundation >= 4))
    requires !(n.mentalHealth >= 4 || (n.mentalHealth >= 3 && n.medicalFoundation >= 2))
    requires !(n.nursing >= 3 || (n.nursing >= 2 && n.medicalFoundation >= 2))
    requires !(n.pharmacy >= 3 || (n.pharmacy >= 2 && n.medicalFoundation >= 1))
    requires !(n.dentistry >= 3 || (n.dentistry >= 2 && n.medicalFoundation >= 1))
    requires !(n.physicalTherapy >= 3 || (n.physicalTherapy >= 2 && n.medicalFoundation >= 1))
    requires !(n.laboratory >= 3 || (n.laboratory >= 2 && n.medicalFoundation >= 2))
    requires !(n.imaging >= 3 || (n.imaging >= 2 && n.medicalFoundation >= 1))
    ensures Cascade(n) == ClassifyFrom(Rules, n, 9)
  {
    ClassifyStep9(n);
    ClassifyStep10(n);
    ClassifyStep11(n);
    if !(n.publicHealth >= 3 || (n.publicHealth >= 2 && n.medicalFoundation >= 2))
      && !(n.dataScience >= 4 || (n.dataScience >= 3 && n.softwareEngineering >= 2))
      && !((n.frontend >= 3 && n.backend >= 3) || (n.frontend >= 4 && n.backend >= 2) || (n.frontend >= 2 && n.backend >= 4))
    {
      CascadeAgreesFrom12(n);
    }
  }

  lemma CascadeAgreesFrom12(n: Counts)
    requires !(n.surgery >= 3 || (n.surgery >= 2 && n.medicalFoundation >= 2))
    requires !(n.clinical >= 3 || n.medicalFoundation >= 5 || (n.medicalFoundation >= 3 && n.clinical >= 1) || (n.medicalFoundation >= 4))
    requires !(n.mentalHealth >= 4 || (n.mentalHealth >= 3 && n.medicalFoundation >= 2))
    requires !(n.nursing >= 3 || (n.nursing >= 2 && n.medicalFoundation >= 2))
    requires !(n.pharmacy >= 3 || (n.pharmacy >= 2 && n.medicalFoundation >= 1))
    requires !(n.dentistry >= 3 || (n.dentistry >= 2 && n.medicalFoundation >= 1))
    requires !(n.physicalTherapy >= 3 || (n.physicalTherapy >= 2 && n.medicalFoundation >= 1))
    requires !(n.laboratory >= 3 || (n.laboratory >= 2 && n.medicalFoundation >= 2))
    requires !(n.imaging >= 3 || (n.imaging >= 2 && n.medicalFoundation >= 1))
    requires !(n.publicHealth >= 3 || (n.publicHealth >= 2 && n.medicalFoundation >= 2))
    requires !(n.dataScience >= 4 || (n.dataScience >= 3 && n.softwareEngineering >= 2))
    requires !((n.frontend >= 3 && n.backend >= 3) || (n.frontend >= 4 && n.backend >= 2) || (n.frontend >= 2 && n.backend >= 4))
    ensures Cascade(n) == ClassifyFrom(Rules, n, 12)
  {
    ClassifyStep12(n);
    ClassifyStep13(n);
    ClassifyStep14(n);
    if !(n.frontend >= 4 || (n.frontend >= 3 && n.uiux >= 2))
      && !(n.backend >= 4 || (n.backend >= 3 && n.database >= 2))
      && !(n.devops >= 4 || (n.devops >= 3 && (n.backend >= 2 || n.database >= 2)))
    {
      CascadeAgreesFrom15(n);
    }
  }

  lemma CascadeAgreesFrom15(n: Counts)
    requires !(n.surgery >= 3 || (n.surgery >= 2 && n.medicalFoundation >= 2))
    requires !(n.clinical >= 3 || n.medicalFoundation >= 5 || (n.medicalFoundation >= 3 && n.clinical >= 1) || (n.medicalFoundation >= 4))
    requires !(n.mentalHealth >= 4 || (n.mentalHealth >= 3 && n.medicalFoundation >= 2))
    requires !(n.nursing >= 3 || (n.nursing >= 2 && n.medicalFoundation >= 2))
    requires !(n.pharmacy >= 3 || (n.pharmacy >= 2 && n.medicalFoundation >= 1))
    requires !(n.dentistry >= 3 || (n.dentistry >= 2 && n.medicalFoundation >= 1))
    requires !(n.physicalTherapy >= 3 || (n.physicalTherapy >= 2 && n.medicalFoundation >= 1))
    requires !(n.laboratory >= 3 || (n.laboratory >= 2 && n.medicalFoundation >= 2))
    requires !(n.imaging >= 3 || (n.imaging >= 2 && n.medicalFoundation >= 1))
    requires !(n.publicHealth >= 3 || (n.publicHealth >= 2 && n.medicalFoundation >= 2))
    requires !(n.dataScience >= 4 || (n.dataScience >= 3 && n.softwareEngineering >= 2))
    requires !((n.frontend >= 3 && n.backend >= 3) || (n.frontend >= 4 && n.backend >= 2) || (n.frontend >= 2 && n.backend >= 4))
    requires !(n.frontend >= 4 || (n.frontend >= 3 && n.uiux >= 2))
    requires !(n.backend >= 4 || (n.backend >= 3 && n.database >= 2))
    requires !(n.devops >= 4 || (n.devops >= 3 && (n.backend >= 2 || n.database >= 2)))
    ensures Cascade(n) == ClassifyFrom(Rules, n, 15)
  {
    ClassifyStep15(n);
    ClassifyStep16(n);
    ClassifyStep17(n);
    if !(n.mobile >= 4 || (n.mobile >= 3 && (n.frontend >= 2 || n.softwareEngineering >= 2)))
      && !(n.cybersecurity >= 4 || (n.cybersecurity >= 3 && (n.backend >= 2 || n.softwareEngineering >= 2)))
      && !(n.gameDev >= 4 || (n.gameDev >= 3 && n.softwareEngineering >= 2))
    {
      CascadeAgreesFrom18(n);
    }
  }

  lemma CascadeAgreesFrom18(n: Counts)
    requires !(n.surgery >= 3 || (n.surgery >= 2 && n.medicalFoundation >= 2))
    requires !(n.clinical >= 3 || n.medicalFoundation >= 5 || (n.medicalFoundation >= 3 && n.clinical >= 1) || (n.medicalFoundation >= 4))
    requires !(n.mentalHealth >= 4 || (n.mentalHealth >= 3 && n.medicalFoundation >= 2))
    requires !(n.nursing >= 3 || (n.nursing >= 2 && n.medicalFoundation >= 2))
    requires !(n.pharmacy >= 3 || (n.pharmacy >= 2 && n.medicalFoundation >= 1))
    requires !(n.dentistry >= 3 || (n.dentistry >= 2 && n.medicalFoundation >= 1))
    requires !(n.physicalTherapy >= 3 || (n.physicalTherapy >= 2 && n.medicalFoundation >= 1))
    requires !(n.laboratory >= 3 || (n.laboratory >= 2 && n.medicalFoundation >= 2))
    requires !(n.imaging >= 3 || (n.imaging >= 2 && n.medicalFoundation >= 1))
    requires !(n.publicHealth >= 3 || (n.publicHealth >= 2 && n.medicalFoundation >= 2))
    requires !(n.dataScience >= 4 || (n.dataScience >= 3 && n.softwareEngineering >= 2))
    requires !((n.frontend >= 3 && n.backend >= 3) || (n.frontend >= 4 && n.backend >= 2) || (n.frontend >= 2 && n.backend >= 4))
    requires !(n.frontend >= 4 || (n.frontend >= 3 && n.uiux >= 2))
    requires !(n.backend >= 4 || (n.backend >= 3 && n.database >= 2))
    requires !(n.devops >= 4 || (n.devops >= 3 && (n.backend >= 2 || n.database >= 2)))
    requires !(n.mobile >= 4 || (n.mobile >= 3 && (n.frontend >= 2 || n.softwareEngineering >= 2)))
    requires !(n.cybersecurity >= 4 || (n.cybersecurity >= 3 && (n.backend >= 2 || n.softwareEngineering >= 2)))
    requires !(n.gameDev >= 4 || (n.gameDev >= 3 && n.softwareEngineering >= 2))
    ensures Cascade(n) == ClassifyFrom(Rules, n, 18)
  {
    ClassifyStep18(n);
    ClassifyStep19(n);
    ClassifyStep20(n);
    if !(n.uiux >= 4 || (n.uiux >= 3 && n.frontend >= 2))
      && !(n.softwareEngineering >= 4 || (n.softwareEngineering >= 3 && (n.frontend >= 2 || n.backend >= 2)))
      && !((n.medicalFoundation >= 3 && (n.dataScience >= 2 || n.softwareEngineering >= 2)) || (n.medicalFoundation >= 2 && n.dataScience >= 3))
    {
      CascadeAgreesFrom21(n);
    }
  }

  lemma CascadeAgreesFrom21(n: Counts)
    requires !(n.surgery >= 3 || (n.surgery >= 2 && n.medicalFoundation >= 2))
    requires !(n.clinical >= 3 || n.medicalFoundation >= 5 || (n.medicalFoundation >= 3 && n.clinical >= 1) || (n.medicalFoundation >= 4))
    requires !(n.mentalHealth >= 4 || (n.mentalHealth >= 3 && n.medicalFoundation >= 2))
    requires !(n.nursing >= 3 || (n.nursing >= 2 && n.medicalFoundation >= 2))
    requires !(n.pharmacy >= 3 || (n.pharmacy >= 2 && n.medicalFoundation >= 1))
    requires !(n.dentistry >= 3 || (n.dentistry >= 2 && n.medicalFoundation >= 1))
    requires !(n.physicalTherapy >= 3 || (n.physicalTherapy >= 2 && n.medicalFoundation >= 1))
    requires !(n.laboratory >= 3 || (n.laboratory >= 2 && n.medicalFoundation >= 2))
    requires !(n.imaging >= 3 || (n.imaging >= 2 && n.medicalFoundation >= 1))
    requires !(n.publicHealth >= 3 || (n.publicHealth >= 2 && n.medicalFoundation >= 2))
    requires !(n.dataScience >= 4 || (n.dataScience >= 3 && n.softwareEngineering >= 2))
    requires !((n.frontend >= 3 && n.backend >= 3) || (n.frontend >= 4 && n.backend >= 2) || (n.frontend >= 2 && n.backend >= 4))
    requires !(n.frontend >= 4 || (n.frontend >= 3 && n.uiux >= 2))
    requires !(n.backend >= 4 || (n.backend >= 3 && n.database >= 2))
    requires !(n.devops >= 4 || (n.devops >= 3 && (n.backend >= 2 || n.database >= 2)))
    requires !(n.mobile >= 4 || (n.mobile >= 3 && (n.frontend >= 2 || n.softwareEngineering >= 2)))
    requires !(n.cybersecurity >= 4 || (n.cybersecurity >= 3 && (n.backend >= 2 || n.softwareEngineering >= 2)))
    requires !(n.gameDev >= 4 || (n.gameDev >= 3 && n.softwareEngineering >= 2))
    requires !(n.uiux >= 4 || (n.uiux >= 3 && n.frontend >= 2))
    requires !(n.softwareEngineering >= 4 || (n.softwareEngineering >= 3 && (n.frontend >= 2 || n.backend >= 2)))
    requires !((n.medicalFoundation >= 3 && (n.dataScience >= 2 || n.softwareEngineering >= 2)) || (n.medicalFoundation >= 2 && n.dataScience >= 3))
    ensures Cascade(n) == ClassifyFrom(Rules, n, 21)
  {
    ClassifyStep21(n);
    ClassifyStep22(n);
    ClassifyStep23(n);
  }

  // ---------------------------------------------------------------------
  // First match wins
  // ---------------------------------------------------------------------

  /** The index of the first rule from `i` on whose guard holds, or `|rules|` when none does. */
  function FirstMatch(rules: seq<Rule>, n: Counts, i: nat): (j: nat)
    requires i <= |rules|
    ensures i <= j <= |rules|
    ensures j < |rules| ==> Holds(rules[j].guard, n)
    ensures forall k :: i <= k < j ==> !Holds(rules[k].guard, n)
    decreases |rules| - i
  {
    if i == |rules| || Holds(rules[i].guard, n) then i else FirstMatch(rules, n, i + 1)
  }

  /** The search picks the first rule whose guard holds and scores it by that rule's formula. */
  lemma {:induction false} ClassifyFromFirstMatch(rules: seq<Rule>, n: Counts, i: nat)
    requires i <= |rules|
    ensures var j := FirstMatch(rules, n, i);
      ClassifyFrom(rules, n, i)
        == if j < |rules| then Outcome(rules[j].path, Score(rules[j], n))
           else Outcome(CareerExplorer, ExplorerScore)
    decreases |rules| - i
  {
    if i < |rules| && !Holds(rules[i].guard, n) {
      ClassifyFromFirstMatch(rules, n, i + 1);
    }
  }

  /** No rule leads to the default record. */
  lemma RulePathNotDefault(k: nat)
    requires k < |Rules|
    ensures Rules[k].path != CareerExplorer
  {
  }

  /**
   * The cascade takes the first branch, in line order, whose guard holds,
   * scored by that branch's formula, and the default branch with score 60
   * exactly when no guard holds.
   */
  lemma CascadeFirstMatch(n: Counts)
    ensures var j := FirstMatch(Rules, n, 0);
      && (j < |Rules| ==> Cascade(n) == Outcome(Rules[j].path, Score(Rules[j], n)))
      && (j == |Rules| ==> Cascade(n) == Outcome(CareerExplorer, ExplorerScore))
    ensures Cascade(n).path == CareerExplorer
        <==> forall k :: 0 <= k < |Rules| ==> !Holds(Rules[k].guard, n)
  {
    CascadeAgrees(n);
    ClassifyFromFirstMatch(Rules, n, 0);
    var j := FirstMatch(Rules, n, 0);
    if j < |Rules| {
      RulePathNotDefault(j);
    }
  }

  // ---------------------------------------------------------------------
  // Scores
  // ---------------------------------------------------------------------

  /** Every rule's base lies below its cap, and both lie within 60..98. */
  lemma RuleScoreRange(k: nat)
    requires k < |Rules|
    ensures 60 <= Rules[k].base < Rules[k].cap <= 98
  {
  }

  /** Whatever the counts, the cascade's score is between 60 and 98. */
  lemma CascadeScoreRange(n: Counts)
    ensures 60 <= Cascade(n).score <= 98
  {
    CascadeFirstMatch(n);
    var j := FirstMatch(Rules, n, 0);
    if j < |Rules| {
      RuleScoreRange(j);
    }
  }

  // ---------------------------------------------------------------------
  // More skills never switch a guard off
  // ---------------------------------------------------------------------

  /** Each count of `n` is at most the corresponding count of `m`. */
  predicate Below(n: Counts, m: Counts) {
    && n.medicalFoundation <= m.medicalFoundation && n.clinical <= m.clinical
    && n.surgery <= m.surgery && n.nursing <= m.nursing && n.pharmacy <= m.pharmacy
    && n.dentistry <= m.dentistry && n.physicalTherapy <= m.physicalTherapy
    && n.laboratory <= m.laboratory && n.imaging <= m.imaging
    && n.mentalHealth <= m.mentalHealth && n.publicHealth <= m.publicHealth
    && n.dataScience <= m.dataScience && n.frontend <= m.frontend
    && n.backend <= m.backend && n.database <= m.database && n.devops <= m.devops
    && n.mobile <= m.mobile && n.cybersecurity <= m.cybersecurity
    && n.gameDev <= m.gameDev && n.softwareEngineering <= m.softwareEngineering
    && n.uiux <= m.uiux
  }

  /** Guards only ask for lower bounds, so raising counts keeps a guard true. */
  lemma {:induction false} HoldsMonotone(g: Guard, n: Counts, m: Counts)
    requires Below(n, m) && Holds(g, n)
    ensures Holds(g, m)
  {
    match g
    case AtLeast(c, k) =>
    case All(l, r) =>
      HoldsMonotone(l, n, m);
      HoldsMonotone(r, n, m);
    case Any(l, r) =>
      if Holds(l, n) {
        HoldsMonotone(l, n, m);
      } else {
        HoldsMonotone(r, n, m);
      }
  }

  /**
   * Once some branch other than the default is taken, raising any counts
   * never sends the analysis back to the default "Career Explorer" record.
   */
  lemma LeavesDefaultForGood(n: Counts, m: Counts)
    requires Below(n, m) && Cascade(n).path != CareerExplorer
    ensures Cascade(m).path != CareerExplorer
  {
    CascadeFirstMatch(n);
    CascadeFirstMatch(m);
    var j := FirstMatch(Rules, n, 0);
    HoldsMonotone(Rules[j].guard, n, m);
  }

  // ---------------------------------------------------------------------
  // Which rule a recommendation came from
  // ---------------------------------------------------------------------

  /** The position of a career's branch in the cascade (the default comes last). */
  function BranchIndex(p: Path): nat {
    match p
    case Surgeon => 0
    case Physician => 1
    case Psychiatrist => 2
    case RegisteredNurse => 3
    case Pharmacist => 4
    case Dentist => 5
    case PhysicalTherapist => 6
    case LaboratoryScientist => 7
    case RadiologicTechnologist => 8
    case PublicHealthProfessional => 9
    case DataScientist => 10
    case FullStackDeveloper => 11
    case FrontendDeveloper => 12
    case BackendDeveloper => 13
    case DevOpsEngineer => 14
    case MobileDeveloper => 15
    case CybersecuritySpecialist => 16
    case GameDeveloper => 17
    case UiUxDesigner => 18
    case SoftwareEngineer => 19
    case HealthInformaticsSpecialist => 20
    case BiomedicalEngineer => 21
    case HealthcareProfessional => 22
    case TechnologyProfessional => 23
    case CareerExplorer => 24
  }

  /** Rule `k` leads to the record of branch `k`. */
  lemma BranchIndexOfRule(k: nat)
    requires k < |Rules|
    ensures BranchIndex(Rules[k].path) == k
  {
    if k < 8 {
      BranchIndexLow(k);
    } else if k < 16 {
      BranchIndexMiddle(k);
    } else {
      BranchIndexHigh(k);
    }
  }

  lemma BranchIndexLow(k: nat)
    requires 0 <= k < 8
    ensures BranchIndex(Rules[k].path) == k
  {
    if k == 0 {
      assert Rules[0] == SurgeonRule;
    } else if k == 1 {
      assert Rules[1] == PhysicianRule;
    } else if k == 2 {
      assert Rules[2] == PsychiatristRule;
    } else if k == 3 {
      assert Rules[3] == RegisteredNurseRule;
    } else if k == 4 {
      assert Rules[4] == PharmacistRule;
    } else if k == 5 {
      assert Rules[5] == DentistRule;
    } else if k == 6 {
      assert Rules[6] == PhysicalTherapistRule;
    } else {
      assert Rules[7] == LaboratoryScientistRule;
    }
  }

  lemma BranchIndexMiddle(k: nat)
    requires 8 <= k < 16
    ensures BranchIndex(Rules[k].path) == k
  {
    if k == 8 {
      assert Rules[8] == RadiologicTechnologistRule;
    } else if k == 9 {
      assert Rules[9] == PublicHealthProfessionalRule;
    } else if k == 10 {
      assert Rules[10] == DataScientistRule;
    } else if k == 11 {
      assert Rules[11] == FullStackDeveloperRule;
    } else if k == 12 {
      assert Rules[12] == FrontendDeveloperRule;
    } else if k == 13 {
      assert Rules[13] == BackendDeveloperRule;
    } else if k == 14 {
      assert Rules[14] == DevOpsEngineerRule;
    } else {
      assert Rules[15] == MobileDeveloperRule;
    }
  }

  lemma BranchIndexHigh(k: nat)
    requires 16 <= k < 24
    ensures BranchIndex(Rules[k].path) == k
  {
    if k == 16 {
      assert Rules[16] == CybersecuritySpecialistRule;
    } else if k == 17 {
      assert Rules[17] == GameDeveloperRule;
    } else if k == 18 {
      assert Rules[18] == UiUxDesignerRule;
    } else if k == 19 {
      assert Rules[19] == SoftwareEngineerRule;
    } else if k == 20 {
      assert Rules[20] == HealthInformaticsSpecialistRule;
    } else if k == 21 {
      assert Rules[21] == BiomedicalEngineerRule;
    } else if k == 22 {
      assert Rules[22] == HealthcareProfessionalRule;
    } else {
      assert Rules[23] == TechnologyProfessionalRule;
    }
  }

  /** Each career record is reachable from one rule only. */
  lemma RulePathsDistinct(i: nat, j: nat)
    requires i < |Rules| && j < |Rules| && Rules[i].path == Rules[j].path
    ensures i == j
  {
    BranchIndexOfRule(i);
    BranchIndexOfRule(j);
  }

  /**
   * A career other than the default is recommended exactly when its rule is
   * the first whose guard holds, and it is then scored by that rule.
   */
  lemma ChosenRule(n: Counts, k: nat)
    requires k < |Rules|
    ensures Cascade(n).path == Rules[k].path
        <==> Holds(Rules[k].guard, n) && forall i :: 0 <= i < k ==> !Holds(Rules[i].guard, n)
    ensures Cascade(n).path == Rules[k].path ==> Cascade(n).score == Score(Rules[k], n)
  {
    CascadeFirstMatch(n);
    var j := FirstMatch(Rules, n, 0);
    RulePathNotDefault(k);
    if j < |Rules| && Rules[j].path == Rules[k].path {
      RulePathsDistinct(j, k);
    }
    if Holds(Rules[k].guard, n) && forall i :: 0 <= i < k ==> !Holds(Rules[i].guard, n) {
      assert j == k;
    }
  }

  /** As soon as any rule's guard holds, the default record is not returned. */
  lemma GuardAvoidsDefault(n: Counts, k: nat)
    requires k < |Rules| && Holds(Rules[k].guard, n)
    ensures Cascade(n).path != CareerExplorer
  {
    CascadeFirstMatch(n);
  }

  /** Three surgery matches always yield the surgeon record, scored by its formula. */
  lemma SurgeonWhen(n: Counts)
    requires n.surgery >= 3
    ensures Cascade(n) == Outcome(Surgeon, Min(98, 85 + n.surgery * 4 + n.medicalFoundation * 2))
  {
    ClassifyStep0(n);
    CascadeAgrees(n);
  }

  /** "Full Stack Developer" needs at least two frontend and two backend matches. */
  lemma FullStackNeedsBoth(n: Counts)
    ensures Cascade(n).path == FullStackDeveloper ==> n.frontend >= 2 && n.backend >= 2
  {
    ChosenRule(n, 11);
    FullStackDeveloperGuard(n);
    assert Rules[11] == FullStackDeveloperRule;
  }

  /**
   * The last guard before the default: two frontend, backend, data-science,
   * devops, design or game matches, or three software-engineering matches,
   * keep the analysis away from the default record.
   */
  lemma TechnologyAvoidsDefault(n: Counts)
    requires n.frontend >= 2 || n.backend >= 2 || n.dataScience >= 2 || n.softwareEngineering >= 3
          || n.devops >= 2 || n.uiux >= 2 || n.gameDev >= 2
    ensures Cascade(n).path != CareerExplorer
  {
    TechnologyProfessionalGuard(n);
    assert Rules[23] == TechnologyProfessionalRule;
    GuardAvoidsDefault(n, 23);
  }
}
