/**
 * The 21 keyword tables of the skill analyser (backend/server.js), one
 * category per table, with every keyword kept verbatim and in table order.
 * Each table is written as one sequence per source line; the table of
 * category `X` is the function `XKeywords`.
 */
module Taxonomy {

  datatype Category =
      MedicalFoundation
    | ClinicalMedicine
    | Surgery
    | Nursing
    | Pharmacy
    | Dentistry
    | PhysicalTherapy
    | Laboratory
    | MedicalImaging
    | MentalHealth
    | PublicHealth
    | DataScience
    | Frontend
    | Backend
    | Database
    | DevOps
    | Mobile
    | Cybersecurity
    | GameDevelopment
    | SoftwareEngineering
    | UiUxDesign

  /** `medicalFoundation`. */
  function MedicalFoundationKeywords(): seq<string> {
    ["anatomy", "physiology", "biology", "chemistry", "organic chemistry", "biochemistry"] +
    ["microbiology", "pathology", "pharmacology", "immunology", "genetics", "molecular biology"] +
    ["cell biology", "histology", "embryology", "neuroscience", "medical ethics"] +
    ["biostatistics", "epidemiology", "public health", "medical terminology", "pathophysiology"] +
    ["toxicology", "virology", "bacteriology", "parasitology", "medical physics"]
  }

  /** `clinicalMedicine`. */
  function ClinicalMedicineKeywords(): seq<string> {
    ["clinical medicine", "internal medicine", "family medicine", "emergency medicine"] +
    ["pediatrics", "geriatrics", "cardiology", "pulmonology", "gastroenterology"] +
    ["endocrinology", "rheumatology", "nephrology", "hematology", "oncology"] +
    ["infectious disease", "dermatology", "neurology", "radiology"] +
    ["diagnostic imaging", "clinical diagnosis", "differential diagnosis", "patient assessment"] +
    ["physical examination", "medical history taking", "clinical reasoning", "evidence based medicine"] +
    ["intensive care", "critical care", "trauma medicine", "sports medicine"]
  }

  /** `surgery`. */
  function SurgeryKeywords(): seq<string> {
    ["surgery", "surgical", "general surgery", "orthopedic surgery", "neurosurgery"] +
    ["cardiac surgery", "thoracic surgery", "vascular surgery", "plastic surgery"] +
    ["trauma surgery", "pediatric surgery", "urological surgery", "gynecological surgery"] +
    ["ophthalmic surgery", "ent surgery", "oral surgery", "transplant surgery"] +
    ["operating room", "or", "perioperative care", "anesthesia", "anesthesiology"] +
    ["surgical instruments", "sterile technique", "suturing", "laparoscopy"] +
    ["minimally invasive surgery", "robotic surgery", "surgical anatomy", "surgical pathology"]
  }

  /** `nursing`. */
  function NursingKeywords(): seq<string> {
    ["nursing", "registered nurse", "rn", "lpn", "bsn", "adn", "msn", "nurse practitioner"] +
    ["patient care", "bedside manner", "vital signs", "medication administration"] +
    ["wound care", "infection control", "patient safety", "nursing assessment"] +
    ["care planning", "patient education", "clinical nursing", "critical care nursing"] +
    ["icu nursing", "emergency nursing", "surgical nursing", "pediatric nursing"] +
    ["obstetric nursing", "psychiatric nursing", "community health nursing"] +
    ["geriatric nursing", "oncology nursing", "cardiac nursing", "neonatal nursing"] +
    ["nurse educator", "nurse administrator", "nurse researcher"]
  }

  /** `pharmacy`. */
  function PharmacyKeywords(): seq<string> {
    ["pharmacy", "pharmacology", "pharmaceutical sciences", "clinical pharmacy"] +
    ["pharmacotherapy", "pharmacokinetics", "pharmacodynamics", "toxicology"] +
    ["medicinal chemistry", "pharmaceutical chemistry", "drug development"] +
    ["drug interactions", "medication therapy management", "pharmaceutical care"] +
    ["compounding", "dispensing", "drug safety", "adverse drug reactions"] +
    ["pharmacy practice", "hospital pharmacy", "retail pharmacy", "pharmd"] +
    ["pharmaceutical law", "pharmacy administration", "drug information"] +
    ["pharmacoeconomics", "pharmaceutical manufacturing", "regulatory affairs"]
  }

  /** `dentistry`. */
  function DentistryKeywords(): seq<string> {
    ["dentistry", "dental", "oral health", "dental hygiene", "orthodontics"] +
    ["periodontics", "endodontics", "prosthodontics", "oral surgery"] +
    ["dental assistant", "dental hygienist", "teeth cleaning", "cavity filling"] +
    ["root canal", "dental implants", "oral pathology", "dental radiology"] +
    ["dental materials", "dental anatomy", "occlusion", "dental public health"] +
    ["pediatric dentistry", "geriatric dentistry", "cosmetic dentistry"] +
    ["oral and maxillofacial surgery", "dds", "dmd", "dental practice management"] +
    ["dental laboratory technology", "dental therapeutics"]
  }

  /** `physicalTherapy`. */
  function PhysicalTherapyKeywords(): seq<string> {
    ["physical therapy", "physiotherapy", "pt", "dpt", "rehabilitation"] +
    ["exercise therapy", "manual therapy", "therapeutic exercise"] +
    ["movement analysis", "gait training", "balance training", "strength training"] +
    ["musculoskeletal", "orthopedic", "neurological rehabilitation"] +
    ["sports medicine", "sports rehabilitation", "occupational therapy"] +
    ["ot", "speech therapy", "speech pathology", "respiratory therapy"] +
    ["physical rehabilitation", "injury prevention", "biomechanics"] +
    ["kinesiology", "exercise science", "athletic training", "massage therapy"]
  }

  /** `laboratory`. */
  function LaboratoryKeywords(): seq<string> {
    ["medical laboratory", "clinical laboratory", "lab technician", "lab technology"] +
    ["medical laboratory science", "clinical pathology", "laboratory medicine"] +
    ["blood work", "hematology lab", "chemistry lab", "microbiology lab"] +
    ["immunology lab", "molecular diagnostics", "cytology", "histopathology"] +
    ["laboratory testing", "diagnostic testing", "laboratory analysis"] +
    ["quality control", "laboratory management", "laboratory safety"] +
    ["specimen collection", "laboratory equipment", "microscopy"] +
    ["laboratory procedures", "laboratory standards", "ascp certification"] +
    ["medical technology", "clinical chemistry", "blood banking"]
  }

  /** `medicalImaging`. */
  function MedicalImagingKeywords(): seq<string> {
    ["radiology", "medical imaging", "radiologic technology", "x-ray"] +
    ["ct scan", "mri", "ultrasound", "nuclear medicine", "pet scan"] +
    ["mammography", "fluoroscopy", "interventional radiology"] +
    ["diagnostic imaging", "radiography", "sonography", "echocardiography"] +
    ["radiation therapy", "radiation oncology", "medical dosimetry"] +
    ["radiation safety", "imaging physics", "contrast media"] +
    ["image interpretation", "pacs", "dicom", "radiologic science"] +
    ["bone densitometry", "cardiac catheterization", "angiography"]
  }

  /** `mentalHealth`. */
  function MentalHealthKeywords(): seq<string> {
    ["psychology", "psychiatry", "mental health", "behavioral health"] +
    ["clinical psychology", "counseling psychology", "psychotherapy"] +
    ["cognitive behavioral therapy", "cbt", "psychoanalysis", "psychopharmacology"] +
    ["neuropsychology", "social work", "psychiatric nursing", "addiction counseling"] +
    ["marriage and family therapy", "child psychology", "developmental psychology"] +
    ["abnormal psychology", "psychological assessment", "psychological testing"] +
    ["mental health counseling", "substance abuse counseling", "trauma therapy"] +
    ["group therapy", "psychiatric rehabilitation", "behavioral analysis"] +
    ["art therapy", "music therapy", "play therapy", "psychosocial rehabilitation"]
  }

  /** `publicHealth`. */
  function PublicHealthKeywords(): seq<string> {
    ["public health", "epidemiology", "biostatistics", "environmental health"] +
    ["health policy", "global health", "community health", "health promotion"] +
    ["disease prevention", "health education", "health administration"] +
    ["healthcare management", "health informatics", "health economics"] +
    ["maternal and child health", "occupational health", "nutrition"] +
    ["food safety", "infection control", "outbreak investigation"] +
    ["health surveillance", "health research", "mph", "drph"] +
    ["social determinants of health", "health disparities", "health communication"] +
    ["program evaluation", "health planning", "health services research"]
  }

  /** `dataScience`. */
  function DataScienceKeywords(): seq<string> {
    ["data science", "machine learning", "artificial intelligence", "ai", "ml"] +
    ["deep learning", "neural networks", "natural language processing", "nlp"] +
    ["computer vision", "data analysis", "data mining", "big data", "analytics"] +
    ["statistical analysis", "predictive modeling", "data visualization"] +
    ["business intelligence", "data engineering", "mlops", "model deployment"] +
    ["python", "r", "pandas", "numpy", "scikit-learn", "tensorflow", "pytorch"] +
    ["keras", "jupyter", "tableau", "power bi", "spark", "hadoop", "kafka"] +
    ["data warehousing", "etl", "statistics", "probability", "linear algebra"] +
    ["reinforcement learning", "unsupervised learning", "supervised learning"]
  }

  /** `frontend`. */
  function FrontendKeywords(): seq<string> {
    ["frontend", "front-end", "web development", "ui development", "ux development"] +
    ["html", "css", "javascript", "typescript", "react", "vue", "angular"] +
    ["svelte", "next.js", "nuxt.js", "gatsby", "webpack", "vite", "parcel"] +
    ["sass", "scss", "less", "stylus", "tailwind css", "bootstrap", "material ui"] +
    ["styled components", "css modules", "responsive design", "mobile-first design"] +
    ["web accessibility", "cross-browser compatibility", "performance optimization"] +
    ["seo", "progressive web apps", "pwa", "service workers", "web components"] +
    ["dom manipulation", "event handling", "ajax", "fetch api", "rest apis"] +
    ["graphql", "state management", "redux", "mobx", "zustand", "context api"]
  }

  /** `backend`. */
  function BackendKeywords(): seq<string> {
    ["backend", "back-end", "server-side", "api development", "web services"] +
    ["node.js", "express.js", "python", "django", "flask", "fastapi"] +
    ["java", "spring boot", "spring framework", "c#", ".net", "asp.net"] +
    ["php", "laravel", "symfony", "ruby", "ruby on rails", "go", "golang"] +
    ["rust", "scala", "kotlin", "microservices", "monolithic architecture"] +
    ["rest api", "graphql", "grpc", "soap", "websockets", "server architecture"] +
    ["load balancing", "caching", "redis", "memcached", "message queues"] +
    ["rabbitmq", "apache kafka", "authentication", "authorization", "jwt"] +
    ["oauth", "api security", "rate limiting", "logging", "monitoring"]
  }

  /** `database`. */
  function DatabaseKeywords(): seq<string> {
    ["database", "sql", "nosql", "mysql", "postgresql", "sqlite", "oracle"] +
    ["sql server", "mongodb", "cassandra", "redis", "elasticsearch"] +
    ["neo4j", "graph database", "time series database", "influxdb"] +
    ["database design", "database administration", "dba", "data modeling"] +
    ["normalization", "indexing", "query optimization", "stored procedures"] +
    ["triggers", "database security", "backup and recovery", "replication"] +
    ["sharding", "acid properties", "transactions", "concurrency control"] +
    ["database migration", "orm", "sequelize", "hibernate", "prisma"]
  }

  /** `devops`. */
  function DevOpsKeywords(): seq<string> {
    ["devops", "cloud computing", "aws", "azure", "google cloud", "gcp"] +
    ["docker", "kubernetes", "containerization", "orchestration"] +
    ["ci/cd", "continuous integration", "continuous deployment", "jenkins"] +
    ["gitlab ci", "github actions", "travis ci", "infrastructure as code"] +
    ["terraform", "ansible", "puppet", "chef", "cloudformation"] +
    ["monitoring", "logging", "observability", "prometheus", "grafana"] +
    ["elk stack", "splunk", "new relic", "datadog", "linux", "unix"] +
    ["bash scripting", "powershell", "networking", "security", "ssl/tls"] +
    ["load balancers", "cdn", "microservices deployment", "serverless"]
  }

  /** `mobile`. */
  function MobileKeywords(): seq<string> {
    ["mobile development", "ios development", "android development"] +
    ["react native", "flutter", "xamarin", "ionic", "cordova", "phonegap"] +
    ["swift", "objective-c", "kotlin", "java android", "dart"] +
    ["mobile ui/ux", "mobile design", "responsive design", "app store optimization"] +
    ["mobile testing", "mobile security", "push notifications", "in-app purchases"] +
    ["mobile analytics", "mobile performance", "offline functionality"] +
    ["mobile databases", "mobile apis", "cross-platform development"] +
    ["native development", "hybrid apps", "progressive web apps"] +
    ["mobile deployment", "app store", "google play", "mobile frameworks"]
  }

  /** `cybersecurity`. */
  function CybersecurityKeywords(): seq<string> {
    ["cybersecurity", "information security", "network security", "application security"] +
    ["ethical hacking", "penetration testing", "vulnerability assessment"] +
    ["security auditing", "incident response", "malware analysis", "forensics"] +
    ["cryptography", "encryption", "ssl/tls", "pki", "identity management"] +
    ["access control", "authentication", "authorization", "security frameworks"] +
    ["iso 27001", "nist", "owasp", "security compliance", "risk assessment"] +
    ["security monitoring", "siem", "ids/ips", "firewall", "antivirus"] +
    ["security awareness", "social engineering", "phishing", "ransomware"] +
    ["cloud security", "mobile security", "iot security", "blockchain security"]
  }

  /** `gameDevelopment`. */
  function GameDevelopmentKeywords(): seq<string> {
    ["game development", "game design", "unity", "unreal engine", "godot"] +
    ["c#", "c++", "javascript", "python", "lua", "game programming"] +
    ["game physics", "game graphics", "3d modeling", "2d graphics"] +
    ["animation", "game ai", "gameplay programming", "game testing"] +
    ["level design", "game mechanics", "user interface design", "game audio"] +
    ["sound design", "music composition", "game monetization", "game publishing"] +
    ["mobile games", "pc games", "console games", "vr games", "ar games"] +
    ["multiplayer games", "networking", "game optimization", "performance tuning"] +
    ["indie game development", "aaa game development", "game engines"]
  }

  /** `softwareEngineering`. */
  function SoftwareEngineeringKeywords(): seq<string> {
    ["software engineering", "software development", "programming", "coding"] +
    ["algorithms", "data structures", "object-oriented programming", "oop"] +
    ["functional programming", "design patterns", "software architecture"] +
    ["system design", "scalability", "performance optimization", "code review"] +
    ["version control", "git", "github", "gitlab", "bitbucket", "svn"] +
    ["agile methodology", "scrum", "kanban", "test-driven development", "tdd"] +
    ["behavior-driven development", "bdd", "unit testing", "integration testing"] +
    ["end-to-end testing", "automated testing", "manual testing", "debugging"] +
    ["refactoring", "documentation", "technical writing", "code quality"] +
    ["software lifecycle", "software requirements", "software maintenance"]
  }

  /** `uiuxDesign`. */
  function UiUxDesignKeywords(): seq<string> {
    ["ui design", "ux design", "user interface", "user experience", "design"] +
    ["graphic design", "visual design", "interaction design", "product design"] +
    ["web design", "mobile design", "responsive design", "accessibility design"] +
    ["design thinking", "user research", "usability testing", "prototyping"] +
    ["wireframing", "mockups", "design systems", "style guides", "branding"] +
    ["typography", "color theory", "layout design", "information architecture"] +
    ["sketch", "figma", "adobe xd", "photoshop", "illustrator", "indesign"] +
    ["after effects", "principle", "framer", "invision", "zeplin", "marvel"] +
    ["user personas", "user journey", "user flow", "a/b testing"]
  }

  /** The keyword table of a category. */
  function Keywords(c: Category): seq<string> {
    match c
    case MedicalFoundation => MedicalFoundationKeywords()
    case ClinicalMedicine => ClinicalMedicineKeywords()
    case Surgery => SurgeryKeywords()
    case Nursing => NursingKeywords()
    case Pharmacy => PharmacyKeywords()
    case Dentistry => DentistryKeywords()
    case PhysicalTherapy => PhysicalTherapyKeywords()
    case Laboratory => LaboratoryKeywords()
    case MedicalImaging => MedicalImagingKeywords()
    case MentalHealth => MentalHealthKeywords()
    case PublicHealth => PublicHealthKeywords()
    case DataScience => DataScienceKeywords()
    case Frontend => FrontendKeywords()
    case Backend => BackendKeywords()
    case Database => DatabaseKeywords()
    case DevOps => DevOpsKeywords()
    case Mobile => MobileKeywords()
    case Cybersecurity => CybersecurityKeywords()
    case GameDevelopment => GameDevelopmentKeywords()
    case SoftwareEngineering => SoftwareEngineeringKeywords()
    case UiUxDesign => UiUxDesignKeywords()
  }
}
