# Career Pathfinder Pro: a Dafny model of the backend's decision logic

This project models the logic at the core of the Career Pathfinder Pro
backend and proves properties of it.

- **Skill analyser** (`analyzeSkills` in `backend/server.js`) and its HTTP
  endpoint `/api/career/analyze`. Twenty-one keyword tables turn a list of
  skills into category counts. A 24-branch if/else-if cascade turns the counts
  into one career record, and the endpoint wraps that record in a JSON
  envelope.
- **Career analyser** (`backend/src/services/ai/careerAnalyzer.js`). It scores
  four fixed career paths by the share of their skills the user has, then sorts
  the matches. The sort is an insertion sort on an array.
- **Profile model** (`backend/src/models/Profile.js`):
  - the twelve-test completion percentage and the pre-save hook that stores it;
  - the total-experience split into years and months;
  - the skills-by-category filter and the current-position query.
- **User model** (`backend/src/models/User.js`):
  - the lock and subscription getters;
  - the failed-login lockout: five failures lock an account for two hours;
  - the analytics counters and the role permission table;
  - the check order of `findByCredentials`.
- **Access-control middleware** (`backend/src/middleware/auth.js`):
  - token extraction and the rejection order of `protect`, plus `optionalAuth`;
  - the role, plan, permission and ownership checks;
  - the per-plan rate limit and the completed-profile gate.
- **Hand-written validators and the body sanitiser**
  (`backend/src/middleware/validation.js`).

## How the model is built

Modules follow the source files:

- `Taxonomy`, `Categorizer`, `Classifier`, `ClassifierExamples` and `CareerApi`
  model `server.js`.
- `CareerAnalyzer` models `careerAnalyzer.js`.
- `Profiles` models `Profile.js`.
- `Accounts` models `User.js`.
- `Requests` and `Auth` model `auth.js`.
- `Requests` and `Validation` model `validation.js`.
- `Seqs` and `Text` hold the generic pieces: JavaScript's `filter`, its stable
  `sort` and `split`/`join`, `includes`, and ASCII `toLowerCase`.

Pure code is written as functions and lemmas. Code that changes state is
written as classes and methods:

- `Profile`, `User` and `Request` have fields.
- Their methods carry `modifies` clauses and are proved against specification
  functions.
- The sort of `careerAnalyzer.js` works in place on an `array`.

Parts of the system outside this model become parameters:

- The clock becomes an integer `now`, in milliseconds.
- `jwt.verify` becomes `verify`.
- A bcrypt comparison becomes `passwordMatches`.
- A database lookup becomes the document it returns.
- `new Date(x)` becomes `parseDate`.
- The script-stripping regular expression becomes `clean`.
- `toLocaleString` becomes `formatSalary`.

A header, cookie or parameter that is absent is the empty string, which is
falsy in JavaScript just as `undefined` is.

The cascade in `server.js` is written twice:

- once as the source writes it (`Classifier.Cascade`);
- once as a table of rules, each with a guard and a score formula, searched in
  order by `Classifier.Classify`.

`Classifier.CascadeAgrees` proves that the two agree. Every cascade property
is then proved on the table.

With the skills react, node.js, sql, express and mongodb, the code does not
return the "Full Stack Developer" record. Only "react" contains a frontend
keyword, so the frontend count is 1 (`ClassifierExamples.WebSkillsNotFullStack`).
This does not depend on the other counts.

## Model

| member | source | states |
|---|---|---|
| Categorizer.CountWith | backend/server.js:36-38 | a category count never exceeds the number of skills |
| Categorizer.MatchesIff | backend/server.js:36-38 | a skill matches a table iff some keyword occurs as a substring of the lowercased skill |
| Categorizer.CountSingle | backend/server.js:36-38 | a single skill counts 1 when it matches and 0 otherwise |
| Categorizer.CountAppend | backend/server.js:36-38 | counts add up over concatenated skill lists |
| Categorizer.CountAppendOne | backend/server.js:36-38 | appending a skill never lowers a count, and raises it by one exactly when the skill matches |
| Categorizer.CountFirst | backend/server.js:36-38 | a count is the first skill's contribution plus the count of the rest |
| Categorizer.CountDuplicate | backend/server.js:36-38 | a repeated skill is counted each time it occurs |
| Categorizer.CountPermutation | backend/server.js:21-353 | reordering the skill list changes no count |
| Categorizer.CountZeroIff | backend/server.js:36-38 | a count is zero iff no skill matches |
| Categorizer.CountFullIff | backend/server.js:36-38 | a count equals the list length iff every skill matches |
| Categorizer.CharKeyword | backend/server.js:202-209 | a one-letter keyword fires on every skill containing that letter |
| Categorizer.LetterRIsDataScience | backend/server.js:202-209 | every skill containing "r" or "R" raises the data-science count |
| Categorizer.PythonInThreeCategories | backend/server.js:202-320 | "python" matches the data-science, backend and game-development tables |
| Classifier.Score | backend/server.js:386-812 | a rule's score `min(cap, base + ...)` never exceeds the cap and is at least the base when the base is below the cap |
| Classifier.SurgeonGuard | backend/server.js:386 | the first table rule has the guard of the surgeon branch |
| Classifier.SurgeonScore | backend/server.js:389 | the first table rule has the score formula of the surgeon branch |
| Classifier.CascadeAgrees | backend/server.js:386-812 | the if/else-if chain and the first-match search over the rule table return the same record and score for all counts |
| Classifier.FirstMatch | backend/server.js:386-812 | the index found is the first rule whose guard holds, and no earlier guard holds |
| Classifier.ClassifyFromFirstMatch | backend/server.js:386-812 | the search returns the first matching rule's record scored by that rule, or the default with score 60 |
| Classifier.CascadeFirstMatch | backend/server.js:386-812 | exactly one record is returned: the first branch in line order whose guard holds, else the default, which is returned iff no guard holds |
| Classifier.RuleScoreRange | backend/server.js:386-812 | every branch has non-negative weights and 60 <= base < cap <= 98 |
| Classifier.CascadeScoreRange | backend/server.js:386-812 | whatever the counts, the score lies in 60..98 |
| Classifier.HoldsMonotone | backend/server.js:386-812 | guards are lower bounds on counts, so raising counts keeps a guard true |
| Classifier.LeavesDefaultForGood | backend/server.js:386-812 | once a non-default branch is taken, raising counts never returns to "Career Explorer" |
| Classifier.RulePathsDistinct | backend/server.js:386-812 | each career record belongs to one branch only |
| Classifier.ChosenRule | backend/server.js:386-812 | a branch's record is returned iff its guard holds and no earlier guard does, and it is then scored by that branch's formula |
| Classifier.GuardAvoidsDefault | backend/server.js:386-812 | any guard that holds keeps the default record away |
| Classifier.SurgeonWhen | backend/server.js:386-390 | three surgery matches give the surgeon record with its score formula, whatever the other counts |
| Classifier.FullStackNeedsBoth | backend/server.js:569-571 | "Full Stack Developer" requires at least two frontend and two backend matches |
| Classifier.TechnologyAvoidsDefault | backend/server.js:777-778 | two frontend, backend, data-science, devops, design or game matches, or three software-engineering matches, avoid the default |
| ClassifierExamples.NoSkillsExplorer | backend/server.js:797-812 | an empty skill list has all-zero counts, takes the default branch, and is analysed as the "Career Explorer" record with score 60 and salary 65000 |
| ClassifierExamples.SurgerySkillsSurgeryCount | backend/server.js:55-66 | ["surgery","surgical","operating room"] has surgery count 3 |
| ClassifierExamples.SurgerySkillsFoundationCount | backend/server.js:29-38 | the same three skills have medical-foundation count 0 |
| ClassifierExamples.SurgerySkillsSurgeon | backend/server.js:386-390 | for those skills the result is the surgeon record with score 97 |
| ClassifierExamples.WebSkillsFrontendCount | backend/server.js:219-225 | react, node.js, sql, express, mongodb have frontend count 1 |
| ClassifierExamples.WebSkillsDataScienceCount | backend/server.js:202-209 | the same five skills have data-science count at least 2 |
| ClassifierExamples.WebSkillsNotFullStack | backend/server.js:569-571 | those five skills do not give "Full Stack Developer", nor the default |
| ClassifierExamples.TwoSkillsWithR | backend/server.js:202-209 | any two skills containing "r" have data-science count 2 |
| ClassifierExamples.UnrelatedSkillsNotExplorer | backend/server.js:777-781 | ["unrelated","gibberish"] has data-science count 2 and does not get the default record |
| CareerApi.AcceptsExactlyArrays | backend/server.js:851-856 | a request is accepted iff `skills` is an array, `[]` included; otherwise the answer is 400 "Please provide skills array" |
| CareerApi.SuccessEchoesInput | backend/server.js:858-882 | on success the status is 200, the input comes back unchanged as userSkills, and every other field is copied from the analysis of that input |
| CareerAnalyzer.FiveSkillsPerPath | backend/src/services/ai/careerAnalyzer.js:3-36 | every career path lists five skills |
| CareerAnalyzer.RoundedPercent | backend/src/services/ai/careerAnalyzer.js:68 | the result is the integer nearest to the exact 100·m/n, a half rounding up (the double-precision quotient of the source agrees for every n below 40) |
| CareerAnalyzer.RoundedPercentAtMostFull | backend/src/services/ai/careerAnalyzer.js:68 | a share of at most the whole rounds to at most 100 |
| CareerAnalyzer.CalculateSkillMatch | backend/src/services/ai/careerAnalyzer.js:60-69 | an empty user-skill list scores 0, and every score is at most 100 |
| CareerAnalyzer.MatchingAndMissing | backend/src/services/ai/careerAnalyzer.js:45-47 | matched and missing skills split the path skills; the missing ones are a subsequence of the path skills and are exactly those no user skill equals case-insensitively |
| CareerAnalyzer.RoundedPercentFull | backend/src/services/ai/careerAnalyzer.js:68 | for fewer than 200 path skills, the rounded share is 100 iff every skill matched |
| CareerAnalyzer.FullScoreIffNothingMissing | backend/src/services/ai/careerAnalyzer.js:60-69 | for a non-empty skill list, the score is 100 iff no path skill is missing |
| CareerAnalyzer.FiveSkillScore | backend/src/services/ai/careerAnalyzer.js:60-69 | with five path skills the score is 20 per matched skill, so always a multiple of 20 |
| CareerAnalyzer.MatchPath | backend/src/services/ai/careerAnalyzer.js:40-48 | a match keeps the path's id, title, skills, salary, demand level and description; its score is the path's skill-match score (at most 100, and 0 with no skills); its missing skills are exactly the path skills the user lacks, in path order |
| CareerAnalyzer.AllMatches | backend/src/services/ai/careerAnalyzer.js:40-49 | the k-th match is the match of the k-th career path, for every path, and each path has five skills |
| CareerAnalyzer.Recommendations | backend/src/services/ai/careerAnalyzer.js:71-78 | four lines: the top match's title with its score (whose digits read back as the score), its formatted salary, its demand level, and exactly its first two missing skills joined by ", " (one or none when fewer are missing) |
| CareerAnalyzer.RankedOrdered | backend/src/services/ai/careerAnalyzer.js:51 | the sorted matches are a permutation of the matches, ordered by non-increasing score |
| CareerAnalyzer.RankedTiesKeepTableOrder | backend/src/services/ai/careerAnalyzer.js:51 | matches with equal scores keep table order (the sort is stable) |
| CareerAnalyzer.TopIsBest | backend/src/services/ai/careerAnalyzer.js:51-56 | the first sorted match scores at least as high as every path |
| CareerAnalyzer.NoSkillsRanking | backend/src/services/ai/careerAnalyzer.js:39-58 | with no skills the order is the table order, and the skill gaps are the frontend path's five skills |
| CareerAnalyzer.AnalyzeCareer | backend/src/services/ai/careerAnalyzer.js:39-58 | topMatches is the first three sorted matches; skillGaps and recommendations come from the top match |
| CareerAnalyzer.SortByScore | backend/src/services/ai/careerAnalyzer.js:51 | sorting in place leaves the array equal to the stable descending sort of its old contents |
| CareerAnalyzer.InsertNext | backend/src/services/ai/careerAnalyzer.js:51 | one insertion step puts the next element into the sorted prefix and leaves the rest alone |
| CareerAnalyzer.ShiftLower | backend/src/services/ai/careerAnalyzer.js:51 | the backward scan moves exactly the lower-scoring tail of the prefix one place right |
| Profiles.PointsTotal | backend/src/models/Profile.js:322-344 | the twelve awards sum to exactly 100 |
| Profiles.Profile.CompletionPercentage | backend/src/models/Profile.js:318-345 | the step-by-step score equals the sum of the points of the passed tests |
| Profiles.AwardedAtMostSum | backend/src/models/Profile.js:322-344 | the points earned are at most the points available, with equality iff every test passes |
| Profiles.AwardedMonotone | backend/src/models/Profile.js:323-342 | passing more tests never earns fewer points |
| Profiles.ScoreAtMostMax | backend/src/models/Profile.js:344 | the score is at most 100, so the final `Math.min` never lowers it |
| Profiles.ScoreRange | backend/src/models/Profile.js:318-345 | the score lies in 0..100 and is 100 iff every test passes |
| Profiles.ScoreMonotone | backend/src/models/Profile.js:323-342 | making any tested field present never lowers the score |
| Profiles.SkillsShare | backend/src/models/Profile.js:333-334 | skills earn 0 points below 5 entries, 15 for 5-9 and 20 for 10 or more |
| Profiles.Profile.PreSave | backend/src/models/Profile.js:348-352 | the stored completeness becomes the completion percentage and lastUpdated becomes now |
| Profiles.MonthsBetween | backend/src/models/Profile.js:362-363 | the result is the ceiling of the distance in 30.44-day months, and 0 iff the dates are equal |
| Profiles.TotalMonthsAppend | backend/src/models/Profile.js:358-366 | total months add up over concatenated experience lists |
| Profiles.ClosedTotalIgnoresNow | backend/src/models/Profile.js:360 | when every experience has an end date, the total does not depend on the current time |
| Profiles.Profile.CalculateTotalExperience | backend/src/models/Profile.js:355-372 | the stored split satisfies 12·years + months = total and months < 12 |
| Profiles.Profile.SkillsByCategory | backend/src/models/Profile.js:375-377 | the result is, in order, exactly the skills of that category, with their multiplicities |
| Profiles.LatestOpen | backend/src/models/Profile.js:380-384 | the current position has no end date and the latest start among such entries; there is none iff every experience has an end date |
| Profiles.LatestOpenFirstAmongTies | backend/src/models/Profile.js:380-384 | among open entries tied for the latest start, the first in list order is chosen |
| Accounts.GettersExpire | backend/src/models/User.js:180-189 | without a date there is no lock or active subscription, and a lock or subscription over now stays over later |
| Accounts.FailedLogin | backend/src/models/User.js:290-307 | an expired lock restarts the count at 1 and clears the lock; otherwise the count rises by 1, and an active lock is kept as it is |
| Accounts.LockedAfterFailureIff | backend/src/models/User.js:299-306 | after a failure the account is locked iff it already was or the count reached 5, unless the failure found an expired lock |
| Accounts.LockNeverExtended | backend/src/models/User.js:299-306 | failures during a lock only raise the count and never move the lock time |
| Accounts.FifthFailureLocks | backend/src/models/User.js:290-307 | from a clean state, four failures lock nothing and the fifth locks for two hours |
| Accounts.User.IncLoginAttempts | backend/src/models/User.js:290-307 | the stored lockout fields become the failed-login successor of the old ones |
| Accounts.User.ResetLoginAttempts | backend/src/models/User.js:310-314 | both the count and the lock are cleared |
| Accounts.User.UpdateAnalytics | backend/src/models/User.js:317-321 | only the named counter changes, by `increment` |
| Accounts.PermissionTable | backend/src/models/User.js:324-333 | admin holds every permission; premium holds exactly its three; every other role holds only basic_features |
| Accounts.PremiumLacksBasicFeatures | backend/src/models/User.js:324-333 | premium lacks basic_features, which user holds |
| Accounts.FindByCredentials | backend/src/models/User.js:336-371 | checks run in order: unknown email; lock (attempt counted, even with the right password); suspension (nothing counted); wrong password (counted); success resets a non-zero count and records the login; only the login counters and the last-login time change |
| Accounts.LockedRejectsCorrectPassword | backend/src/models/User.js:344-347 | a locked account's attempt is counted and the lock stays in force |
| Auth.TokenSources | backend/src/middleware/auth.js:23-31 | "Bearer t" yields t whatever the cookie; a Bearer header with no second word yields no token; any other header falls back to the cookie |
| Auth.ProtectPassesIff | backend/src/middleware/auth.js:33-65 | a request passes iff it has a verifying token naming an existing, active or pending, unlocked user who is not an unverified pending user while verification is on; every rejection is 401 |
| Auth.ProtectRejectionOrder | backend/src/middleware/auth.js:33-86 | a missing token comes first, inactive status before lock, and an expired token gets "Token expired" |
| Auth.Protect | backend/src/middleware/auth.js:20-87 | the result is the protect decision, and the user is attached iff it passes |
| Auth.OptionalAuthAgainstProtect | backend/src/middleware/auth.js:169-202 | for unlocked users, optionalAuth attaches exactly the active users protect admits; it attaches a locked active user that protect refuses |
| Auth.OptionalAuth | backend/src/middleware/auth.js:169-202 | it always passes and attaches the user only for a verified token naming an active account |
| Auth.AuthorizeIff | backend/src/middleware/auth.js:90-110 | no user gets 401; a role outside the list gets 403 with the role in the message; a listed role passes |
| Auth.PlanIndex | backend/src/middleware/auth.js:128-130 | a plan's rank in free < premium < enterprise, and -1 iff it is not one of them |
| Auth.SubscriptionPassesIff | backend/src/middleware/auth.js:113-143 | admin passes; otherwise a user passes iff their plan ranks at least as high and the subscription is active, the free plan needing no active subscription; otherwise the answer is 403 "expired" |
| Auth.PlanHierarchyCheck | backend/src/middleware/auth.js:122-134 | a lower plan gets 403; an unknown user plan fails every known requirement; an unknown required plan never fails on rank |
| Auth.CheckPermissionIff | backend/src/middleware/auth.js:146-166 | a user passes iff the role's table grants the permission; admin passes everything; premium is refused basic_features |
| Auth.TierLimits | backend/src/middleware/auth.js:205-223 | defaults give enterprise 200, premium 50 and every other plan 10; limits follow the plan order whenever the arguments do |
| Auth.TierBasedRateLimit | backend/src/middleware/auth.js:205-233 | with no user nothing changes; otherwise the plan's limit and plan are stored; it never rejects |
| Auth.ResourceId | backend/src/middleware/auth.js:248 | an id exists iff one of params.id, params.userId or body.id is truthy, and params.id wins |
| Auth.OwnershipPassesIff | backend/src/middleware/auth.js:236-261 | admin passes; otherwise a missing id gets 400, and the request passes iff the id is the caller's own or the resource field is not "user" |
| Auth.OwnershipFirstIdDecides | backend/src/middleware/auth.js:248-257 | a foreign params.id is refused even when params.userId is the caller's; a numeric body id never matches |
| Auth.CompleteProfilePassesIff | backend/src/middleware/auth.js:264-283 | a request passes iff there is a user with a profile at least 50% complete; a fully complete profile passes, and completing more keeps a passing profile passing |
| Auth.RequireCompleteProfile | backend/src/middleware/auth.js:264-283 | the result is the gate decision, and the profile is attached iff it passes |
| Validation.DateRangeIff | backend/src/middleware/validation.js:569-582 | refused with 400 iff both dates are present, parse and start >= end |
| Validation.DateRangeExamples | backend/src/middleware/validation.js:569-582 | equal dates are refused; a missing end date passes |
| Validation.FileTypeIff | backend/src/middleware/validation.js:584-596 | no file gets 400 "No file uploaded"; an empty list accepts any type; otherwise a file passes iff its type is listed |
| Validation.FileSizeIff | backend/src/middleware/validation.js:598-610 | a file passes iff its size is at most the limit, so exactly the default 10485760 passes; one byte more gets the "10MB" message |
| Validation.RateLimitIff | backend/src/middleware/validation.js:640-648 | refused with 429 iff a limit is stored and the request count exceeds it; an unset count never refuses |
| Validation.SanitizedShape | backend/src/middleware/validation.js:619-633 | an object keeps every key in place; an array becomes an object keyed "0", "1", ...; anything else, strings and null included, is unchanged |
| Validation.MemberSanitized | backend/src/middleware/validation.js:619-633 | each body field after sanitising is the cleaned or recursively sanitised value of the same field before |
| Validation.SanitizedIdempotent | backend/src/middleware/validation.js:619-633 | sanitising twice equals sanitising once when the string cleaner is idempotent; the source's trim-then-strip cleaner is not, so this holds only for such cleaners |
| Validation.ResanitizingCanChange | backend/src/middleware/validation.js:613-637 | when a second cleaning pass changes a string, a second sanitising pass changes a body holding that string, so `sanitizeInput` is not idempotent in general |
| Validation.SanitizedIdentity | backend/src/middleware/validation.js:619-633 | with a cleaner that changes nothing, an array-free value is unchanged |
| Validation.SanitizeObject | backend/src/middleware/validation.js:619-633 | the entry-by-entry copy loop computes the sanitised value |
| Validation.SanitizeInput | backend/src/middleware/validation.js:613-637 | the body is replaced by its sanitised copy and the request passes |

## Left out

- Database queries, persistence and `save`. Each lookup becomes the document
  it returns, and `updateOne` writes become field updates.
- A database error inside `protect`'s `try` is not modelled. Such errors, for
  example a malformed id, also end in "Token verification failed".
- JWT signing and verification, bcrypt, random tokens and SHA-256. These are
  foreign calls; `verify` and `passwordMatches` stand for their results.
- Logging and console output.
- Timestamps, including the ISO timestamp of the analysis response.
- `toLocaleString`.
- The `catch` branch of `analyzeSkills`, which is reachable only for
  non-string elements. The skills are strings here.
- Joi schemas, `validate`, `validatePagination`, `validateSearch` and
  `validateObjectId`. Their behaviour lives in foreign libraries.
- The regular expression of `sanitizeString`. It is the parameter `clean`.
- `logActivity`, which only logs.
- The password-hashing hooks.
- The `hasCompleteProfile` getter, which no modelled code uses.
- The `findBySkill`, `cleanupExpiredTokens` and `getUserStats` statics, which
  are database queries.
- The rounding of `totalExperience` to one decimal of years, which is floating
  point.
- `toLowerCase`: only ASCII letters are lowered. Unicode case mappings are
  not modelled.
- Profiles.MonthsBetween: the 30.44-day month is taken as exactly 2630016000 ms.
  That product is exact in double precision, so the ceiling is an exact
  integer ceiling, but millisecond dates outside the safe-integer range are not
  considered.
- Validation.ValidateFileSize: the message shows `maxSize / 1048576` as a whole
  number. A limit that is not a whole number of megabytes prints a fraction in
  JavaScript, which is not modelled.
- Validation.SanitizedIdempotent: holds only for an idempotent cleaner. The
  source's `sanitizeString` trims before it strips `<script>` blocks, so it is
  not idempotent: "<script>x</script> a" cleans to " a", and again to "a".
  `Validation.ResanitizingCanChange` states what happens in that case.
- Validation.Sanitized: treats `"__proto__"` as an ordinary key. In JavaScript,
  assigning that key sets the prototype instead, so the key is not kept.
- Validation.ValidateDateRange: a body that is not an object has no fields
  here. Properties such as a string's `length` are not modelled.
- Validation.ValidateRateLimit reads `req.requestCount`, which no modelled
  middleware sets. With only this code in place, the check never refuses.
- CareerAnalyzer.RoundedPercent: rounds the exact quotient `100 * m / n`.
  JavaScript first rounds `m / n` to a double and then multiplies by 100.
  For some lists of 40 or more path skills the two differ: for 23 of 40,
  JavaScript gives 57 and the model gives 58. Every career path has five
  skills, so the scores of this system are not affected.
- Requests.Json: an object keeps its entries in the order of the JSON text,
  a repeated key each time it occurs. `Object.entries` lists integer-like keys
  first, in ascending order, and each key once. The key order of a sanitised
  body can therefore differ from the source's, though reading a field by its
  key gives the same value.
- ClassifierExamples.UnrelatedSkillsNotExplorer: proves only two facts for
  ["unrelated","gibberish"]: the data-science count is 2, and the result is not
  the default. The exact "Technology Professional" record with score 71 would
  need the other twenty counts of these words, which are left uncomputed
  because of cost.
- Profiles.Profile.CompletionPercentage: states the score as a sum of points.
  The bound of 100 is a separate lemma (`Profiles.ScoreAtMostMax`).
