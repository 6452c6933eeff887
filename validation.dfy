/**
 * The hand-written guards of backend/src/middleware/validation.js: the
 * date-range, file-type, file-size and rate-limit checks, and the body
 * sanitiser `sanitizeInput`.
 *
 * `new Date(value)` is the parameter `parseDate` (`None` for an invalid
 * date, whose comparisons are all false), and the script-stripping string
 * cleaner is the parameter `clean`.
 */
module Validation {
  import opened Seqs
  import opened Text
  import opened Requests

  // ---------------------------------------------------------------------
  // validateDateRange
  // ---------------------------------------------------------------------

  function DateOrderMessage(startField: string, endField: string): string {
    endField + " must be after " + startField
  }

  /** `validateDateRange(startField = 'startDate', endField = 'endDate')` (validation.js:569-582) on the request body. */
  function ValidateDateRange(body: Json, parseDate: Json -> Option<int>,
                             startField: string := "startDate", endField: string := "endDate"): MiddlewareResult
  {
    var start := Member(body, startField);
    var end := Member(body, endField);
    if Truthy(start) && Truthy(end) then
      var s := parseDate(start.value);
      var e := parseDate(end.value);
      if s.Some? && e.Some? && s.value >= e.value then Err(400, DateOrderMessage(startField, endField))
      else Next
    else Next
  }

  /**
   * The body is refused exactly when both dates are present, both parse,
   * and the start is not before the end; equal dates are refused, and a
   * missing or unparsable date lets the request through.
   */
  lemma DateRangeIff(body: Json, parseDate: Json -> Option<int>, startField: string, endField: string)
    ensures var start := Member(body, startField);
      var end := Member(body, endField);
      ValidateDateRange(body, parseDate, startField, endField) != Next <==>
        && Truthy(start) && Truthy(end)
        && parseDate(start.value).Some? && parseDate(end.value).Some?
        && parseDate(start.value).value >= parseDate(end.value).value
    ensures ValidateDateRange(body, parseDate, startField, endField) != Next ==>
      ValidateDateRange(body, parseDate, startField, endField) == Err(400, DateOrderMessage(startField, endField))
  {
  }

  /** The same date under both names is refused; a body without the end date passes. */
  lemma DateRangeExamples(parseDate: Json -> Option<int>, startField: string, endField: string, date: Json)
    requires startField != endField && Truthy(Some(date)) && parseDate(date).Some?
    ensures ValidateDateRange(JObject([(startField, date), (endField, date)]), parseDate, startField, endField)
      == Err(400, DateOrderMessage(startField, endField))
    ensures ValidateDateRange(JObject([(startField, date)]), parseDate, startField, endField) == Next
  {
    var both := [(startField, date), (endField, date)];
    assert both[..1] == [(startField, date)];
    assert Lookup(both, startField) == Lookup(both[..1], startField) == Some(date);
    assert Lookup(both, endField) == Some(date);
    var one := [(startField, date)];
    assert one[..0] == [];
  }

  // ---------------------------------------------------------------------
  // validateFileType and validateFileSize
  // ---------------------------------------------------------------------

  const NoFileMessage: string := "No file uploaded"

  function FileTypeMessage(allowedTypes: seq<string>): string {
    "File type not allowed. Allowed types: " + Join(allowedTypes, ", ")
  }

  /** `validateFileType(allowedTypes = [])` (validation.js:584-596). */
  function ValidateFileType(file: Option<UploadedFile>, allowedTypes: seq<string> := []): MiddlewareResult {
    if file.None? then Err(400, NoFileMessage)
    else if |allowedTypes| > 0 && file.value.mimetype !in allowedTypes then Err(400, FileTypeMessage(allowedTypes))
    else Next
  }

  /**
   * Without a file the answer is 400 "No file uploaded"; an empty list
   * accepts every type; otherwise a file passes exactly when its type is
   * listed.
   */
  lemma FileTypeIff(file: Option<UploadedFile>, allowedTypes: seq<string>)
    ensures file.None? ==> ValidateFileType(file, allowedTypes) == Err(400, NoFileMessage)
    ensures file.Some? && |allowedTypes| == 0 ==> ValidateFileType(file, allowedTypes) == Next
    ensures file.Some? && |allowedTypes| > 0 ==> (ValidateFileType(file, allowedTypes) == Next <==> file.value.mimetype in allowedTypes)
  {
  }

  /** `1048576` bytes: one megabyte. */
  const Megabyte: nat := 1048576

  /** `10485760` bytes: the default limit of ten megabytes. */
  const DefaultMaxSize: nat := 10485760

  /** The message of an oversized file, with the limit in whole megabytes. */
  function FileSizeMessage(maxSize: nat): string {
    "File size too large. Maximum size: " + NatToString(maxSize / Megabyte) + "MB"
  }

  /** `validateFileSize(maxSize = 10485760)` (validation.js:598-610). */
  function ValidateFileSize(file: Option<UploadedFile>, maxSize: nat := DefaultMaxSize): MiddlewareResult {
    if file.None? then Err(400, NoFileMessage)
    else if file.value.size > maxSize then Err(400, FileSizeMessage(maxSize))
    else Next
  }

  /**
   * A file passes exactly when it is no larger than the limit, so a file of
   * exactly the limit passes; the default limit is ten megabytes and its
   * message says "10MB".
   */
  lemma FileSizeIff(file: Option<UploadedFile>, maxSize: nat)
    ensures ValidateFileSize(file, maxSize) == Next <==> file.Some? && file.value.size <= maxSize
    ensures file.None? ==> ValidateFileSize(file, maxSize) == Err(400, NoFileMessage)
    ensures ValidateFileSize(Some(UploadedFile("", DefaultMaxSize))) == Next
    ensures ValidateFileSize(Some(UploadedFile("", DefaultMaxSize + 1))) == Err(400, "File size too large. Maximum size: 10MB")
  {
    assert DefaultMaxSize / Megabyte == 10;
    assert NatToString(10) == "10";
  }

  // ---------------------------------------------------------------------
  // validateRateLimit
  // ---------------------------------------------------------------------

  function RateLimitMessage(info: RateLimit): string {
    "Rate limit exceeded. Maximum " + NatToString(info.limit) + " requests per hour for " + info.userPlan + " plan."
  }

  /**
   * `validateRateLimit` (validation.js:640-648): compares `req.requestCount`
   * (`None` when unset, and `undefined > limit` is false) with the stored
   * limit.
   */
  function ValidateRateLimit(rateLimit: Option<RateLimit>, requestCount: Option<int>): MiddlewareResult {
    if rateLimit.Some? && requestCount.Some? && requestCount.value > rateLimit.value.limit then
      Err(429, RateLimitMessage(rateLimit.value))
    else Next
  }

  /**
   * The request is refused, with 429, exactly when a limit is stored and a
   * count above it is present; with no stored limit or no count it passes,
   * and a count equal to the limit passes.
   */
  lemma RateLimitIff(rateLimit: Option<RateLimit>, requestCount: Option<int>)
    ensures ValidateRateLimit(rateLimit, requestCount) != Next <==>
      rateLimit.Some? && requestCount.Some? && requestCount.value > rateLimit.value.limit
    ensures ValidateRateLimit(rateLimit, requestCount) != Next ==> ValidateRateLimit(rateLimit, requestCount).status == 429
    ensures rateLimit.Some? ==> ValidateRateLimit(rateLimit, Some(rateLimit.value.limit)) == Next
    ensures ValidateRateLimit(rateLimit, None) == Next
  {
  }

  // ---------------------------------------------------------------------
  // sanitizeInput
  // ---------------------------------------------------------------------

  /**
   * What `sanitizeObject` (validation.js:619-633) returns: an object or an
   * array becomes a plain object with the same keys in the same order
   * (an array's keys are its indices), each value treated by `Cleaned`;
   * anything else, a string included, comes back as it is.
   */
  function Sanitized(v: Json, clean: string -> string): (r: Json)
    decreases v, 0
  {
    match v
    case JObject(entries) =>
      JObject(seq(|entries|, i requires 0 <= i < |entries| => (entries[i].0, Cleaned(entries[i].1, clean))))
    case JArray(items) =>
      JObject(seq(|items|, i requires 0 <= i < |items| => (NatToString(i), Cleaned(items[i], clean))))
    case _ => v
  }

  /** The loop body's treatment of one value: strings are cleaned, objects (null and arrays included) sanitised, the rest kept. */
  function Cleaned(value: Json, clean: string -> string): Json
    decreases value, 1
  {
    match value
    case JString(s) => JString(clean(s))
    case JBool(_) => value
    case JNumber(_) => value
    case _ => Sanitized(value, clean)
  }

  /** The keys of an object's entries, in order. */
  function Keys(entries: seq<(string, Json)>): (r: seq<string>)
    ensures |r| == |entries|
  {
    seq(|entries|, i requires 0 <= i < |entries| => entries[i].0)
  }

  /**
   * Sanitising keeps every key of an object in its place and turns an
   * array into an object keyed by the indices "0", "1", ...; every other
   * value, null and strings included, is returned unchanged.
   */
  lemma SanitizedShape(v: Json, clean: string -> string)
    ensures v.JObject? ==> Sanitized(v, clean).JObject? && Keys(Sanitized(v, clean).entries) == Keys(v.entries)
    ensures v.JArray? ==> Sanitized(v, clean).JObject? && Keys(Sanitized(v, clean).entries) == seq(|v.items|, i requires 0 <= i < |v.items| => NatToString(i))
    ensures !v.JObject? && !v.JArray? ==> Sanitized(v, clean) == v
  {
  }

  /** Looking a key up in the sanitised entries gives the treated value of the original lookup. */
  lemma {:induction false} LookupSanitized(entries: seq<(string, Json)>, key: string, clean: string -> string)
    ensures var out := seq(|entries|, i requires 0 <= i < |entries| => (entries[i].0, Cleaned(entries[i].1, clean)));
      && (Lookup(entries, key).None? ==> Lookup(out, key).None?)
      && (Lookup(entries, key).Some? ==> Lookup(out, key) == Some(Cleaned(Lookup(entries, key).value, clean)))
  {
    var out := seq(|entries|, i requires 0 <= i < |entries| => (entries[i].0, Cleaned(entries[i].1, clean)));
    if |entries| > 0 {
      var front := entries[..|entries| - 1];
      LookupSanitized(front, key, clean);
      assert out[..|out| - 1] == seq(|front|, i requires 0 <= i < |front| => (front[i].0, Cleaned(front[i].1, clean)));
    }
  }

  /** `req.body.field` after sanitising is the treated value of `req.body.field` before. */
  lemma MemberSanitized(body: Json, key: string, clean: string -> string)
    requires body.JObject?
    ensures Member(body, key).None? ==> Member(Sanitized(body, clean), key).None?
    ensures Member(body, key).Some? ==> Member(Sanitized(body, clean), key) == Some(Cleaned(Member(body, key).value, clean))
  {
    LookupSanitized(body.entries, key, clean);
  }

  /**
   * With an idempotent cleaner, sanitising twice is the same as sanitising
   * once. The source's `sanitizeString` trims before it strips script
   * blocks, so it is not idempotent ("<script>x</script> a" cleans to " a",
   * and again to "a"); for such a cleaner `ResanitizingCanChange` applies.
   */
  lemma {:induction false} SanitizedIdempotent(v: Json, clean: string -> string)
    requires forall s :: clean(clean(s)) == clean(s)
    ensures Sanitized(Sanitized(v, clean), clean) == Sanitized(v, clean)
    decreases v, 0
  {
    match v
    case JObject(entries) =>
      forall i | 0 <= i < |entries|
        ensures Cleaned(Cleaned(entries[i].1, clean), clean) == Cleaned(entries[i].1, clean)
      {
        CleanedIdempotent(entries[i].1, clean);
      }
    case JArray(items) =>
      forall i | 0 <= i < |items|
        ensures Cleaned(Cleaned(items[i], clean), clean) == Cleaned(items[i], clean)
      {
        CleanedIdempotent(items[i], clean);
      }
    case _ =>
  }

  /** A cleaner that a second pass changes makes a second sanitising pass change the body. */
  lemma ResanitizingCanChange(key: string, s: string, clean: string -> string)
    requires clean(clean(s)) != clean(s)
    ensures var body := JObject([(key, JString(s))]);
      Sanitized(Sanitized(body, clean), clean) != Sanitized(body, clean)
  {
    var body := JObject([(key, JString(s))]);
    var once := JObject([(key, JString(clean(s)))]);
    var twice := JObject([(key, JString(clean(clean(s))))]);
    assert Sanitized(body, clean) == once;
    assert Sanitized(once, clean) == twice;
    assert twice.entries[0].1 != once.entries[0].1;
  }

  lemma {:induction false} CleanedIdempotent(value: Json, clean: string -> string)
    requires forall s :: clean(clean(s)) == clean(s)
    ensures Cleaned(Cleaned(value, clean), clean) == Cleaned(value, clean)
    decreases value, 1
  {
    match value
    case JString(s) =>
    case JBool(_) =>
    case JNumber(_) =>
    case _ =>
      SanitizedIdempotent(value, clean);
  }

  /** A value with no array anywhere inside it. */
  predicate ArrayFree(v: Json)
    decreases v
  {
    match v
    case JArray(_) => false
    case JObject(entries) => forall i :: 0 <= i < |entries| ==> ArrayFree(entries[i].1)
    case _ => true
  }

  /**
   * With a cleaner that changes no string, an array-free value comes back
   * unchanged: apart from cleaning strings, turning arrays into objects is
   * the only change sanitising makes.
   */
  lemma {:induction false} SanitizedIdentity(v: Json, clean: string -> string)
    requires forall s :: clean(s) == s
    requires ArrayFree(v)
    ensures Sanitized(v, clean) == v
    decreases v
  {
    match v
    case JObject(entries) =>
      forall i | 0 <= i < |entries|
        ensures Cleaned(entries[i].1, clean) == entries[i].1
      {
        var x := entries[i].1;
        if x.JObject? || x.JNull? {
          SanitizedIdentity(x, clean);
        }
      }
      assert seq(|entries|, i requires 0 <= i < |entries| => (entries[i].0, Cleaned(entries[i].1, clean))) == entries;
    case _ =>
  }

  /**
   * `sanitizeObject`: non-objects are returned at once; an object or array
   * is copied entry by entry into a fresh object, cleaning strings and
   * recursing into nested objects.
   */
  method SanitizeObject(v: Json, clean: string -> string) returns (r: Json)
    ensures r == Sanitized(v, clean)
    decreases v
  {
    if !v.JObject? && !v.JArray? {
      return v;
    }
    var n := if v.JObject? then |v.entries| else |v.items|;
    var sanitized: seq<(string, Json)> := [];
    for i := 0 to n
      invariant |sanitized| == i
      invariant v.JObject? ==> forall k :: 0 <= k < i ==> sanitized[k] == (v.entries[k].0, Cleaned(v.entries[k].1, clean))
      invariant v.JArray? ==> forall k :: 0 <= k < i ==> sanitized[k] == (NatToString(k), Cleaned(v.items[k], clean))
    {
      var key := if v.JObject? then v.entries[i].0 else NatToString(i);
      var value := if v.JObject? then v.entries[i].1 else v.items[i];
      var treated;
      if value.JString? {
        treated := JString(clean(value.s));
      } else if value.JBool? || value.JNumber? {
        treated := value;
      } else {
        treated := SanitizeObject(value, clean);
      }
      sanitized := sanitized + [(key, treated)];
    }
    r := JObject(sanitized);
  }

  /** `sanitizeInput` (validation.js:613-637): replaces the body by its sanitised copy and passes. */
  method SanitizeInput(req: Request, clean: string -> string) returns (r: MiddlewareResult)
    modifies req`body
    ensures r == Next
    ensures req.body == Sanitized(old(req.body), clean)
  {
    req.body := SanitizeObject(req.body, clean);
    r := Next;
  }
}
