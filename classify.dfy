/**
 * The string-keyed classification rules of the booking repository: job
 * types and translator types, certification levels, the `job_for` labels,
 * validation of a new booking request, and the per-field change checks of
 * a job update.
 */
module Classify {
  import opened Wrappers
  import opened PhpValues
  import opened Domain

  const JobTypes: set<string> := {"paid", "rws", "unpaid"}
  const TranslatorTypes: set<string> := {"professional", "rwstranslator", "volunteer"}

  /** `getJobType`: the job type a new booking gets from its customer's `consumer_type`. */
  function GetJobType(consumerType: Option<string>): (jobType: string)
    ensures jobType in JobTypes
    ensures jobType == "rws" <==> consumerType == Some("rwsconsumer")
    ensures jobType == "unpaid" <==> consumerType == Some("ngo")
  {
    match consumerType
    case Some("rwsconsumer") => "rws"
    case Some("ngo") => "unpaid"
    case Some("paid") => "paid"
    case _ => "paid"
  }

  /** `determineJobTypeBasedOnTranslator`: which jobs a translator of this type may see. */
  function JobTypeForTranslator(translatorType: string): (jobType: string)
    ensures jobType in JobTypes
  {
    match translatorType
    case "professional" => "paid"
    case "rwstranslator" => "rws"
    case _ => "unpaid"
  }

  /** `getTranslatorTypeByJobType`: which translators a job of this type is offered to. */
  function TranslatorTypeForJob(jobType: string): (translatorType: string)
    ensures translatorType in TranslatorTypes
  {
    match jobType
    case "paid" => "professional"
    case "rws" => "rwstranslator"
    case "unpaid" => "volunteer"
    case _ => "professional"
  }

  /** The two maps are inverse on the three known job types and the three known translator types. */
  lemma JobTypeRoundTrip(jobType: string, translatorType: string)
    ensures jobType in JobTypes ==> JobTypeForTranslator(TranslatorTypeForJob(jobType)) == jobType
    ensures translatorType in TranslatorTypes ==> TranslatorTypeForJob(JobTypeForTranslator(translatorType)) == translatorType
  {
  }

  /** Unknown keys fall back to different defaults in the two directions. */
  lemma JobTypeDefaults(jobType: string, translatorType: string)
    ensures jobType !in JobTypes ==> TranslatorTypeForJob(jobType) == "professional"
    ensures translatorType !in TranslatorTypes ==> JobTypeForTranslator(translatorType) == "unpaid"
    ensures jobType !in JobTypes ==> JobTypeForTranslator(TranslatorTypeForJob(jobType)) == "paid"
  {
  }

  /** A volunteer is never offered a paid job, and never shown one. */
  lemma VolunteerNeverPaid()
    ensures TranslatorTypeForJob("paid") != "volunteer"
    ensures JobTypeForTranslator("volunteer") != "paid"
  {
  }

  const LevelCertified: string := "Certified"
  const LevelLaw: string := "Certified with specialisation in law"
  const LevelHealth: string := "Certified with specialisation in health care"
  const LevelLayman: string := "Layman"
  const LevelCourses: string := "Read Translation courses"
  const AllLevels: seq<string> := [LevelCertified, LevelLaw, LevelHealth, LevelLayman, LevelCourses]

  /** `getTranslatorLevelsByCertification`: the translator levels a job's `certified` column admits. */
  function LevelsForCertification(certified: Option<string>): (levels: seq<string>)
    ensures |levels| >= 1
    ensures forall l :: l in levels ==> l in AllLevels
  {
    if Truthy(certified) then
      var c := certified.value;
      if c == "yes" || c == "both" then [LevelCertified, LevelLaw, LevelHealth]
      else if c == "law" || c == "n_law" then [LevelLaw]
      else if c == "health" || c == "n_health" then [LevelHealth]
      else [LevelLayman, LevelCourses]
    else AllLevels
  }

  lemma LevelsByCase(certified: Option<string>)
    ensures !Truthy(certified) ==> LevelsForCertification(certified) == AllLevels
    ensures certified in {Some("yes"), Some("both")} ==> LevelsForCertification(certified) == [LevelCertified, LevelLaw, LevelHealth]
    ensures certified in {Some("law"), Some("n_law")} ==> LevelsForCertification(certified) == [LevelLaw]
    ensures certified in {Some("health"), Some("n_health")} ==> LevelsForCertification(certified) == [LevelHealth]
    ensures (Truthy(certified) && certified !in {Some("yes"), Some("both"), Some("law"), Some("n_law"), Some("health"), Some("n_health")})
              ==> LevelsForCertification(certified) == [LevelLayman, LevelCourses]
    ensures certified == Some("no") ==> LevelsForCertification(certified) == [LevelLayman, LevelCourses]
    ensures LevelCertified in LevelsForCertification(certified) <==> !Truthy(certified) || certified in {Some("yes"), Some("both")}
    ensures LevelLayman in LevelsForCertification(certified) ==>
              certified !in {Some("yes"), Some("both"), Some("law"), Some("n_law"), Some("health"), Some("n_health")}
  {
  }

  /** The argument list the repository hands to the external translator query (`getPotentialTranslators`). */
  datatype TranslatorQuery = TranslatorQuery(
    translatorType: string,
    languageId: int,
    gender: Option<string>,
    levels: seq<string>,
    excludedIds: seq<int>)

  /** `getPotentialTranslators`: the customer's blacklist is excluded, the rest follows the two maps above. */
  function PotentialTranslatorsQuery(job: Job, blacklist: seq<int>): (q: TranslatorQuery)
    ensures q.excludedIds == blacklist
    ensures q.languageId == job.fromLanguageId && q.gender == job.gender
    ensures job.jobType in JobTypes ==> JobTypeForTranslator(q.translatorType) == job.jobType
    ensures !Truthy(job.certified) ==> q.levels == AllLevels
    ensures job.certified in {Some("yes"), Some("both")} ==> q.levels == [LevelCertified, LevelLaw, LevelHealth]
    ensures q.levels == LevelsForCertification(job.certified)
    ensures job.jobType !in JobTypes ==> q.translatorType == "professional"
    ensures q.translatorType == TranslatorTypeForJob(job.jobType)
  {
    JobTypeRoundTrip(job.jobType, "");
    JobTypeDefaults(job.jobType, "");
    LevelsByCase(job.certified);
    TranslatorQuery(TranslatorTypeForJob(job.jobType), job.fromLanguageId, job.gender,
                    LevelsForCertification(job.certified), blacklist)
  }

  /** The fields of a new booking request that `validateJobData` and `getJobFor` read. */
  datatype BookingRequest = BookingRequest(
    immediate: Option<string>,
    dueDate: Option<string>,
    fromLanguageId: Option<string>,
    duration: Option<string>,
    jobFor: seq<string>)

  datatype Validation = Accepted | Rejected(message: string, field: string)

  const FillAllFields: string := "Du måste fylla in alla fält"

  /** `validateJobData`: the first missing required field, in the order due date, language, duration. */
  function ValidateJobData(data: BookingRequest): (v: Validation)
    ensures v.Accepted? <==>
              (data.immediate.GetOr("no") != "no" || !IsEmpty(data.dueDate))
              && !IsEmpty(data.fromLanguageId) && !IsEmpty(data.duration)
    ensures v.Rejected? ==> v.message == FillAllFields && v.field in {"due_date", "from_language_id", "duration"}
    ensures v == Rejected(FillAllFields, "due_date") <==> data.immediate.GetOr("no") == "no" && IsEmpty(data.dueDate)
    ensures v == Rejected(FillAllFields, "from_language_id") <==>
              (data.immediate.GetOr("no") != "no" || !IsEmpty(data.dueDate)) && IsEmpty(data.fromLanguageId)
    ensures v == Rejected(FillAllFields, "duration") <==>
              (data.immediate.GetOr("no") != "no" || !IsEmpty(data.dueDate)) && !IsEmpty(data.fromLanguageId) && IsEmpty(data.duration)
  {
    var immediate := data.immediate.GetOr("no");
    if immediate == "no" && IsEmpty(data.dueDate) then Rejected(FillAllFields, "due_date")
    else if IsEmpty(data.fromLanguageId) then Rejected(FillAllFields, "from_language_id")
    else if IsEmpty(data.duration) then Rejected(FillAllFields, "duration")
    else Accepted
  }

  /** Only a missing `immediate` or exactly `"no"` demands a due date; any other text (even `""`) does not. */
  lemma DueDateDemandedOnlyForNo(data: BookingRequest)
    requires data.immediate.Some? && data.immediate.value != "no"
    requires !IsEmpty(data.fromLanguageId) && !IsEmpty(data.duration)
    ensures ValidateJobData(data).Accepted?
  {
  }

  /** The label a request key for `job_for` becomes, in `getJobFor`'s fixed order. */
  const JobForKeys: seq<string> := ["male", "female", "normal", "certified"]
  const JobForLabels: seq<string> := ["Man", "Kvinna", "normal", "certified"]

  /** `getJobFor`: one label per recognised key present in the request, in fixed order. */
  function GetJobFor(keys: seq<string>): (labels: seq<string>)
    ensures |labels| <= 4
    ensures "Man" in labels <==> "male" in keys
    ensures "Kvinna" in labels <==> "female" in keys
    ensures "normal" in labels <==> "normal" in keys
    ensures "certified" in labels <==> "certified" in keys
    ensures forall l :: l in labels ==> l in JobForLabels
  {
    (if "male" in keys then ["Man"] else [])
    + (if "female" in keys then ["Kvinna"] else [])
    + (if "normal" in keys then ["normal"] else [])
    + (if "certified" in keys then ["certified"] else [])
  }

  /** The labels come out without repetition, in the order of `JobForLabels`. */
  lemma GetJobForOrdered(keys: seq<string>)
    ensures forall i, j :: 0 <= i < j < |GetJobFor(keys)| ==> IndexOf(JobForLabels, GetJobFor(keys)[i]) < IndexOf(JobForLabels, GetJobFor(keys)[j])
  {
  }

  function IndexOf(s: seq<string>, x: string): nat {
    if s == [] || s[0] == x then 0 else 1 + IndexOf(s[1..], x)
  }

  /** `getJobForArray`: the labels a stored job's gender and certification stand for. */
  function GetJobForArray(gender: Option<string>, certified: Option<string>): (labels: seq<string>)
    ensures |labels| <= 3
    ensures Truthy(gender) ==> |labels| >= 1 && labels[0] in {"Man", "Kvinna"}
    ensures Truthy(certified) ==> "certified" in labels || certified.value in labels
    ensures !Truthy(gender) && !Truthy(certified) <==> labels == []
  {
    var forGender := if Truthy(gender) then [if gender.value == "male" then "Man" else "Kvinna"] else [];
    var forCertification :=
      if !Truthy(certified) then []
      else if certified.value == "both" then ["normal", "certified"]
      else if certified.value == "yes" then ["certified"]
      else [certified.value];
    forGender + forCertification
  }

  /** The request keys that a booking with this gender and certification was created from. */
  function RequestKeys(gender: Option<string>, certified: Option<string>): seq<string> {
    (if gender == Some("male") || gender == Some("female") then [gender.value] else [])
    + (if certified == Some("both") then ["normal", "certified"] else if certified == Some("yes") then ["certified"] else [])
  }

  /**
   * For the gender and certification values the booking form produces, the
   * labels derived from a stored job agree with the labels derived from the
   * request that created it.
   */
  lemma JobForAgrees(gender: Option<string>, certified: Option<string>)
    requires gender in {None, Some("male"), Some("female")}
    requires certified in {None, Some("yes"), Some("both")}
    ensures GetJobForArray(gender, certified) == GetJobFor(RequestKeys(gender, certified))
  {
    var keys := RequestKeys(gender, certified);
    if gender == Some("male") {
      assert "female" !in keys;
    }
    if gender == Some("female") {
      assert "male" !in keys;
    }
  }

  /** `categorizeJob`: an emergency booking (`immediate == 'yes'`) goes to the first list, any other to the second. */
  method CategorizeJob(job: Job, emergency: seq<Job>, normal: seq<Job>) returns (emergency': seq<Job>, normal': seq<Job>)
    ensures job.immediate == "yes" ==> emergency' == emergency + [job] && normal' == normal
    ensures job.immediate != "yes" ==> normal' == normal + [job] && emergency' == emergency
    ensures |emergency'| + |normal'| == |emergency| + |normal| + 1
  {
    if job.immediate == "yes" {
      emergency' := emergency + [job];
      normal' := normal;
    } else {
      emergency' := emergency;
      normal' := normal + [job];
    }
  }

  datatype DueChange = DueChange(dateChanged: bool, log: Option<(int, int)>)

  /** `changeDue`: a change is reported, with both values logged, exactly when the due instant differs. */
  function ChangeDue(oldDue: int, newDue: int): (c: DueChange)
    ensures c.dateChanged <==> oldDue != newDue
    ensures c.log.Some? <==> c.dateChanged
    ensures c.log.Some? ==> c.log.value == (oldDue, newDue)
  {
    if oldDue != newDue then DueChange(true, Some((oldDue, newDue))) else DueChange(false, None)
  }

  /** `changeLanguage`: sets the new language on the working copy and reports whether it differed. */
  function ChangeLanguage(job: Job, languageId: int): (r: (bool, Job))
    ensures r.0 <==> job.fromLanguageId != languageId
    ensures r.1.fromLanguageId == languageId
    ensures r.1 == job.(fromLanguageId := languageId)
    ensures !r.0 ==> r.1 == job
  {
    (job.fromLanguageId != languageId, job.(fromLanguageId := languageId))
  }
}
