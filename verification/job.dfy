/** The Job document schema (models/job.ts): three required text paths that
    are not trimmed, three closed value sets with defaults, text paths that
    default to `""`, and the two dates. */
module JobModel {
  import opened Base
  import opened Schema

  datatype JobStatus =
    | Applied | HrScreening | InterviewScheduled | TechnicalRound | ManagerialRound
    | Offered | Rejected | Ghosted | Accepted | Joined | Withdrawn
  {
    function Name(): string {
      match this
      case Applied => "Applied"
      case HrScreening => "HR Screening"
      case InterviewScheduled => "Interview Scheduled"
      case TechnicalRound => "Technical Round"
      case ManagerialRound => "Managerial Round"
      case Offered => "Offered"
      case Rejected => "Rejected"
      case Ghosted => "Ghosted"
      case Accepted => "Accepted"
      case Joined => "Joined"
      case Withdrawn => "Withdrawn"
    }
  }

  datatype JobType = FullTime | Internship | PartTime | Contract | Remote {
    function Name(): string {
      match this
      case FullTime => "Full-time"
      case Internship => "Internship"
      case PartTime => "Part-time"
      case Contract => "Contract"
      case Remote => "Remote"
    }
  }

  datatype ApplicationSource = Campus | Referral | LinkedIn | Indeed | CompanyWebsite | HrEmail | OtherSource {
    function Name(): string {
      match this
      case Campus => "Campus"
      case Referral => "Referral"
      case LinkedIn => "LinkedIn"
      case Indeed => "Indeed"
      case CompanyWebsite => "Company Website"
      case HrEmail => "HR Email"
      case OtherSource => "Other"
    }
  }

  /** The schema's `enum` check for `status`: exactly the eleven literals. */
  function ParseJobStatus(s: string): (r: Option<JobStatus>)
    ensures r.Some? ==> r.value.Name() == s
  {
    if s == "Applied" then Some(Applied)
    else if s == "HR Screening" then Some(HrScreening)
    else if s == "Interview Scheduled" then Some(InterviewScheduled)
    else if s == "Technical Round" then Some(TechnicalRound)
    else if s == "Managerial Round" then Some(ManagerialRound)
    else if s == "Offered" then Some(Offered)
    else if s == "Rejected" then Some(Rejected)
    else if s == "Ghosted" then Some(Ghosted)
    else if s == "Accepted" then Some(Accepted)
    else if s == "Joined" then Some(Joined)
    else if s == "Withdrawn" then Some(Withdrawn)
    else None
  }

  function ParseJobType(s: string): (r: Option<JobType>)
    ensures r.Some? ==> r.value.Name() == s
  {
    if s == "Full-time" then Some(FullTime)
    else if s == "Internship" then Some(Internship)
    else if s == "Part-time" then Some(PartTime)
    else if s == "Contract" then Some(Contract)
    else if s == "Remote" then Some(Remote)
    else None
  }

  function ParseApplicationSource(s: string): (r: Option<ApplicationSource>)
    ensures r.Some? ==> r.value.Name() == s
  {
    if s == "Campus" then Some(Campus)
    else if s == "Referral" then Some(Referral)
    else if s == "LinkedIn" then Some(LinkedIn)
    else if s == "Indeed" then Some(Indeed)
    else if s == "Company Website" then Some(CompanyWebsite)
    else if s == "HR Email" then Some(HrEmail)
    else if s == "Other" then Some(OtherSource)
    else None
  }

  /** Each literal parses back to the value it names: the parsers are exactly
      the inverses of `Name`. */
  lemma NamesParse(s: JobStatus, t: JobType, a: ApplicationSource)
    ensures ParseJobStatus(s.Name()) == Some(s)
    ensures ParseJobType(t.Name()) == Some(t)
    ensures ParseApplicationSource(a.Name()) == Some(a)
  {
  }

  predicate IsJobStatus(s: string) { ParseJobStatus(s).Some? }
  predicate IsJobType(s: string) { ParseJobType(s).Some? }
  predicate IsApplicationSource(s: string) { ParseApplicationSource(s).Some? }

  /** A stored Job document. */
  datatype Job = Job(
    id: Id,
    userEmail: string,
    company: string,
    position: string,
    applicationDate: Time,
    status: JobStatus,
    salary: string,
    jobType: JobType,
    jobLocation: string,
    reference: string,
    website: string,
    applicationSource: ApplicationSource,
    notes: string,
    resumeVersion: string,
    followUpDate: Option<Time>,
    createdAt: Time,
    updatedAt: Time)

  /** The caller's payload, every path possibly absent. The model carries no
      `createdAt`/`updatedAt` paths: the timestamps always come from the clock. */
  datatype JobInput = JobInput(
    userEmail: Option<string>,
    company: Option<string>,
    position: Option<string>,
    applicationDate: Option<Time>,
    status: Option<string>,
    salary: Option<string>,
    jobType: Option<string>,
    jobLocation: Option<string>,
    reference: Option<string>,
    website: Option<string>,
    applicationSource: Option<string>,
    notes: Option<string>,
    resumeVersion: Option<string>,
    followUpDate: Option<Time>)

  /** Every failed path of a payload, in schema order. */
  function JobIssues(input: JobInput): seq<Issue> {
    RequiredIssues("userEmail", input.userEmail)
    + RequiredIssues("company", input.company)
    + RequiredIssues("position", input.position)
    + EnumIssues("status", input.status, IsJobStatus)
    + EnumIssues("jobType", input.jobType, IsJobType)
    + EnumIssues("applicationSource", input.applicationSource, IsApplicationSource)
  }

  /** When the schema accepts a payload, path by path. */
  predicate Acceptable(input: JobInput) {
    && Truthy(input.userEmail) && Truthy(input.company) && Truthy(input.position)
    && (input.status.Some? ==> IsJobStatus(input.status.value))
    && (input.jobType.Some? ==> IsJobType(input.jobType.value))
    && (input.applicationSource.Some? ==> IsApplicationSource(input.applicationSource.value))
  }

  lemma IssuesIffUnacceptable(input: JobInput)
    ensures JobIssues(input) == [] <==> Acceptable(input)
  {
  }

  function StatusOf(v: Option<string>): (r: JobStatus)
    requires v.Some? ==> IsJobStatus(v.value)
    ensures NameOrDefault(v, r.Name(), "Applied")
  {
    if v.Some? then ParseJobStatus(v.value).value else Applied
  }

  function JobTypeOf(v: Option<string>): (r: JobType)
    requires v.Some? ==> IsJobType(v.value)
    ensures NameOrDefault(v, r.Name(), "Full-time")
  {
    if v.Some? then ParseJobType(v.value).value else FullTime
  }

  function SourceOf(v: Option<string>): (r: ApplicationSource)
    requires v.Some? ==> IsApplicationSource(v.value)
    ensures NameOrDefault(v, r.Name(), "Company Website")
  {
    if v.Some? then ParseApplicationSource(v.value).value else CompanyWebsite
  }

  /** The stored form of every path. `now` is both the `Date.now` default of
      `applicationDate` and the timestamp. */
  function Build(input: JobInput, id: Id, now: Time): Job
    requires Acceptable(input)
  {
    Job(
      id,
      input.userEmail.value,
      input.company.value,
      input.position.value,
      input.applicationDate.GetOr(now),
      StatusOf(input.status),
      input.salary.GetOr(""),
      JobTypeOf(input.jobType),
      input.jobLocation.GetOr(""),
      input.reference.GetOr(""),
      input.website.GetOr(""),
      SourceOf(input.applicationSource),
      input.notes.GetOr(""),
      input.resumeVersion.GetOr(""),
      input.followUpDate,
      now,
      now)
  }

  /** What every stored Job satisfies: the three required paths are non-empty. */
  predicate Conforms(j: Job) {
    j.userEmail != "" && j.company != "" && j.position != ""
  }

  /** How a stored Job relates to its payload: the required paths verbatim,
      each sent value or else its default, and the clock for the timestamps. */
  predicate StoresPayload(input: JobInput, j: Job, id: Id, now: Time)
    requires input.userEmail.Some? && input.company.Some? && input.position.Some?
  {
    StoresScalars(input, j, id, now) && StoresEnums(input, j)
  }

  predicate StoresScalars(input: JobInput, j: Job, id: Id, now: Time)
    requires input.userEmail.Some? && input.company.Some? && input.position.Some?
  {
    && j.id == id && j.createdAt == now && j.updatedAt == now
    && j.userEmail == input.userEmail.value
    && j.company == input.company.value
    && j.position == input.position.value
    && j.applicationDate == (if input.applicationDate.Some? then input.applicationDate.value else now)
    && j.followUpDate == input.followUpDate
    && TextOrEmpty(input.salary, j.salary)
    && TextOrEmpty(input.jobLocation, j.jobLocation)
    && TextOrEmpty(input.reference, j.reference)
    && TextOrEmpty(input.website, j.website)
    && TextOrEmpty(input.notes, j.notes)
    && TextOrEmpty(input.resumeVersion, j.resumeVersion)
  }

  predicate StoresEnums(input: JobInput, j: Job) {
    && NameOrDefault(input.status, j.status.Name(), "Applied")
    && NameOrDefault(input.jobType, j.jobType.Name(), "Full-time")
    && NameOrDefault(input.applicationSource, j.applicationSource.Name(), "Company Website")
  }

  lemma BuildStores(input: JobInput, id: Id, now: Time)
    requires Acceptable(input)
    ensures StoresPayload(input, Build(input, id, now), id, now)
  {
    var j := Build(input, id, now);
    assert j.status == StatusOf(input.status);
    assert j.jobType == JobTypeOf(input.jobType);
    assert j.applicationSource == SourceOf(input.applicationSource);
  }

  /** `Job.create(payload)`'s document validation: accepted exactly when the
      payload is `Acceptable`, and then the stored Job conforms and
      `StoresPayload`; otherwise at least one failed path is reported. */
  function ValidateJob(input: JobInput, id: Id, now: Time): (r: Result<Job, seq<Issue>>)
    ensures r.Ok? <==> Acceptable(input)
    ensures r.Err? ==> |r.error| > 0
    ensures r.Ok? ==> Conforms(r.value) && StoresPayload(input, r.value, id, now)
  {
    IssuesIffUnacceptable(input);
    if JobIssues(input) == [] then
      BuildStores(input, id, now);
      Ok(Build(input, id, now))
    else
      Err(JobIssues(input))
  }

  /** Required is not trimmed: a whitespace-only `company` or `position` is
      accepted and stored exactly as sent. */
  lemma BlankCompanyAccepted(input: JobInput, id: Id, now: Time)
    requires Acceptable(input)
    ensures ValidateJob(input.(company := Some(" "), position := Some("\t")), id, now).Ok?
    ensures ValidateJob(input.(company := Some(" "), position := Some("\t")), id, now).value.company == " "
    ensures ValidateJob(input.(company := Some(" "), position := Some("\t")), id, now).value.position == "\t"
  {
    var blank := input.(company := Some(" "), position := Some("\t"));
    assert Acceptable(blank);
  }

  /** The payload that sends every path of a stored Job back as it is stored. */
  function ToInput(j: Job): JobInput {
    JobInput(
      Some(j.userEmail), Some(j.company), Some(j.position), Some(j.applicationDate),
      Some(j.status.Name()), Some(j.salary), Some(j.jobType.Name()), Some(j.jobLocation),
      Some(j.reference), Some(j.website), Some(j.applicationSource.Name()), Some(j.notes),
      Some(j.resumeVersion), j.followUpDate)
  }

  /** The schema is a fixpoint on what it stores: re-validating a conforming
      Job at its own id and creation time accepts it unchanged. */
  lemma Revalidate(j: Job)
    requires Conforms(j) && j.updatedAt == j.createdAt
    ensures ValidateJob(ToInput(j), j.id, j.createdAt) == Ok(j)
  {
    var input := ToInput(j);
    NamesParse(j.status, j.jobType, j.applicationSource);
    assert Acceptable(input);
    var d := Build(input, j.id, j.createdAt);
    assert d.status == j.status;
    assert d.jobType == j.jobType;
    assert d.applicationSource == j.applicationSource;
  }

  /** A payload with only the three required paths gets every default. */
  lemma MinimalPayloadDefaults(owner: string, company: string, position: string, id: Id, now: Time)
    requires owner != "" && company != "" && position != ""
    ensures
      var input := JobInput(Some(owner), Some(company), Some(position), None, None, None, None,
                            None, None, None, None, None, None, None);
      var r := ValidateJob(input, id, now);
      && r.Ok?
      && r.value.applicationDate == now && r.value.followUpDate == None
      && r.value.status == Applied && r.value.jobType == FullTime
      && r.value.applicationSource == CompanyWebsite
      && r.value.salary == "" && r.value.jobLocation == "" && r.value.reference == ""
      && r.value.website == "" && r.value.notes == "" && r.value.resumeVersion == ""
  {
  }
}
