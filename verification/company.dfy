/** The Company document schema (models/company.ts): its closed value sets,
    the embedded Lead shape, and validation of a raw payload into a stored
    Company with every default applied. */
module CompanyModel {
  import opened Base
  import opened Text
  import opened Schema

  datatype CompanySize = Startup | Sme | MidSize | Enterprise | Unsized {
    function Name(): string {
      match this
      case Startup => "Startup"
      case Sme => "SME"
      case MidSize => "Mid-size"
      case Enterprise => "Enterprise"
      case Unsized => ""
    }
  }

  datatype HiringStatus = Hiring | NotHiring | UnknownHiring {
    function Name(): string {
      match this
      case Hiring => "Hiring"
      case NotHiring => "Not Hiring"
      case UnknownHiring => "Unknown"
    }
  }

  datatype Platform = LinkedIn | Indeed | Glassdoor | CompanyWebsite | AngelList | Naukri | OtherPlatform {
    function Name(): string {
      match this
      case LinkedIn => "LinkedIn"
      case Indeed => "Indeed"
      case Glassdoor => "Glassdoor"
      case CompanyWebsite => "Company Website"
      case AngelList => "AngelList"
      case Naukri => "Naukri"
      case OtherPlatform => "Other"
    }
  }

  datatype ContactType = Hr | Recruiter | Employee | Founder | Referral {
    function Name(): string {
      match this
      case Hr => "HR"
      case Recruiter => "Recruiter"
      case Employee => "Employee"
      case Founder => "Founder"
      case Referral => "Referral"
    }
  }

  datatype Priority = Low | Medium | High | Dream {
    function Name(): string {
      match this
      case Low => "Low"
      case Medium => "Medium"
      case High => "High"
      case Dream => "Dream"
    }
  }

  datatype CompanyStatus = Interested | Applied | InProgress | Rejected | OfferReceived {
    function Name(): string {
      match this
      case Interested => "Interested"
      case Applied => "Applied"
      case InProgress => "In Progress"
      case Rejected => "Rejected"
      case OfferReceived => "Offer Received"
    }
  }

  /** The schema's `enum` check for `companySize`: exactly the five literals, `""` included. */
  function ParseCompanySize(s: string): (r: Option<CompanySize>)
    ensures r.Some? ==> r.value.Name() == s
  {
    if s == "Startup" then Some(Startup)
    else if s == "SME" then Some(Sme)
    else if s == "Mid-size" then Some(MidSize)
    else if s == "Enterprise" then Some(Enterprise)
    else if s == "" then Some(Unsized)
    else None
  }

  function ParseHiringStatus(s: string): (r: Option<HiringStatus>)
    ensures r.Some? ==> r.value.Name() == s
  {
    if s == "Hiring" then Some(Hiring)
    else if s == "Not Hiring" then Some(NotHiring)
    else if s == "Unknown" then Some(UnknownHiring)
    else None
  }

  function ParsePlatform(s: string): (r: Option<Platform>)
    ensures r.Some? ==> r.value.Name() == s
  {
    if s == "LinkedIn" then Some(LinkedIn)
    else if s == "Indeed" then Some(Indeed)
    else if s == "Glassdoor" then Some(Glassdoor)
    else if s == "Company Website" then Some(CompanyWebsite)
    else if s == "AngelList" then Some(AngelList)
    else if s == "Naukri" then Some(Naukri)
    else if s == "Other" then Some(OtherPlatform)
    else None
  }

  function ParseContactType(s: string): (r: Option<ContactType>)
    ensures r.Some? ==> r.value.Name() == s
  {
    if s == "HR" then Some(Hr)
    else if s == "Recruiter" then Some(Recruiter)
    else if s == "Employee" then Some(Employee)
    else if s == "Founder" then Some(Founder)
    else if s == "Referral" then Some(Referral)
    else None
  }

  function ParsePriority(s: string): (r: Option<Priority>)
    ensures r.Some? ==> r.value.Name() == s
  {
    if s == "Low" then Some(Low)
    else if s == "Medium" then Some(Medium)
    else if s == "High" then Some(High)
    else if s == "Dream" then Some(Dream)
    else None
  }

  function ParseCompanyStatus(s: string): (r: Option<CompanyStatus>)
    ensures r.Some? ==> r.value.Name() == s
  {
    if s == "Interested" then Some(Interested)
    else if s == "Applied" then Some(Applied)
    else if s == "In Progress" then Some(InProgress)
    else if s == "Rejected" then Some(Rejected)
    else if s == "Offer Received" then Some(OfferReceived)
    else None
  }

  /** Each value set's literals parse back to the value they name, so a
      parser is exactly the inverse of `Name` and accepts nothing else. */
  lemma NamesParse(a: CompanySize, b: HiringStatus, p: Platform, t: ContactType, q: Priority, s: CompanyStatus)
    ensures ParseCompanySize(a.Name()) == Some(a)
    ensures ParseHiringStatus(b.Name()) == Some(b)
    ensures ParsePlatform(p.Name()) == Some(p)
    ensures ParseContactType(t.Name()) == Some(t)
    ensures ParsePriority(q.Name()) == Some(q)
    ensures ParseCompanyStatus(s.Name()) == Some(s)
  {
  }

  /** A contact person embedded in a Company. No field is required and none has a default. */
  datatype Lead = Lead(
    name: Option<string>,
    role: Option<string>,
    email: Option<string>,
    linkedin: Option<string>,
    contactType: Option<ContactType>,
    lastContactedAt: Option<Time>,
    notes: Option<string>)

  /** A stored Company document. */
  datatype Company = Company(
    id: Id,
    userEmail: string,
    companyName: string,
    website: string,
    careersPage: string,
    industry: string,
    companySize: CompanySize,
    headquarters: string,
    hiringStatus: HiringStatus,
    jobOpeningsAvailable: bool,
    activePlatforms: seq<Platform>,
    preferredJobRoles: seq<string>,
    leads: seq<Lead>,
    lastInteractionDate: Option<Time>,
    priority: Priority,
    tags: seq<string>,
    notes: string,
    bookmarked: bool,
    status: CompanyStatus,
    createdAt: Time,
    updatedAt: Time)

  /** A lead as the caller sends it; `contactType` is still raw text. */
  datatype LeadInput = LeadInput(
    name: Option<string>,
    role: Option<string>,
    email: Option<string>,
    linkedin: Option<string>,
    contactType: Option<string>,
    lastContactedAt: Option<Time>,
    notes: Option<string>)

  /** The caller's payload: every schema path, each possibly absent. The model
      carries no `createdAt`/`updatedAt` paths: the timestamps always come from
      the clock. */
  datatype CompanyInput = CompanyInput(
    userEmail: Option<string>,
    companyName: Option<string>,
    website: Option<string>,
    careersPage: Option<string>,
    industry: Option<string>,
    companySize: Option<string>,
    headquarters: Option<string>,
    hiringStatus: Option<string>,
    jobOpeningsAvailable: Option<bool>,
    activePlatforms: Option<seq<string>>,
    preferredJobRoles: Option<seq<string>>,
    leads: Option<seq<LeadInput>>,
    lastInteractionDate: Option<Time>,
    priority: Option<string>,
    tags: Option<seq<string>>,
    notes: Option<string>,
    bookmarked: Option<bool>,
    status: Option<string>)

  /** The contact types the caller sent, one per lead that has one. */
  function SentContactTypes(leads: seq<LeadInput>): (r: seq<string>)
    ensures forall i :: 0 <= i < |leads| && leads[i].contactType.Some? ==> leads[i].contactType.value in r
    ensures forall t :: t in r ==> exists i :: 0 <= i < |leads| && leads[i].contactType == Some(t)
  {
    if |leads| == 0 then []
    else
      var rest := SentContactTypes(leads[1..]);
      assert forall t :: t in rest ==> exists i :: 1 <= i < |leads| && leads[i].contactType == Some(t) by {
        forall t | t in rest
          ensures exists i :: 1 <= i < |leads| && leads[i].contactType == Some(t)
        {
          var j :| 0 <= j < |leads[1..]| && leads[1..][j].contactType == Some(t);
          assert leads[j + 1].contactType == Some(t);
        }
      }
      (if leads[0].contactType.Some? then [leads[0].contactType.value] else []) + rest
  }

  predicate IsCompanySize(s: string) { ParseCompanySize(s).Some? }
  predicate IsHiringStatus(s: string) { ParseHiringStatus(s).Some? }
  predicate IsPlatform(s: string) { ParsePlatform(s).Some? }
  predicate IsContactType(s: string) { ParseContactType(s).Some? }
  predicate IsPriority(s: string) { ParsePriority(s).Some? }
  predicate IsCompanyStatus(s: string) { ParseCompanyStatus(s).Some? }

  /** Every failed path of a payload, in schema order. `companyName` is trimmed
      before its required check, as the schema's `trim` setter runs on assignment. */
  function CompanyIssues(input: CompanyInput): seq<Issue> {
    RequiredIssues("userEmail", input.userEmail)
    + RequiredIssues("companyName", if input.companyName.Some? then Some(Trim(input.companyName.value)) else None)
    + EnumIssues("companySize", input.companySize, IsCompanySize)
    + EnumIssues("hiringStatus", input.hiringStatus, IsHiringStatus)
    + EachEnumIssues("activePlatforms", input.activePlatforms.GetOr([]), IsPlatform)
    + EachEnumIssues("leads.contactType", SentContactTypes(input.leads.GetOr([])), IsContactType)
    + EnumIssues("priority", input.priority, IsPriority)
    + EnumIssues("status", input.status, IsCompanyStatus)
  }

  /** When the schema accepts a payload, stated path by path. */
  predicate Acceptable(input: CompanyInput) {
    && Truthy(input.userEmail)
    && input.companyName.Some? && !AllSpace(input.companyName.value)
    && (input.companySize.Some? ==> IsCompanySize(input.companySize.value))
    && (input.hiringStatus.Some? ==> IsHiringStatus(input.hiringStatus.value))
    && (input.activePlatforms.Some? ==>
          forall i :: 0 <= i < |input.activePlatforms.value| ==> IsPlatform(input.activePlatforms.value[i]))
    && (input.leads.Some? ==>
          forall i :: 0 <= i < |input.leads.value| && input.leads.value[i].contactType.Some?
            ==> IsContactType(input.leads.value[i].contactType.value))
    && (input.priority.Some? ==> IsPriority(input.priority.value))
    && (input.status.Some? ==> IsCompanyStatus(input.status.value))
  }

  lemma IssuesIffUnacceptable(input: CompanyInput)
    ensures CompanyIssues(input) == [] <==> Acceptable(input)
  {
    SentContactTypesAllowed(input.leads.GetOr([]));
  }

  /** Checking the collected contact types is checking every lead that has one. */
  lemma SentContactTypesAllowed(leads: seq<LeadInput>)
    ensures (forall k :: 0 <= k < |SentContactTypes(leads)| ==> IsContactType(SentContactTypes(leads)[k]))
        <==> (forall i :: 0 <= i < |leads| && leads[i].contactType.Some? ==> IsContactType(leads[i].contactType.value))
  {
    var sent := SentContactTypes(leads);
    if forall k :: 0 <= k < |sent| ==> IsContactType(sent[k]) {
      forall i | 0 <= i < |leads| && leads[i].contactType.Some?
        ensures IsContactType(leads[i].contactType.value)
      {
        assert leads[i].contactType.value in sent;
      }
    }
    if forall i :: 0 <= i < |leads| && leads[i].contactType.Some? ==> IsContactType(leads[i].contactType.value) {
      forall k | 0 <= k < |sent|
        ensures IsContactType(sent[k])
      {
        assert sent[k] in sent;
        var i :| 0 <= i < |leads| && leads[i].contactType == Some(sent[k]);
      }
    }
  }

  /** A stored lead keeps every sub-path as sent: the free-text fields and the
      date unchanged, and the contact type present exactly when sent, under
      the name it was sent as. */
  predicate StoresLead(l: LeadInput, s: Lead) {
    && s.name == l.name && s.role == l.role && s.email == l.email
    && s.linkedin == l.linkedin && s.lastContactedAt == l.lastContactedAt && s.notes == l.notes
    && s.contactType.Some? == l.contactType.Some?
    && (s.contactType.Some? ==> s.contactType.value.Name() == l.contactType.value)
  }

  function BuildLead(l: LeadInput): (r: Lead)
    requires l.contactType.Some? ==> IsContactType(l.contactType.value)
    ensures StoresLead(l, r)
  {
    Lead(l.name, l.role, l.email, l.linkedin,
         if l.contactType.Some? then ParseContactType(l.contactType.value) else None,
         l.lastContactedAt, l.notes)
  }

  function SizeOf(v: Option<string>): (r: CompanySize)
    requires v.Some? ==> IsCompanySize(v.value)
    ensures NameOrDefault(v, r.Name(), "")
  {
    if v.Some? then ParseCompanySize(v.value).value else Unsized
  }

  function HiringOf(v: Option<string>): (r: HiringStatus)
    requires v.Some? ==> IsHiringStatus(v.value)
    ensures NameOrDefault(v, r.Name(), "Unknown")
  {
    if v.Some? then ParseHiringStatus(v.value).value else UnknownHiring
  }

  function PriorityOf(v: Option<string>): (r: Priority)
    requires v.Some? ==> IsPriority(v.value)
    ensures NameOrDefault(v, r.Name(), "Medium")
  {
    if v.Some? then ParsePriority(v.value).value else Medium
  }

  function StatusOf(v: Option<string>): (r: CompanyStatus)
    requires v.Some? ==> IsCompanyStatus(v.value)
    ensures NameOrDefault(v, r.Name(), "Interested")
  {
    if v.Some? then ParseCompanyStatus(v.value).value else Interested
  }

  function PlatformsOf(names: seq<string>): (r: seq<Platform>)
    requires forall i :: 0 <= i < |names| ==> IsPlatform(names[i])
    ensures |r| == |names| && forall i :: 0 <= i < |r| ==> r[i].Name() == names[i]
  {
    if |names| == 0 then []
    else
      assert IsPlatform(names[0]);
      [ParsePlatform(names[0]).value] + PlatformsOf(names[1..])
  }

  function LeadsOf(leads: seq<LeadInput>): (r: seq<Lead>)
    requires forall i :: 0 <= i < |leads| && leads[i].contactType.Some? ==> IsContactType(leads[i].contactType.value)
    ensures |r| == |leads| && forall i :: 0 <= i < |r| ==> r[i] == BuildLead(leads[i])
    ensures forall i :: 0 <= i < |r| ==> StoresLead(leads[i], r[i])
  {
    seq(|leads|, i requires 0 <= i < |leads| => BuildLead(leads[i]))
  }

  /** The stored form of every path: the sent value, or the schema's default when absent. */
  function Build(input: CompanyInput, id: Id, now: Time): Company
    requires Acceptable(input)
  {
    Company(
      id,
      input.userEmail.value,
      Trim(input.companyName.value),
      input.website.GetOr(""),
      input.careersPage.GetOr(""),
      input.industry.GetOr(""),
      SizeOf(input.companySize),
      input.headquarters.GetOr(""),
      HiringOf(input.hiringStatus),
      input.jobOpeningsAvailable.GetOr(false),
      PlatformsOf(input.activePlatforms.GetOr([])),
      input.preferredJobRoles.GetOr([]),
      LeadsOf(input.leads.GetOr([])),
      input.lastInteractionDate,
      PriorityOf(input.priority),
      input.tags.GetOr([]),
      input.notes.GetOr(""),
      input.bookmarked.GetOr(false),
      StatusOf(input.status),
      now,
      now)
  }

  /** What every stored Company satisfies: an owner, and a non-empty trimmed name. */
  predicate Conforms(c: Company) {
    c.userEmail != "" && c.companyName != "" && IsTrimmed(c.companyName)
  }

  /** How a stored record relates to the payload it came from: the caller's
      owner, the trimmed name, each sent value or else the schema default,
      and nothing for the timestamps but the system clock. */
  predicate StoresPayload(input: CompanyInput, c: Company, id: Id, now: Time)
    requires input.userEmail.Some? && input.companyName.Some?
  {
    StoresScalars(input, c, id, now) && StoresEnums(input, c) && StoresLists(input, c)
  }

  predicate StoresScalars(input: CompanyInput, c: Company, id: Id, now: Time)
    requires input.userEmail.Some? && input.companyName.Some?
  {
    && c.id == id && c.createdAt == now && c.updatedAt == now
    && c.userEmail == input.userEmail.value
    && c.companyName == Trim(input.companyName.value)
    && TextOrEmpty(input.website, c.website)
    && TextOrEmpty(input.careersPage, c.careersPage)
    && TextOrEmpty(input.industry, c.industry)
    && TextOrEmpty(input.headquarters, c.headquarters)
    && TextOrEmpty(input.notes, c.notes)
    && c.jobOpeningsAvailable == (input.jobOpeningsAvailable == Some(true))
    && c.bookmarked == (input.bookmarked == Some(true))
    && c.lastInteractionDate == input.lastInteractionDate
    && c.preferredJobRoles == input.preferredJobRoles.GetOr([])
    && c.tags == input.tags.GetOr([])
  }

  predicate StoresEnums(input: CompanyInput, c: Company) {
    && NameOrDefault(input.companySize, c.companySize.Name(), "")
    && NameOrDefault(input.hiringStatus, c.hiringStatus.Name(), "Unknown")
    && NameOrDefault(input.priority, c.priority.Name(), "Medium")
    && NameOrDefault(input.status, c.status.Name(), "Interested")
  }

  predicate StoresLists(input: CompanyInput, c: Company) {
    && |c.activePlatforms| == |input.activePlatforms.GetOr([])|
    && (forall i :: 0 <= i < |c.activePlatforms| ==> c.activePlatforms[i].Name() == input.activePlatforms.value[i])
    && |c.leads| == |input.leads.GetOr([])|
    && (forall i :: 0 <= i < |c.leads| ==> StoresLead(input.leads.value[i], c.leads[i]))
  }

  /** `Company.create(payload)`'s document validation: the payload is accepted
      exactly when it is `Acceptable`, and the stored record then conforms and
      `StoresPayload`; otherwise at least one failed path is reported. */
  function ValidateCompany(input: CompanyInput, id: Id, now: Time): (r: Result<Company, seq<Issue>>)
    ensures r.Ok? <==> Acceptable(input)
    ensures r.Err? ==> |r.error| > 0
    ensures r.Ok? ==> Conforms(r.value) && StoresPayload(input, r.value, id, now)
  {
    IssuesIffUnacceptable(input);
    if CompanyIssues(input) == [] then
      TrimmedNonEmpty(input.companyName.value);
      BuildStores(input, id, now);
      Ok(Build(input, id, now))
    else
      Err(CompanyIssues(input))
  }

  lemma BuildStores(input: CompanyInput, id: Id, now: Time)
    requires Acceptable(input)
    ensures StoresPayload(input, Build(input, id, now), id, now)
  {
    BuildStoresScalars(input, id, now);
    BuildStoresEnums(input, id, now);
    BuildStoresLists(input, id, now);
  }

  lemma BuildStoresScalars(input: CompanyInput, id: Id, now: Time)
    requires Acceptable(input)
    ensures StoresScalars(input, Build(input, id, now), id, now)
  {
    var c := Build(input, id, now);
    assert c.id == id && c.createdAt == now && c.updatedAt == now;
    assert c.userEmail == input.userEmail.value;
    assert c.companyName == Trim(input.companyName.value);
    assert TextOrEmpty(input.website, c.website);
    assert TextOrEmpty(input.careersPage, c.careersPage);
    assert TextOrEmpty(input.industry, c.industry);
    assert TextOrEmpty(input.headquarters, c.headquarters);
    assert TextOrEmpty(input.notes, c.notes);
    assert c.jobOpeningsAvailable == (input.jobOpeningsAvailable == Some(true));
    assert c.bookmarked == (input.bookmarked == Some(true));
    assert c.lastInteractionDate == input.lastInteractionDate;
    assert c.preferredJobRoles == input.preferredJobRoles.GetOr([]);
    assert c.tags == input.tags.GetOr([]);
  }

  lemma BuildStoresEnums(input: CompanyInput, id: Id, now: Time)
    requires Acceptable(input)
    ensures StoresEnums(input, Build(input, id, now))
  {
    var r := Build(input, id, now);
    assert r.companySize == SizeOf(input.companySize);
    assert r.hiringStatus == HiringOf(input.hiringStatus);
    assert r.priority == PriorityOf(input.priority);
    assert r.status == StatusOf(input.status);
  }

  lemma BuildStoresLists(input: CompanyInput, id: Id, now: Time)
    requires Acceptable(input)
    ensures StoresLists(input, Build(input, id, now))
  {
    var r := Build(input, id, now);
    assert r.activePlatforms == PlatformsOf(input.activePlatforms.GetOr([]));
    assert r.leads == LeadsOf(input.leads.GetOr([]));
  }

  lemma TrimmedNonEmpty(s: string)
    requires !AllSpace(s)
    ensures Trim(s) != "" && IsTrimmed(Trim(s))
  {
  }

  /** A payload with only an owner and a name gets every default of the schema. */
  lemma MinimalPayloadDefaults(owner: string, name: string, id: Id, now: Time)
    requires owner != "" && !AllSpace(name)
    ensures
      var input := CompanyInput(Some(owner), Some(name), None, None, None, None, None, None, None,
                                None, None, None, None, None, None, None, None, None);
      var r := ValidateCompany(input, id, now);
      && r.Ok?
      && r.value.companySize == Unsized && r.value.hiringStatus == UnknownHiring
      && r.value.priority == Medium && r.value.status == Interested
      && r.value.website == "" && r.value.careersPage == "" && r.value.industry == ""
      && r.value.headquarters == "" && r.value.notes == ""
      && !r.value.jobOpeningsAvailable && !r.value.bookmarked
      && r.value.activePlatforms == [] && r.value.preferredJobRoles == [] && r.value.tags == []
      && r.value.leads == [] && r.value.lastInteractionDate == None
  {
  }
}
