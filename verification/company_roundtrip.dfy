/** The Company schema read backwards: rendering a stored record as a
    payload and validating it again reproduces the record, so the validator
    is a fixpoint on everything it stores. */
module CompanyRoundTrip {
  import opened Base
  import opened Text
  import opened Schema
  import opened CompanyModel

  /** The payload that sends every path of a stored Company back as it is stored. */
  function ToInput(c: Company): CompanyInput {
    CompanyInput(
      Some(c.userEmail), Some(c.companyName), Some(c.website), Some(c.careersPage), Some(c.industry),
      Some(c.companySize.Name()), Some(c.headquarters), Some(c.hiringStatus.Name()),
      Some(c.jobOpeningsAvailable), Some(PlatformNames(c.activePlatforms)), Some(c.preferredJobRoles),
      Some(LeadInputs(c.leads)), c.lastInteractionDate, Some(c.priority.Name()), Some(c.tags),
      Some(c.notes), Some(c.bookmarked), Some(c.status.Name()))
  }

  function PlatformNames(ps: seq<Platform>): (r: seq<string>)
    ensures |r| == |ps|
    ensures forall i :: 0 <= i < |ps| ==> IsPlatform(r[i])
  {
    if |ps| == 0 then [] else [ps[0].Name()] + PlatformNames(ps[1..])
  }

  function LeadToInput(l: Lead): (r: LeadInput)
    ensures r.contactType.Some? ==> IsContactType(r.contactType.value)
  {
    LeadInput(l.name, l.role, l.email, l.linkedin,
              if l.contactType.Some? then Some(l.contactType.value.Name()) else None,
              l.lastContactedAt, l.notes)
  }

  function LeadInputs(ls: seq<Lead>): (r: seq<LeadInput>)
    ensures |r| == |ls|
    ensures forall i :: 0 <= i < |ls| && r[i].contactType.Some? ==> IsContactType(r[i].contactType.value)
  {
    if |ls| == 0 then [] else [LeadToInput(ls[0])] + LeadInputs(ls[1..])
  }

  lemma {:induction false} PlatformsBack(ps: seq<Platform>)
    ensures PlatformsOf(PlatformNames(ps)) == ps
  {
    if |ps| > 0 {
      PlatformsBack(ps[1..]);
      assert PlatformNames(ps)[1..] == PlatformNames(ps[1..]);
    }
  }

  lemma {:induction false} LeadsBack(ls: seq<Lead>)
    ensures LeadsOf(LeadInputs(ls)) == ls
  {
    if |ls| > 0 {
      LeadsBack(ls[1..]);
      assert LeadInputs(ls)[1..] == LeadInputs(ls[1..]);
      var l := ls[0];
      if l.contactType.Some? {
        assert ParseContactType(l.contactType.value.Name()) == Some(l.contactType.value);
      }
      assert BuildLead(LeadToInput(l)) == l;
    }
  }

  lemma ToInputAcceptable(c: Company)
    requires Conforms(c)
    ensures Acceptable(ToInput(c))
  {
    assert IsCompanySize(c.companySize.Name());
    assert IsHiringStatus(c.hiringStatus.Name());
    assert IsPriority(c.priority.Name());
    assert IsCompanyStatus(c.status.Name());
  }

  /** The schema is a fixpoint on what it stores: re-validating a conforming
      record, at its own creation time and id, accepts it unchanged. */
  lemma Revalidate(c: Company)
    requires Conforms(c) && c.updatedAt == c.createdAt
    ensures ValidateCompany(ToInput(c), c.id, c.createdAt) == Ok(c)
  {
    ToInputAcceptable(c);
    IssuesIffUnacceptable(ToInput(c));
    BuildBack(c);
  }

  lemma BuildBack(c: Company)
    requires Conforms(c) && c.updatedAt == c.createdAt
    ensures Build(ToInput(c), c.id, c.createdAt) == c
  {
    var input := ToInput(c);
    ToInputAcceptable(c);
    var d := Build(input, c.id, c.createdAt);
    assert d.companyName == c.companyName by { TrimOfTrimmed(c.companyName); }
    assert d.activePlatforms == c.activePlatforms by { PlatformsBack(c.activePlatforms); }
    assert d.leads == c.leads by { LeadsBack(c.leads); }
    assert d.companySize == c.companySize by { SizeBack(c.companySize); }
    assert d.hiringStatus == c.hiringStatus by { HiringBack(c.hiringStatus); }
    assert d.priority == c.priority by { PriorityBack(c.priority); }
    assert d.status == c.status by { StatusBack(c.status); }
  }

  lemma SizeBack(e: CompanySize)
    ensures SizeOf(Some(e.Name())) == e
  {
  }

  lemma HiringBack(e: HiringStatus)
    ensures HiringOf(Some(e.Name())) == e
  {
  }

  lemma PriorityBack(e: Priority)
    ensures PriorityOf(Some(e.Name())) == e
  {
  }

  lemma StatusBack(e: CompanyStatus)
    ensures StatusOf(Some(e.Name())) == e
  {
  }
}
