/** The create and edit dialogs of the Companies tab (CompanyTab.tsx): the
    form schema, the comma-list normaliser that turns the roles and tags
    text boxes into lists, the request body the dialogs send, and the edit
    form that turns a stored company back into form values. */
module CompanyForm {
  import opened Base
  import opened Text
  import opened Seqs
  import opened CompanyModel
  import opened CompanyRoundTrip

  /** What the dialogs hold: every path as the controls produce it, the two
      lists as comma-separated text. */
  datatype FormValues = FormValues(
    companyName: string,
    website: string,
    careersPage: string,
    industry: string,
    companySize: string,
    headquarters: string,
    hiringStatus: string,
    jobOpeningsAvailable: bool,
    activePlatforms: seq<string>,
    preferredJobRoles: string,
    lastInteractionDate: string,
    priority: string,
    tags: string,
    notes: string,
    bookmarked: bool,
    status: string)

  datatype FormIssue = NameRequired | NotUrl(path: string)

  /** `z.union([z.string().url(), z.literal('')])`, with the URL parser given. */
  predicate UrlOrEmpty(s: string, isUrl: string -> bool) {
    s == "" || isUrl(s)
  }

  /** The zod form schema: a non-empty `companyName` (not trimmed), and
      `website` and `careersPage` each empty or a URL. Nothing else is checked,
      in particular none of the value-set fields. */
  function CheckForm(v: FormValues, isUrl: string -> bool): (r: Result<FormValues, seq<FormIssue>>)
    ensures r.Ok? <==> v.companyName != "" && UrlOrEmpty(v.website, isUrl) && UrlOrEmpty(v.careersPage, isUrl)
    ensures r.Ok? ==> r.value == v
    ensures r.Err? ==> (NameRequired in r.error <==> v.companyName == "")
    ensures r.Err? ==> (NotUrl("website") in r.error <==> !UrlOrEmpty(v.website, isUrl))
    ensures r.Err? ==> (NotUrl("careersPage") in r.error <==> !UrlOrEmpty(v.careersPage, isUrl))
  {
    var issues :=
      (if v.companyName == "" then [NameRequired] else [])
      + (if UrlOrEmpty(v.website, isUrl) then [] else [NotUrl("website")])
      + (if UrlOrEmpty(v.careersPage, isUrl) then [] else [NotUrl("careersPage")]);
    if issues == [] then Ok(v) else Err(issues)
  }

  /** The create dialog's initial values. */
  const Blank := FormValues("", "", "", "", "", "", "Unknown", false, [], "", "", "Medium", "", "", false, "Interested")

  /** The create dialog cannot be submitted untouched: the only complaint is the name. */
  lemma BlankFormRejected(isUrl: string -> bool)
    ensures CheckForm(Blank, isUrl) == Err([NameRequired])
  {
    assert UrlOrEmpty(Blank.website, isUrl) && UrlOrEmpty(Blank.careersPage, isUrl);
    assert [NameRequired] + [] + [] == [NameRequired];
  }

  /** A list element the normaliser can produce: non-empty, trimmed, comma-free. */
  predicate Clean(t: string) {
    t != "" && IsTrimmed(t) && ',' !in t
  }

  predicate AllClean(xs: seq<string>) {
    forall i :: 0 <= i < |xs| ==> Clean(xs[i])
  }

  function TrimEach(parts: seq<string>): (r: seq<string>)
    ensures |r| == |parts| && forall i :: 0 <= i < |parts| ==> r[i] == Trim(parts[i])
  {
    if |parts| == 0 then [] else [Trim(parts[0])] + TrimEach(parts[1..])
  }

  predicate NonEmpty(t: string) { t != "" }

  /** The pieces of `s` between commas, each trimmed. */
  function Pieces(s: string): (r: seq<string>)
    ensures forall i :: 0 <= i < |r| ==> ',' !in r[i] && IsTrimmed(r[i])
  {
    var parts := Split(s, ',');
    PiecesKeepOut(parts, ',');
    TrimEach(parts)
  }

  lemma {:induction false} PiecesKeepOut(parts: seq<string>, c: char)
    requires forall i :: 0 <= i < |parts| ==> c !in parts[i]
    ensures forall i :: 0 <= i < |parts| ==> c !in TrimEach(parts)[i]
  {
    if |parts| > 0 {
      TrimKeepsOut(parts[0], c);
      PiecesKeepOut(parts[1..], c);
      assert TrimEach(parts) == [Trim(parts[0])] + TrimEach(parts[1..]);
    }
  }

  /** `s.split(',').map(t => t.trim()).filter(Boolean)`: the trimmed pieces
      between commas, empty ones dropped, in input order, duplicates kept. */
  function Normalise(s: string): (r: seq<string>)
    ensures IsSubsequence(r, Pieces(s))
    ensures forall t :: t in r <==> t != "" && t in Pieces(s)
  {
    Filter(Pieces(s), NonEmpty)
  }

  /** Only blank pieces are dropped: every non-empty piece survives as often
      as it was typed, duplicates included. */
  lemma NormaliseCounts(s: string)
    ensures forall t :: multiset(Normalise(s))[t] == if t != "" then multiset(Pieces(s))[t] else 0
  {
    FilterMultiset(Pieces(s), NonEmpty);
  }

  /** Every token the normaliser returns is non-empty, trimmed and comma-free. */
  lemma NormaliseClean(s: string)
    ensures AllClean(Normalise(s))
  {
    var r := Normalise(s);
    forall i | 0 <= i < |r|
      ensures Clean(r[i])
    {
      assert r[i] in r;
    }
  }

  /** The edit dialog shows a list joined with `", "`; submitting it
      unchanged normalises back to the same list, for every list the
      normaliser can produce. */
  lemma {:induction false} NormaliseJoin(xs: seq<string>)
    requires AllClean(xs)
    ensures Normalise(Join(xs, ", ")) == xs
  {
    if |xs| == 0 {
      assert Split("", ',') == [""];
      assert TrimEach([""]) == [""];
    } else {
      var joined := Join(xs, ", ");
      assert [','] + " " == ", ";
      SplitJoinPadded("", xs, ',', " ");
      assert "" + joined == joined;
      var parts := Split(joined, ',');
      assert parts == ["" + xs[0]] + Prefixed(" ", xs[1..]);
      assert parts[1..] == Prefixed(" ", xs[1..]);
      TrimOfTrimmed(xs[0]);
      TrimEachPadded(xs[1..]);
      assert parts[0] == xs[0];
      assert TrimEach(parts) == [Trim(parts[0])] + TrimEach(parts[1..]);
      assert xs == [xs[0]] + xs[1..];
      assert TrimEach(parts) == xs;
      assert Pieces(joined) == xs;
      FilterAll(xs, NonEmpty);
    }
  }

  /** Trimming each padded element gives the elements back. */
  lemma {:induction false} TrimEachPadded(xs: seq<string>)
    requires AllClean(xs)
    ensures TrimEach(Prefixed(" ", xs)) == xs
  {
    if |xs| > 0 {
      TrimAfterSpaces(" ", xs[0]);
      TrimEachPadded(xs[1..]);
      assert Prefixed(" ", xs)[1..] == Prefixed(" ", xs[1..]);
      assert xs == [xs[0]] + xs[1..];
    }
  }

  /** Normalising is idempotent through the edit form's join. */
  lemma NormaliseStable(s: string)
    ensures Normalise(Join(Normalise(s), ", ")) == Normalise(s)
  {
    NormaliseClean(s);
    NormaliseJoin(Normalise(s));
  }

  /** An empty piece between two commas is dropped; the pieces around it
      come back trimmed, in order. */
  lemma BlankPieceDropped(a: string, b: string, c: string)
    requires Clean(a) && Clean(b) && Clean(c)
    ensures Normalise(a + ", " + b + ", , " + c) == [a, b, c]
  {
    PiecesAroundBlank(a, b, c);
    DropBlank(a, b, c);
  }

  /** The text `"remote, ai, , startup"` gives the three tags, the blank one dropped. */
  lemma RemoteAiStartup()
    ensures Normalise("remote, ai, , startup") == ["remote", "ai", "startup"]
  {
    assert Clean("remote") && Clean("ai") && Clean("startup");
    assert "remote" + ", " + "ai" + ", , " + "startup" == "remote, ai, , startup";
    BlankPieceDropped("remote", "ai", "startup");
  }

  lemma DropBlank(a: string, b: string, c: string)
    requires a != "" && b != "" && c != ""
    ensures Filter([a, b, "", c], NonEmpty) == [a, b, c]
  {
    DropThird(a, b, "", c, NonEmpty);
  }

  lemma DropThird<T(!new)>(a: T, b: T, e: T, c: T, p: T -> bool)
    requires p(a) && p(b) && !p(e) && p(c)
    ensures Filter([a, b, e, c], p) == [a, b, c]
  {
    DropSecond(b, e, c, p);
    assert [a, b, e, c][1..] == [b, e, c];
    assert [a] + [b, c] == [a, b, c];
  }

  lemma DropSecond<T(!new)>(b: T, e: T, c: T, p: T -> bool)
    requires p(b) && !p(e) && p(c)
    ensures Filter([b, e, c], p) == [b, c]
  {
    assert [b, e, c][1..] == [e, c] && [e, c][1..] == [c];
    assert Filter([c], p) == [c];
    assert Filter([e, c], p) == [c];
  }

  lemma PiecesAroundBlank(a: string, b: string, c: string)
    requires Clean(a) && Clean(b) && Clean(c)
    ensures Pieces(a + ", " + b + ", , " + c) == [a, b, "", c]
  {
    var parts := SplitAroundBlank(a, b, c);
    TrimOfTrimmed(a);
    TrimAfterSpaces(" ", b);
    TrimAfterSpaces(" ", c);
    assert AllSpace(" ");
    assert TrimEach(parts) == [Trim(parts[0])] + TrimEach(parts[1..]);
    assert TrimEach(parts[1..]) == [Trim(parts[1])] + TrimEach(parts[2..]);
    assert TrimEach(parts[2..]) == [Trim(parts[2])] + TrimEach(parts[3..]);
  }

  lemma SplitAroundBlank(a: string, b: string, c: string) returns (parts: seq<string>)
    requires Clean(a) && Clean(b) && Clean(c)
    ensures parts == [a, " " + b, " ", " " + c]
    ensures Split(a + ", " + b + ", , " + c, ',') == parts
  {
    var last := " " + c;
    var rest2 := " " + [','] + last;
    var rest1 := " " + b + [','] + rest2;
    BlankLayout(a, b, c);
    assert ',' !in " " + b;
    assert ',' !in last;
    SplitAtSep(a, ',', rest1);
    SplitAtSep(" " + b, ',', rest2);
    SplitAtSep(" ", ',', last);
    SplitWithoutSep(last, ',');
    parts := [a, " " + b, " ", last];
  }

  lemma BlankLayout(a: string, b: string, c: string)
    ensures a + ", " + b + ", , " + c == a + [','] + (" " + b + [','] + (" " + [','] + (" " + c)))
  {
    assert ", " == [','] + " ";
    assert ", , " == [','] + " " + [','] + " ";
  }

  /** The request body both dialogs send: every form value as it is, the two
      lists normalised, and the date text cast to an instant by `dateOf`, the
      empty text standing for no date. The create dialog adds the signed-in
      user's email as `owner`; the edit dialog sends no owner. No leads are
      ever sent from the form. */
  function Payload(v: FormValues, owner: Option<string>, dateOf: string -> Time): (r: CompanyInput)
    ensures r.leads.None?
    ensures r.preferredJobRoles.Some? && AllClean(r.preferredJobRoles.value)
    ensures r.tags.Some? && AllClean(r.tags.value)
    ensures r.lastInteractionDate.None? <==> v.lastInteractionDate == ""
  {
    NormaliseClean(v.preferredJobRoles);
    NormaliseClean(v.tags);
    CompanyInput(
      owner, Some(v.companyName), Some(v.website), Some(v.careersPage), Some(v.industry),
      Some(v.companySize), Some(v.headquarters), Some(v.hiringStatus),
      Some(v.jobOpeningsAvailable), Some(v.activePlatforms), Some(Normalise(v.preferredJobRoles)),
      None,
      if v.lastInteractionDate == "" then None else Some(dateOf(v.lastInteractionDate)),
      Some(v.priority), Some(Normalise(v.tags)), Some(v.notes), Some(v.bookmarked), Some(v.status))
  }

  /** The edit dialog's values for a stored company: the lists joined with
      `", "`, the value sets by name, and the date as the day text `day`
      renders, or the empty text when there is none. */
  function EditForm(c: Company, day: Time -> string): (r: FormValues)
    ensures r.companyName == c.companyName && r.website == c.website && r.careersPage == c.careersPage
    ensures r.industry == c.industry && r.headquarters == c.headquarters && r.notes == c.notes
    ensures r.jobOpeningsAvailable == c.jobOpeningsAvailable && r.bookmarked == c.bookmarked
    ensures IsCompanySize(r.companySize) && IsHiringStatus(r.hiringStatus)
    ensures IsPriority(r.priority) && IsCompanyStatus(r.status)
    ensures ParseCompanySize(r.companySize) == Some(c.companySize)
    ensures ParseHiringStatus(r.hiringStatus) == Some(c.hiringStatus)
    ensures ParsePriority(r.priority) == Some(c.priority)
    ensures ParseCompanyStatus(r.status) == Some(c.status)
    ensures forall i :: 0 <= i < |r.activePlatforms| ==> IsPlatform(r.activePlatforms[i])
    ensures PlatformsOf(r.activePlatforms) == c.activePlatforms
    ensures r.preferredJobRoles == Join(c.preferredJobRoles, ", ") && r.tags == Join(c.tags, ", ")
    ensures c.lastInteractionDate.None? ==> r.lastInteractionDate == ""
    ensures c.lastInteractionDate.Some? ==> r.lastInteractionDate == day(c.lastInteractionDate.value)
  {
    assert IsCompanySize(c.companySize.Name()) && IsHiringStatus(c.hiringStatus.Name());
    assert IsPriority(c.priority.Name()) && IsCompanyStatus(c.status.Name());
    SizeBack(c.companySize);
    HiringBack(c.hiringStatus);
    PriorityBack(c.priority);
    StatusBack(c.status);
    PlatformsBack(c.activePlatforms);
    FormValues(
      c.companyName, c.website, c.careersPage, c.industry, c.companySize.Name(), c.headquarters,
      c.hiringStatus.Name(), c.jobOpeningsAvailable, PlatformNames(c.activePlatforms),
      Join(c.preferredJobRoles, ", "),
      if c.lastInteractionDate.Some? then day(c.lastInteractionDate.value) else "",
      c.priority.Name(), Join(c.tags, ", "), c.notes, c.bookmarked, c.status.Name())
  }

  /** `day` never renders the empty text, and `dateOf` reads back the instant `t`. */
  predicate DayReadsBack(day: Time -> string, dateOf: string -> Time, t: Time) {
    day(t) != "" && dateOf(day(t)) == t
  }

  /** Submitting the edit dialog untouched sends back the stored record as it
      is stored, without its owner and its leads, provided its lists are ones
      the normaliser can produce and its date survives the round trip through
      the day text. */
  lemma EditResubmits(c: Company, day: Time -> string, dateOf: string -> Time)
    requires AllClean(c.preferredJobRoles) && AllClean(c.tags)
    requires c.lastInteractionDate.Some? ==> DayReadsBack(day, dateOf, c.lastInteractionDate.value)
    ensures Payload(EditForm(c, day), None, dateOf) == ToInput(c).(userEmail := None, leads := None)
  {
    var v := EditForm(c, day);
    var p := Payload(v, None, dateOf);
    var q := ToInput(c).(userEmail := None, leads := None);
    assert p.preferredJobRoles == q.preferredJobRoles by { NormaliseJoin(c.preferredJobRoles); }
    assert p.tags == q.tags by { NormaliseJoin(c.tags); }
    assert p.lastInteractionDate == q.lastInteractionDate;
  }

  /** The edit dialog lets a stored company through exactly when its two
      links are empty or URLs: the server never checked them. */
  lemma EditFormChecks(c: Company, day: Time -> string, isUrl: string -> bool)
    requires Conforms(c)
    ensures CheckForm(EditForm(c, day), isUrl).Ok? <==> UrlOrEmpty(c.website, isUrl) && UrlOrEmpty(c.careersPage, isUrl)
  {
  }

  /** When the server accepts what the create dialog sends: an owner, a name
      that is not all whitespace, and a known name in every select. The form
      schema checks none of these but the emptiness of the name. */
  lemma CreateAcceptedIff(v: FormValues, owner: Option<string>, dateOf: string -> Time)
    ensures Acceptable(Payload(v, owner, dateOf)) <==>
      && Truthy(owner) && !AllSpace(v.companyName)
      && IsCompanySize(v.companySize) && IsHiringStatus(v.hiringStatus)
      && (forall i :: 0 <= i < |v.activePlatforms| ==> IsPlatform(v.activePlatforms[i]))
      && IsPriority(v.priority) && IsCompanyStatus(v.status)
  {
  }

  /** A name of spaces passes the form schema but not the server, which trims it first. */
  lemma SpacesNamePassesFormOnly(v: FormValues, owner: Option<string>, dateOf: string -> Time, isUrl: string -> bool)
    requires v.companyName != "" && AllSpace(v.companyName)
    requires UrlOrEmpty(v.website, isUrl) && UrlOrEmpty(v.careersPage, isUrl)
    ensures CheckForm(v, isUrl).Ok?
    ensures ValidateCompany(Payload(v, owner, dateOf), 0, 0).Err?
  {
    CreateAcceptedIff(v, owner, dateOf);
  }

  /** The create dialog's preset selects are values the server accepts, so a
      name and an owner are all it takes. */
  lemma BlankDefaultsAccepted(name: string, owner: Option<string>, dateOf: string -> Time)
    requires Truthy(owner) && !AllSpace(name)
    ensures Acceptable(Payload(Blank.(companyName := name), owner, dateOf))
  {
    CreateAcceptedIff(Blank.(companyName := name), owner, dateOf);
  }

  /** What the server stores from an accepted create: the normalised lists,
      each token clean, and the dialog's own owner. */
  lemma CreateStoresNormalised(v: FormValues, owner: Option<string>, dateOf: string -> Time, id: Id, now: Time)
    requires Truthy(owner) && !AllSpace(v.companyName)
    requires IsCompanySize(v.companySize) && IsHiringStatus(v.hiringStatus)
    requires forall i :: 0 <= i < |v.activePlatforms| ==> IsPlatform(v.activePlatforms[i])
    requires IsPriority(v.priority) && IsCompanyStatus(v.status)
    ensures ValidateCompany(Payload(v, owner, dateOf), id, now).Ok?
    ensures var c := ValidateCompany(Payload(v, owner, dateOf), id, now).value;
      && c.userEmail == owner.value
      && c.preferredJobRoles == Normalise(v.preferredJobRoles) && AllClean(c.preferredJobRoles)
      && c.tags == Normalise(v.tags) && AllClean(c.tags)
      && c.leads == []
  {
    CreateAcceptedIff(v, owner, dateOf);
  }
}
