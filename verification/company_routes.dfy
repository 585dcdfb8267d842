/** The two Company route handlers: `POST /api/company/create`, which hands
    the payload to the schema unchanged, and `GET /api/company/get`, the
    owner's companies newest first. */
module CompanyRoutes {
  import opened Base
  import opened Seqs
  import opened Schema
  import opened Store
  import opened CompanyModel

  function CompanyId(c: Company): Id { c.id }
  function Owner(c: Company): string { c.userEmail }
  function CreatedAt(c: Company): int { c.createdAt }

  /** `POST /api/company/create`. A down store answers 500 with its reason.
      Otherwise the payload, `userEmail` included, is validated as sent: a
      rejected payload answers 500 with the validation message and stores
      nothing (there is no 400 answer); an accepted one is stored under a
      fresh id, exactly as `ValidateCompany` builds it, and returned with 201. */
  function CreateCompany(store: Store<Company>, payload: CompanyInput, now: Time): (r: (Response<Company>, Store<Company>))
    ensures store.Down? ==> r == (Response(500, Message(store.reason)), store)
    ensures store.Up? && !Acceptable(payload) ==>
      r.1 == store && r.0 == Response(500, Message(ValidationMessage("Company", CompanyIssues(payload))))
    ensures store.Up? && Acceptable(payload) ==>
      && r.0.status == 201 && r.0.body.Record?
      && r.1 == Up(store.records + [r.0.body.value])
      && r.0.body.value.id !in Keys(store.records, CompanyId)
      && ValidateCompany(payload, r.0.body.value.id, now) == Ok(r.0.body.value)
  {
    match store
    case Down(reason) => (Response(500, Message(reason)), store)
    case Up(records) =>
      match ValidateCompany(payload, FreshId(Keys(records, CompanyId)), now)
      case Err(issues) => (Response(500, Message(ValidationMessage("Company", issues))), store)
      case Ok(c) => (Response(201, Record(c)), Up(records + [c]))
  }

  /** Creating never gives two stored companies the same id. */
  lemma CreateKeepsIdsUnique(records: seq<Company>, payload: CompanyInput, now: Time)
    requires Unique(Keys(records, CompanyId))
    ensures CreateCompany(Up(records), payload, now).1.Up?
    ensures Unique(Keys(CreateCompany(Up(records), payload, now).1.records, CompanyId))
  {
    var (res, after) := CreateCompany(Up(records), payload, now);
    if Acceptable(payload) {
      var c := res.body.value;
      KeysAppend(records, c, CompanyId);
      AppendKeepsUnique(Keys(records, CompanyId), c.id);
    }
  }

  /** `GET /api/company/get?email=…`: 500 with the reason when the store is
      down, whatever the query; 400 when `email` is missing or empty; else 200
      with exactly the companies whose `userEmail` is `email`, each as often as
      it is stored, newest first. */
  function GetCompanies(store: Store<Company>, email: Option<string>): (r: Response<Company>)
    ensures store.Down? ==> r == Response(500, Message(store.reason))
    ensures store.Up? && !Truthy(email) ==> r == Response(400, Message("email is required"))
    ensures store.Up? && Truthy(email) ==>
      && r.status == 200 && r.body.Records?
      && (forall i, j :: 0 <= i < j < |r.body.values| ==> r.body.values[i].createdAt >= r.body.values[j].createdAt)
      && (forall c :: c in r.body.values <==> c in store.records && c.userEmail == email.value)
      && (forall c :: multiset(r.body.values)[c] == if c.userEmail == email.value then multiset(store.records)[c] else 0)
  {
    GetOwned(store, email, Owner, CreatedAt)
  }

  /** An owner without companies gets 200 and an empty list, not an error. */
  lemma NoCompaniesIsEmptyList(records: seq<Company>, email: string)
    requires email != ""
    requires forall i :: 0 <= i < |records| ==> records[i].userEmail != email
    ensures GetCompanies(Up(records), Some(email)) == Response(200, Records([]))
  {
    ListOwnedNone(records, email, Owner, CreatedAt);
  }

  /** The owner a created company is listed under is the `userEmail` the caller
      sent: the route stamps nothing, so any caller can file a company under
      any address. */
  lemma CreatedIsListedForSender(records: seq<Company>, payload: CompanyInput, now: Time)
    requires Acceptable(payload)
    ensures
      var (res, after) := CreateCompany(Up(records), payload, now);
      res.body.value in GetCompanies(after, payload.userEmail).body.values
  {
    var (res, after) := CreateCompany(Up(records), payload, now);
    assert res.body.value in after.records;
  }
}
