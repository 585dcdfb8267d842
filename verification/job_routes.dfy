/** The two Job route handlers: `POST /api/jobs/create`, which hands the
    payload to the schema unchanged, and `GET /api/jobs/get`, the owner's
    jobs newest first. */
module JobRoutes {
  import opened Base
  import opened Seqs
  import opened Schema
  import opened Store
  import opened JobModel

  function JobId(j: Job): Id { j.id }
  function Owner(j: Job): string { j.userEmail }
  function CreatedAt(j: Job): int { j.createdAt }

  /** `POST /api/jobs/create`. A down store answers 500 with its reason.
      Otherwise the payload is validated as sent: a missing `company` or
      `position`, or a value outside a value set, answers 500 with the
      validation message and stores nothing; an accepted payload is stored
      under a fresh id, exactly as `ValidateJob` builds it, and returned with 201. */
  function CreateJob(store: Store<Job>, payload: JobInput, now: Time): (r: (Response<Job>, Store<Job>))
    ensures store.Down? ==> r == (Response(500, Message(store.reason)), store)
    ensures store.Up? && !Acceptable(payload) ==>
      r.1 == store && r.0 == Response(500, Message(ValidationMessage("Job", JobIssues(payload))))
    ensures store.Up? && Acceptable(payload) ==>
      && r.0.status == 201 && r.0.body.Record?
      && r.1 == Up(store.records + [r.0.body.value])
      && r.0.body.value.id !in Keys(store.records, JobId)
      && ValidateJob(payload, r.0.body.value.id, now) == Ok(r.0.body.value)
  {
    match store
    case Down(reason) => (Response(500, Message(reason)), store)
    case Up(records) =>
      match ValidateJob(payload, FreshId(Keys(records, JobId)), now)
      case Err(issues) => (Response(500, Message(ValidationMessage("Job", issues))), store)
      case Ok(j) => (Response(201, Record(j)), Up(records + [j]))
  }

  /** Creating never gives two stored jobs the same id. */
  lemma CreateKeepsIdsUnique(records: seq<Job>, payload: JobInput, now: Time)
    requires Unique(Keys(records, JobId))
    ensures CreateJob(Up(records), payload, now).1.Up?
    ensures Unique(Keys(CreateJob(Up(records), payload, now).1.records, JobId))
  {
    var (res, after) := CreateJob(Up(records), payload, now);
    if Acceptable(payload) {
      var j := res.body.value;
      KeysAppend(records, j, JobId);
      AppendKeepsUnique(Keys(records, JobId), j.id);
    }
  }

  /** `GET /api/jobs/get?email=…`: 500 with the reason when the store is down,
      whatever the query; 400 when `email` is missing or empty; else 200 with
      exactly the jobs whose `userEmail` is `email`, each as often as it is
      stored, newest first. */
  function GetJobs(store: Store<Job>, email: Option<string>): (r: Response<Job>)
    ensures store.Down? ==> r == Response(500, Message(store.reason))
    ensures store.Up? && !Truthy(email) ==> r == Response(400, Message("email is required"))
    ensures store.Up? && Truthy(email) ==>
      && r.status == 200 && r.body.Records?
      && (forall i, j :: 0 <= i < j < |r.body.values| ==> r.body.values[i].createdAt >= r.body.values[j].createdAt)
      && (forall j :: j in r.body.values <==> j in store.records && j.userEmail == email.value)
      && (forall j :: multiset(r.body.values)[j] == if j.userEmail == email.value then multiset(store.records)[j] else 0)
  {
    GetOwned(store, email, Owner, CreatedAt)
  }

  /** An owner without jobs gets 200 and an empty list, not an error. */
  lemma NoJobsIsEmptyList(records: seq<Job>, email: string)
    requires email != ""
    requires forall i :: 0 <= i < |records| ==> records[i].userEmail != email
    ensures GetJobs(Up(records), Some(email)) == Response(200, Records([]))
  {
    ListOwnedNone(records, email, Owner, CreatedAt);
  }

  /** A created job is listed under the `userEmail` the caller sent. */
  lemma CreatedIsListedForSender(records: seq<Job>, payload: JobInput, now: Time)
    requires Acceptable(payload)
    ensures
      var (res, after) := CreateJob(Up(records), payload, now);
      res.body.value in GetJobs(after, payload.userEmail).body.values
  {
    var (res, after) := CreateJob(Up(records), payload, now);
    assert res.body.value in after.records;
  }
}
