# jobarc record management, modelled in Dafny

jobarc is a job-hunt tracker built on Next.js and Mongoose. A signed-in user
keeps two collections, Companies and Jobs, and registers an account first.
This project models the record-management logic behind that, as pure
functions over immutable data, and proves properties of it:

- **Schemas as validators** (`CompanyModel`, `JobModel`, `UserModel`, with
  `Schema` for the shared rules). These model the Mongoose schemas for
  Company, Job and User:
  - required paths, with `companyName` trimmed before its check;
  - closed value sets, including the per-element set on `activePlatforms`
    and on each lead's `contactType`;
  - literal defaults and system timestamps.

  Each validator accepts a payload exactly when a path-by-path predicate
  holds, stores the sent value or the default for every path, and reports
  every failed path otherwise. Each schema is a fixpoint: re-sending a
  stored record reproduces it (`CompanyRoundTrip.Revalidate`,
  `JobModel.Revalidate`, `UserModel.Revalidate`).
- **Create and list routes** (`Store`, `CompanyRoutes`, `JobRoutes`):
  - `POST /api/{company,jobs}/create` hands the payload to the schema
    unchanged. The caller's `userEmail` is stored. A rejected payload
    answers 500, because the route has no 400 path.
  - `GET /api/{company,jobs}/get?email=` answers 400 for a missing or empty
    email. Otherwise it answers exactly that owner's records, newest
    `createdAt` first.
- **Registration** (`Register`). The checks run in order:
  1. required fields;
  2. the address pattern `^[A-Z0-9._%+-]+@[A-Z0-9.-]+\.[A-Z]{2,}$` (case-insensitive);
  3. password length;
  4. duplicate address.

  On success one user is added, with the defaults the route chooses and
  the password stored as an opaque hash.
- **The Companies tab** (`CompanyForm`, `CompanyList`):
  - the form schema;
  - the comma-list normaliser `split(',').map(trim).filter(Boolean)` and the
    edit form's `join(', ')`;
  - the request bodies the dialogs send;
  - the search-and-select effect that derives the shown list;
  - the prepend, replace-by-id and remove-by-id updates of the loaded list.

Inputs that are not pure are parameters of the model:
- the store is `Store<T>`: `Down(reason)` stands for a connection attempt
  that throws, and `Up(records)` for a reachable collection;
- the clock is a `now: Time` argument;
- `bcrypt.hash` is a function argument `hash`;
- zod's URL parser is a predicate argument `isUrl`;
- the date formatting and parsing of the edit form are the arguments `day`
  and `dateOf`.

Where the behaviour one might expect and the route code differ, the model
follows the code:
- a schema failure on create is a 500;
- the search query is lower-cased but not trimmed;
- Job `company`/`position` are required but not trimmed.

## Model

| member | source | states |
|---|---|---|
| Base.OrElse | app/api/register/route.ts:49-51 | the or-fallback on text: the sent value when it is present and non-empty, the fallback otherwise |
| Text.Trim | models/company.ts:13 | `trim` leaves no whitespace at either end, and is empty exactly when the input is all whitespace |
| Text.TrimIsSlice | models/company.ts:13 | the trimmed name is a slice of the sent one, with only whitespace cut off in front and behind |
| Text.IncludesIsSubstring | components/main/common/CompanyTab.tsx:300-301 | `includes` holds exactly when the needle occurs at some position of the haystack |
| Text.Lower | components/main/common/CompanyTab.tsx:298 | lower-casing keeps the length and maps each ASCII capital to its small letter |
| Text.Split | components/main/common/CompanyTab.tsx:163 | `split(',')` gives at least one piece, no piece contains a comma, and n commas give n + 1 pieces |
| Text.JoinSplit | components/main/common/CompanyTab.tsx:163 | joining the pieces of a split with the same separator gives the text back |
| Text.SplitJoinPadded | components/main/common/CompanyTab.tsx:231 | splitting a `join(', ')` on commas gives the elements back, each after the first with one space in front |
| Seqs.Filter | components/main/common/CompanyTab.tsx:299-316 | `filter` keeps exactly the elements satisfying the predicate, in order, as a subsequence |
| Seqs.FilterMultiset | components/main/common/CompanyTab.tsx:253 | `filter` keeps every occurrence of a kept value and none of a dropped one |
| Seqs.FilterFuse | components/main/common/CompanyTab.tsx:299-316 | two successive filters equal one filter by the conjunction |
| Seqs.FilterCommute | components/main/common/CompanyTab.tsx:299-316 | the order of two filters does not matter |
| Seqs.FilterIdempotent | components/main/common/CompanyTab.tsx:299-316 | filtering twice with one predicate is filtering once |
| Seqs.SortDesc | app/api/company/get/route.ts:15 | `sort({ createdAt: -1 })` is a permutation ordered by descending key |
| Schema.RequiredIssues | models/company.ts:5-9 | a required String path fails exactly when it is absent or empty, and then reports that path alone |
| Schema.EnumIssues | models/company.ts:27-31 | an enum path fails exactly when it is sent with a value outside the set; an absent one takes its default |
| Schema.EachEnumIssues | models/company.ts:45-49 | an array with an enum fails exactly when some element is outside the set |
| Schema.ValidationMessage | app/api/company/create/route.ts:13-15 | the error message starts with `<Model> validation failed: ` |
| CompanyModel.NamesParse | models/company.ts:27-93 | every value of each of the six value sets is recognised by its own name |
| CompanyModel.SentContactTypes | models/company.ts:60-63 | lists the contact type of every lead that has one, and nothing else |
| CompanyModel.SentContactTypesAllowed | models/company.ts:60-63 | every sent contact type is allowed exactly when every lead's contact type is |
| CompanyModel.IssuesIffUnacceptable | models/company.ts:3-96 | the schema reports no failed path exactly when the payload is acceptable path by path |
| CompanyModel.BuildLead | models/company.ts:54-67 | a lead keeps name, role, email, linkedin, last-contacted date and notes as sent, and its contact type exactly when one was sent, under the sent name |
| CompanyModel.LeadsOf | models/company.ts:54-67 | every sent lead is stored, in order, each with all its sub-paths as sent and its contact type recognised |
| CompanyModel.SizeOf | models/company.ts:27-31 | `companySize` is the sent value, or `""` when absent |
| CompanyModel.HiringOf | models/company.ts:36-40 | `hiringStatus` is the sent value, or `Unknown` when absent |
| CompanyModel.PriorityOf | models/company.ts:72-76 | `priority` is the sent value, or `Medium` when absent |
| CompanyModel.StatusOf | models/company.ts:89-93 | `status` is the sent value, or `Interested` when absent |
| CompanyModel.PlatformsOf | models/company.ts:45-49 | every sent platform is stored in order under its own name |
| CompanyModel.ValidateCompany | models/company.ts:3-96 | accepts exactly the acceptable payloads; an accepted one yields a record with an owner and a non-empty trimmed name that stores every path, lead sub-paths included, as sent or defaulted, timestamps from the clock; a rejected one reports at least one path |
| CompanyModel.BuildStores | models/company.ts:3-96 | the stored record relates to the payload path by path, down to every sub-path of every lead |
| CompanyModel.BuildStoresScalars | models/company.ts:15-26 | text paths default to `""`, flags to false, lists to empty, the date to none; the owner is kept and the name trimmed |
| CompanyModel.BuildStoresEnums | models/company.ts:27-93 | each value-set path stores the sent name or its default |
| CompanyModel.BuildStoresLists | models/company.ts:45-67 | platforms and leads are stored element by element, every lead sub-path as sent |
| CompanyModel.TrimmedNonEmpty | models/company.ts:10-14 | a name that is not all whitespace stays non-empty after trimming |
| CompanyModel.MinimalPayloadDefaults | models/company.ts:15-93 | a payload with only an owner and a name gets every default of the schema |
| CompanyRoundTrip.PlatformNames | models/company.ts:45-49 | rendering platforms gives allowed names, one per platform |
| CompanyRoundTrip.LeadToInput | models/company.ts:54-67 | a rendered lead sends only allowed contact types |
| CompanyRoundTrip.LeadInputs | models/company.ts:54-67 | rendered leads send only allowed contact types |
| CompanyRoundTrip.PlatformsBack | models/company.ts:45-49 | parsing rendered platforms gives them back |
| CompanyRoundTrip.LeadsBack | models/company.ts:54-67 | parsing rendered leads gives them back |
| CompanyRoundTrip.ToInputAcceptable | models/company.ts:3-96 | a stored company sent back as a payload is acceptable |
| CompanyRoundTrip.BuildBack | models/company.ts:3-96 | building from a stored company's payload gives that company |
| CompanyRoundTrip.Revalidate | models/company.ts:3-96 | validation is a fixpoint on stored companies |
| CompanyRoundTrip.SizeBack | models/company.ts:27-31 | a stored size's name reads back as that size |
| CompanyRoundTrip.HiringBack | models/company.ts:36-40 | a stored hiring status's name reads back as it |
| CompanyRoundTrip.PriorityBack | models/company.ts:72-76 | a stored priority's name reads back as it |
| CompanyRoundTrip.StatusBack | models/company.ts:89-93 | a stored status's name reads back as it |
| JobModel.NamesParse | models/job.ts:21-63 | every value of the three Job value sets is recognised by its own name |
| JobModel.IssuesIffUnacceptable | models/job.ts:3-78 | no failed path exactly when the payload is acceptable path by path |
| JobModel.StatusOf | models/job.ts:21-37 | `status` is the sent value, or `Applied` when absent |
| JobModel.JobTypeOf | models/job.ts:42-46 | `jobType` is the sent value, or `Full-time` when absent |
| JobModel.SourceOf | models/job.ts:59-63 | `applicationSource` is the sent value, or `Company Website` when absent |
| JobModel.BuildStores | models/job.ts:3-78 | the stored job relates to the payload path by path |
| JobModel.ValidateJob | models/job.ts:3-78 | accepts exactly the acceptable payloads; an accepted one stores every path as sent or defaulted, `applicationDate` defaulting to the creation time; a rejected one reports at least one path |
| JobModel.BlankCompanyAccepted | models/job.ts:9-16 | a whitespace-only `company` and `position` are accepted and stored untrimmed |
| JobModel.Revalidate | models/job.ts:3-78 | validation is a fixpoint on stored jobs |
| JobModel.MinimalPayloadDefaults | models/job.ts:17-75 | owner, company and position alone get every default of the schema |
| UserModel.ValidateUser | models/user.ts:5-33 | accepts exactly when `email` is present and non-empty, the only failure being that path; other paths are stored as sent or `""`, `type` as `user` |
| UserModel.Revalidate | models/user.ts:3-34 | validation is a fixpoint on stored users |
| UserModel.MinimalPayloadDefaults | models/user.ts:10-29 | an email alone gets every default of the schema |
| Store.FreshId | app/api/company/create/route.ts:10 | a new document gets an identifier no stored document has |
| Store.AppendKeepsUnique | app/api/company/create/route.ts:10 | adding an unused identifier keeps identifiers distinct |
| Store.ListOwned | app/api/company/get/route.ts:15 | the owner's records, each as often as stored, none of any other owner, newest first |
| Store.ListOwnedExact | app/api/company/get/route.ts:15 | a record is listed exactly when it is stored under that owner |
| Store.ListOwnedNone | app/api/company/get/route.ts:15-17 | an owner without records gets an empty listing |
| Store.GetOwned | app/api/company/get/route.ts:5-22 | 500 with the reason when the connection throws; 400 `email is required` for a missing or empty email; else 200 with the owner's records, each as often as stored, newest first |
| CompanyRoutes.CreateCompany | app/api/company/create/route.ts:5-16 | 500 with the reason when the connection throws; 500 with the validation message and no change for a rejected payload; else 201 with the validated record, stored once under a fresh id |
| CompanyRoutes.CreateKeepsIdsUnique | app/api/company/create/route.ts:10 | creating keeps company identifiers distinct |
| CompanyRoutes.GetCompanies | app/api/company/get/route.ts:5-22 | the listing answers exactly the owner's companies, each as often as stored, newest first, or 400/500 |
| CompanyRoutes.NoCompaniesIsEmptyList | app/api/company/get/route.ts:15-17 | an owner without companies gets 200 with an empty list |
| CompanyRoutes.CreatedIsListedForSender | app/api/company/create/route.ts:8-10 | a created company is listed under the `userEmail` the caller sent |
| JobRoutes.CreateJob | app/api/jobs/create/route.ts:5-16 | 500 with the reason when the connection throws; 500 with the validation message and no change for a rejected payload; else 201 with the validated job, stored once under a fresh id |
| JobRoutes.CreateKeepsIdsUnique | app/api/jobs/create/route.ts:10 | creating keeps job identifiers distinct |
| JobRoutes.GetJobs | app/api/jobs/get/route.ts:5-22 | the listing answers exactly the owner's jobs, each as often as stored, newest first, or 400/500 |
| JobRoutes.NoJobsIsEmptyList | app/api/jobs/get/route.ts:15-17 | an owner without jobs gets 200 with an empty list |
| JobRoutes.CreatedIsListedForSender | app/api/jobs/create/route.ts:8-10 | a created job is listed under the `userEmail` the caller sent |
| Register.IsEmailMatchesPattern | app/api/register/route.ts:17-18 | the address check holds exactly when the address matches the pattern, stated as local part, `@`, domain, `.`, two or more letters |
| Register.NewUser | app/api/register/route.ts:44-53 | the new user has the sent email and name, the hashed password, `phone` or `""`, `gender` or `prefer-not-to-say`, `type` or `user`, and clock timestamps |
| Register.Precheck | app/api/register/route.ts:10-30 | a request passes exactly when the three fields are there, the address matches and the password has 8 or more characters; the first failing check names the answer |
| Register.Register | app/api/register/route.ts:6-68 | the checks answer 400 before the store is touched; a connection that throws answers 500; a registered address answers 400; otherwise exactly one user is appended and the answer is 201; every refusal leaves the users unchanged |
| Register.RegisterKeepsEmailsUnique | models/user.ts:5-9 | registering keeps user addresses distinct |
| Register.EightCharactersAccepted | app/api/register/route.ts:25-30 | a password of exactly 8 characters passes |
| Register.CallerChoosesAdmin | app/api/register/route.ts:51 | a caller that sends `type: admin` is stored as an admin |
| CompanyForm.CheckForm | components/main/common/CompanyTab.tsx:51-68 | the form passes exactly when the name is non-empty and both links are empty or URLs; each failing rule is reported |
| CompanyForm.BlankFormRejected | components/main/common/CompanyTab.tsx:105-122 | the untouched create form fails on the name alone |
| CompanyForm.Pieces | components/main/common/CompanyTab.tsx:163 | each piece between commas is trimmed and comma-free |
| CompanyForm.Normalise | components/main/common/CompanyTab.tsx:163-164 | the tokens are the non-empty trimmed pieces, in input order, duplicates kept |
| CompanyForm.NormaliseCounts | components/main/common/CompanyTab.tsx:163-164 | each non-empty piece is kept as often as it was typed; only blank pieces are dropped |
| CompanyForm.NormaliseClean | components/main/common/CompanyTab.tsx:163-164 | every token is non-empty, trimmed and comma-free |
| CompanyForm.NormaliseJoin | components/main/common/CompanyTab.tsx:231 | normalising the `join(', ')` of clean tokens gives them back |
| CompanyForm.NormaliseStable | components/main/common/CompanyTab.tsx:194-195 | normalising is idempotent through the edit form's join |
| CompanyForm.BlankPieceDropped | components/main/common/CompanyTab.tsx:164 | an empty piece between commas is dropped, the tokens around it kept in order |
| CompanyForm.RemoteAiStartup | components/main/common/CompanyTab.tsx:164 | `remote, ai, , startup` gives `remote`, `ai`, `startup` |
| CompanyForm.Payload | components/main/common/CompanyTab.tsx:160-165 | the request body sends clean lists and no leads; an empty date sends no date |
| CompanyForm.EditForm | components/main/common/CompanyTab.tsx:221-238 | the edit form shows the stored name, links, industry, headquarters, notes and flags verbatim; every select shows a name that parses back to the stored value; the platforms parse back to the stored ones; the lists are joined with `", "`; the date is the day text, or empty when there is none |
| CompanyForm.EditResubmits | components/main/common/CompanyTab.tsx:192-196 | submitting the edit form untouched sends back the stored record without owner and leads |
| CompanyForm.EditFormChecks | components/main/common/CompanyTab.tsx:221-238 | a stored company's edit form passes exactly when its links are empty or URLs |
| CompanyForm.CreateAcceptedIff | components/main/common/CompanyTab.tsx:160-165 | the server accepts a create body exactly when there is an owner, a name not all whitespace, and a recognised value in every select |
| CompanyForm.SpacesNamePassesFormOnly | components/main/common/CompanyTab.tsx:52 | a name of spaces passes the form but the server rejects it |
| CompanyForm.BlankDefaultsAccepted | components/main/common/CompanyTab.tsx:105-122 | the form's preset selects are accepted by the server |
| CompanyForm.CreateStoresNormalised | components/main/common/CompanyTab.tsx:160-165 | a create with an owner, a name and recognised selects is accepted, and stores the normalised lists and the dialog's owner |
| CompanyList.ApplyStep | components/main/common/CompanyTab.tsx:297-316 | a step keeps exactly the companies it lets through, as a subsequence |
| CompanyList.ApplyStepIsFilter | components/main/common/CompanyTab.tsx:297-316 | a step, run or skipped, is a filter by its keep predicate |
| CompanyList.ApplyStepsIsFilter | components/main/common/CompanyTab.tsx:295-317 | running steps in turn is one filter by their conjunction |
| CompanyList.ViewIsFilter | components/main/common/CompanyTab.tsx:294-318 | the shown list is the loaded list filtered by the combined keep predicate |
| CompanyList.AnyOrder | components/main/common/CompanyTab.tsx:295-317 | any order of the four steps, repeats allowed, shows the same list |
| CompanyList.KindsCover | components/main/common/CompanyTab.tsx:295-317 | passing every step of a sequence with all four kinds is passing the effect |
| CompanyList.StepKeepsShown | components/main/common/CompanyTab.tsx:297-315 | the effect keeps a company exactly when the query is blank or occurs case-insensitively in name or industry, and every select not `all` names its value |
| CompanyList.ViewExact | components/main/common/CompanyTab.tsx:295-317 | soundness and completeness: shown exactly when loaded and matching, as often as loaded, in loaded order |
| CompanyList.ViewIdempotent | components/main/common/CompanyTab.tsx:295-317 | filtering the shown list again changes nothing |
| CompanyList.NothingSelectedShowsAll | components/main/common/CompanyTab.tsx:295-317 | a blank query with every select on `all` shows the whole loaded list |
| CompanyList.IncludesFits | components/main/common/CompanyTab.tsx:300-301 | a query that occurs is no longer than the field |
| CompanyList.PaddingHides | components/main/common/CompanyTab.tsx:297-301 | a name as query finds the company; when the industry is no longer than the name, the same query with a space in front hides it |
| CompanyList.Prepend | components/main/common/CompanyTab.tsx:171 | the created company comes first, followed by the loaded list |
| CompanyList.ReplaceById | components/main/common/CompanyTab.tsx:202-206 | the length is kept; records with the id become the answer, the others stay in place |
| CompanyList.RemoveById | components/main/common/CompanyTab.tsx:253 | exactly the records without the id remain, in order |
| CompanyList.ViewPrepend | components/main/common/CompanyTab.tsx:171 | a created company is shown first exactly when the filters keep it; the rest is unchanged |
| CompanyList.ReplaceAbsent | components/main/common/CompanyTab.tsx:202-206 | editing a record that is not loaded changes nothing |
| CompanyList.RemoveAfterReplace | components/main/common/CompanyTab.tsx:202-206 | deleting after editing the same id is deleting |
| CompanyList.RemoveCounts | components/main/common/CompanyTab.tsx:253 | each record stays as often as loaded unless it has the deleted id |
| CompanyList.RemoveIdempotent | components/main/common/CompanyTab.tsx:253 | deleting twice is deleting once |
| CompanyList.ViewRemove | components/main/common/CompanyTab.tsx:253 | the shown list after a delete is the shown list without that record |

## Left out

- Get-by-id, `PATCH` and `DELETE` under `app/api/{company,jobs}/[id]` are not part of this model. Only the client's list updates after them are modelled.
- `pages/` and all rendering in `CompanyTab.tsx` are left out: dialogs, toasts, loading flags, the colour lookups and `formatDate`. They decide no record.
- `connectMongo`, Mongoose and MongoDB internals are left out. A connection that throws is `Store.Down`.
- A query or insert that throws after a successful connection is left out. The routes would answer 500 for it, but only at the point the query runs: after the email check in the get routes, after validation on create, after the prechecks in registration.
- A caller-sent `createdAt`/`updatedAt` is left out. `CompanyModel.CompanyInput` and `JobModel.JobInput` carry no timestamp paths, so the model always stamps the clock, while Mongoose keeps a `createdAt` that a new document already has.
- Unique-index races and save failures after validation are left out. Sort ties are kept in store order, while MongoDB leaves their order open.
- JSON parse failures of the request body (a 500) are left out.
- Explicit JSON `null` values and non-string JSON values are left out, and so is Mongoose's type casting of them. A payload path is either sent as text (or list, or flag) or absent.
- `Store.FreshId`: document identifiers are modelled as naturals one past the largest in use, not as ObjectIds.
- A caller-chosen `_id` in the body of `POST /api/{company,jobs}/create` is left out. Those routes hand the whole body to `create`. The model always picks `Store.FreshId`, so `CompanyRoutes.CreateKeepsIdsUnique` and `JobRoutes.CreateKeepsIdsUnique` rely on the caller not choosing the id. In the routes, a duplicate `_id` would make the insert fail with a 500. Registration builds the user from named fields only, so no `_id` reaches it.
- A JSON array as the body of `POST /api/{company,jobs}/create` is left out. `create` then inserts one document per element and answers 201 with the array. The model's payload is a single `CompanyInput` or `JobInput`, and `CompanyRoutes.CreateCompany` and `JobRoutes.CreateJob` store exactly one record.
- Lead subdocument `_id`s are left out.
- `CompanyModel.ValidateCompany`: failures inside arrays report the array path, not the element index Mongoose appends.
- `Schema.ValidationMessage`: the message text is only approximated. The contract states its prefix.
- `Text.Lower` lower-cases ASCII only, while JavaScript `toLowerCase` covers all of Unicode.
- `Text.Trim` works on code points, not UTF-16 units. String lengths are code-point counts too.
- `Register.Precheck` counts the password's length in code points, while JavaScript's `password.length` counts UTF-16 units. Four characters outside the Basic Multilingual Plane, emoji for example, pass the route's 8-character check but fail the model's. `Register.EightCharactersAccepted` inherits this.
- `Register.NewUser`: `bcrypt.hash` is an arbitrary function argument. Its salt and cost are left out.
- `CompanyForm.CheckForm`: zod's URL parser is a predicate argument.
- `CompanyForm.Payload`: turning the date text into a `Date` is a total function argument. An unparseable date, which Mongoose would reject, is not modelled.
- `CompanyForm.EditResubmits` assumes the stored date survives rendering as a day and reading back. `toISOString().split('T')[0]` drops the time of day, so in the code this holds only for dates at midnight UTC.
- `JobModel.ValidateJob`: `applicationDate` defaults to the `now` argument, as does the creation stamp. In Mongoose they are two separate reads of the clock.
- `Register.Register`: the route's log line is left out.
