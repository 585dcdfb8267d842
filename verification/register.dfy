/** `POST /api/register`: three checks on the request, then a duplicate check
    against the user collection, then the new User with its defaults. */
module Register {
  import opened Base
  import opened Text
  import opened Schema
  import opened Store
  import opened UserModel

  /** The request body; every field possibly absent. `kind` is the `type` field. */
  datatype Request = Request(
    email: Option<string>,
    password: Option<string>,
    name: Option<string>,
    phone: Option<string>,
    gender: Option<string>,
    kind: Option<string>)

  predicate IsAsciiLetter(c: char) { 'A' <= c <= 'Z' || 'a' <= c <= 'z' }
  predicate IsDigit(c: char) { '0' <= c <= '9' }

  /** `[A-Z0-9._%+-]` under the `i` flag. */
  predicate IsLocalChar(c: char) {
    IsAsciiLetter(c) || IsDigit(c) || c == '.' || c == '_' || c == '%' || c == '+' || c == '-'
  }

  /** `[A-Z0-9.-]` under the `i` flag. */
  predicate IsDomainChar(c: char) {
    IsAsciiLetter(c) || IsDigit(c) || c == '.' || c == '-'
  }

  predicate AllLocal(s: string) { forall i :: 0 <= i < |s| ==> IsLocalChar(s[i]) }
  predicate AllDomain(s: string) { forall i :: 0 <= i < |s| ==> IsDomainChar(s[i]) }
  predicate AllLetters(s: string) { forall i :: 0 <= i < |s| ==> IsAsciiLetter(s[i]) }

  /** `s` read as `local@domain.tld` with the `@` at `k` and the final dot at `j`. */
  ghost predicate EmailAt(s: string, k: int, j: int) {
    && 0 < k && k + 1 < j && j + 2 < |s|
    && s[k] == '@' && s[j] == '.'
    && AllLocal(s[..k]) && AllDomain(s[k + 1..j]) && AllLetters(s[j + 1..])
  }

  /** The language of `/^[A-Z0-9._%+-]+@[A-Z0-9.-]+\.[A-Z]{2,}$/i`: one or more
      local characters, `@`, one or more domain characters, a dot, and at least
      two letters. */
  ghost predicate MatchesEmailPattern(s: string) {
    exists k, j :: EmailAt(s, k, j)
  }

  /** The pattern test as a scan: the `@` must be the first one and the dot the
      last one, because neither the local part nor the letters after the dot
      can contain them. */
  function IsEmail(s: string): bool {
    var k := IndexOf(s, '@');
    var j := LastIndexOf(s, '.');
    && 0 < k && k + 1 < j && j + 2 < |s|
    && AllLocal(s[..k]) && AllDomain(s[k + 1..j]) && AllLetters(s[j + 1..])
  }

  lemma IsEmailMatchesPattern(s: string)
    ensures IsEmail(s) <==> MatchesEmailPattern(s)
  {
    var k := IndexOf(s, '@');
    var j := LastIndexOf(s, '.');
    if IsEmail(s) {
      assert EmailAt(s, k, j);
    }
    if MatchesEmailPattern(s) {
      var k', j' :| EmailAt(s, k', j');
      assert s[k'] in s && s[j'] in s;
      assert EmailAt(s, k, j);
    }
  }

  function Emails(users: seq<User>): (r: seq<string>)
    ensures |r| == |users| && forall i :: 0 <= i < |users| ==> r[i] == users[i].email
  {
    seq(|users|, i requires 0 <= i < |users| => users[i].email)
  }

  function UserId(u: User): Id { u.id }

  /** The document `new User({...})` builds for an admitted request: the
      password replaced by its hash, the absent or empty optional fields by
      their route-level fallbacks. */
  function NewUser(req: Request, hash: string -> string, id: Id, now: Time): (u: User)
    requires Truthy(req.email) && Truthy(req.password) && Truthy(req.name)
    ensures u.id == id && u.createdAt == now && u.updatedAt == now
    ensures u.email == req.email.value && u.name == req.name.value
    ensures u.password == hash(req.password.value)
    ensures u.phone == OrElse(req.phone, "")
    ensures u.gender == OrElse(req.gender, "prefer-not-to-say")
    ensures u.kind == OrElse(req.kind, "user")
  {
    var input := UserInput(req.email, req.name, Some(OrElse(req.phone, "")),
                           Some(OrElse(req.gender, "prefer-not-to-say")),
                           Some(hash(req.password.value)), Some(OrElse(req.kind, "user")));
    ValidateUser(input, id, now).value
  }

  /** Which check, if any, turns a request away before the store is consulted:
      the first of required fields, address format, password length that fails. */
  function Precheck(req: Request): (r: Option<string>)
    ensures r == None <==>
      Truthy(req.email) && Truthy(req.password) && Truthy(req.name)
      && IsEmail(req.email.value) && |req.password.value| >= 8
    ensures !(Truthy(req.email) && Truthy(req.password) && Truthy(req.name)) ==>
      r == Some("Missing required fields")
    ensures Truthy(req.email) && Truthy(req.password) && Truthy(req.name) && !MatchesEmailPattern(req.email.value) ==>
      r == Some("Invalid email format")
    ensures Truthy(req.email) && Truthy(req.password) && Truthy(req.name) && MatchesEmailPattern(req.email.value) ==>
      (|req.password.value| < 8 <==> r == Some("Password must be at least 8 characters"))
  {
    IsEmailMatchesPattern(req.email.GetOr(""));
    if !Truthy(req.email) || !Truthy(req.password) || !Truthy(req.name) then Some("Missing required fields")
    else if !IsEmail(req.email.value) then Some("Invalid email format")
    else if |req.password.value| < 8 then Some("Password must be at least 8 characters")
    else None
  }

  /** The handler. The three request checks run in order and answer 400
      before the store is touched; a down store answers 500 with its reason
      (or a fixed text when that is empty); an address already registered
      answers 400; otherwise one User is added and the answer is 201. */
  function Register(users: Store<User>, req: Request, hash: string -> string, now: Time): (r: (Response<User>, Store<User>))
    ensures Precheck(req).Some? ==> r == (Response(400, Message(Precheck(req).value)), users)
    ensures Precheck(req).None? && users.Down? ==>
      r == (Response(500, Message(OrElse(Some(users.reason), "Internal server error"))), users)
    ensures Precheck(req).None? && users.Up? && req.email.value in Emails(users.records) ==>
      r == (Response(400, Message("Email is already in use")), users)
    ensures Precheck(req).None? && users.Up? && req.email.value !in Emails(users.records) ==>
      && r.0 == Response(201, Message("User registered successfully"))
      && r.1.Up? && |r.1.records| == |users.records| + 1
      && r.1.records[..|users.records|] == users.records
      && r.1.records[|users.records|] == NewUser(req, hash, FreshId(Keys(users.records, UserId)), now)
  {
    if Precheck(req).Some? then (Response(400, Message(Precheck(req).value)), users)
    else
      match users
      case Down(reason) => (Response(500, Message(OrElse(Some(reason), "Internal server error"))), users)
      case Up(records) =>
        if req.email.value in Emails(records) then (Response(400, Message("Email is already in use")), users)
        else
          var u := NewUser(req, hash, FreshId(Keys(records, UserId)), now);
          assert (records + [u])[..|records|] == records;
          (Response(201, Message("User registered successfully")), Up(records + [u]))
  }

  ghost predicate UniqueEmails(users: seq<User>) {
    forall i, j :: 0 <= i < j < |users| ==> users[i].email != users[j].email
  }

  /** Registration keeps every address registered at most once. */
  lemma RegisterKeepsEmailsUnique(records: seq<User>, req: Request, hash: string -> string, now: Time)
    requires UniqueEmails(records)
    ensures Register(Up(records), req, hash, now).1.Up?
    ensures UniqueEmails(Register(Up(records), req, hash, now).1.records)
  {
    var after := Register(Up(records), req, hash, now).1;
    if Precheck(req).None? && req.email.value !in Emails(records) {
      var u := after.records[|records|];
      assert after.records == records + [u];
      forall i | 0 <= i < |records|
        ensures records[i].email != u.email
      {
        assert Emails(records)[i] == records[i].email;
      }
    }
  }

  /** A password of exactly eight characters passes the length check. */
  lemma EightCharactersAccepted(req: Request)
    requires Truthy(req.email) && Truthy(req.name) && IsEmail(req.email.value)
    requires req.password.Some? && |req.password.value| == 8
    ensures Precheck(req) == None
  {
  }

  /** The caller chooses the account type: a request with `type` "admin"
      creates an admin. */
  lemma CallerChoosesAdmin(records: seq<User>, req: Request, hash: string -> string, now: Time)
    requires Precheck(req).None? && req.email.value !in Emails(records)
    requires req.kind == Some("admin")
    ensures Register(Up(records), req, hash, now).1.records[|records|].kind == "admin"
  {
  }
}
