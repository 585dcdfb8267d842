/** The parts of Mongoose document validation the three schemas use:
    `required` String paths, `enum` paths, literal defaults, and the
    `ValidationError` that collects every failed path. */
module Schema {
  import opened Base
  import opened Text

  /** One failed path of a document validation. */
  datatype Issue = Required(path: string) | NotInEnum(path: string, value: string)

  function RequiredIssues(path: string, v: Option<string>): (r: seq<Issue>)
    ensures r == [] <==> Truthy(v)
    ensures r != [] ==> r == [Required(path)]
  {
    if Truthy(v) then [] else [Required(path)]
  }

  /** An `enum` path accepts an absent value (the default applies) or a listed literal. */
  function EnumIssues(path: string, v: Option<string>, allowed: string -> bool): (r: seq<Issue>)
    ensures r == [] <==> (v.Some? ==> allowed(v.value))
    ensures r != [] ==> r == [NotInEnum(path, v.value)]
  {
    if v.Some? && !allowed(v.value) then [NotInEnum(path, v.value)] else []
  }

  /** The `enum` check of a `[String]` path, applied to each element: one issue
      per element outside the value set, in order. */
  function EachEnumIssues(path: string, vs: seq<string>, allowed: string -> bool): (r: seq<Issue>)
    ensures r == [] <==> forall i :: 0 <= i < |vs| ==> allowed(vs[i])
    ensures |r| <= |vs|
  {
    if |vs| == 0 then []
    else EnumIssues(path, Some(vs[0]), allowed) + EachEnumIssues(path, vs[1..], allowed)
  }

  /** An absent text path defaults to `""`; a sent one is kept verbatim. */
  predicate TextOrEmpty(sent: Option<string>, stored: string) {
    stored == if sent.Some? then sent.value else ""
  }

  /** An enum path stores the literal sent, or the default literal when absent. */
  predicate NameOrDefault(sent: Option<string>, stored: string, default: string) {
    stored == if sent.Some? then sent.value else default
  }

  function IssueText(i: Issue): string {
    match i
    case Required(p) => p + ": Path `" + p + "` is required."
    case NotInEnum(p, v) => p + ": `" + v + "` is not a valid enum value for path `" + p + "`."
  }

  function IssueTexts(issues: seq<Issue>): (r: seq<string>)
    ensures |r| == |issues|
    ensures forall i :: 0 <= i < |issues| ==> r[i] == IssueText(issues[i])
  {
    if |issues| == 0 then [] else [IssueText(issues[0])] + IssueTexts(issues[1..])
  }

  /** The `message` of the `ValidationError` a failed `save` throws: the model
      name, then every failed path with its reason. */
  function ValidationMessage(model: string, issues: seq<Issue>): (r: string)
    ensures StartsWith(r, model + " validation failed: ")
  {
    var head := model + " validation failed: ";
    assert (head + Join(IssueTexts(issues), ", "))[..|head|] == head;
    head + Join(IssueTexts(issues), ", ")
  }
}
