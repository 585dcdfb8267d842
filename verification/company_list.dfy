/** The Companies tab's client-side list (CompanyTab.tsx): the effect that
    derives the shown list from the loaded one by a search and three select
    filters, and the three updates the dialogs apply to the loaded list. */
module CompanyList {
  import opened Base
  import opened Text
  import opened Seqs
  import opened CompanyModel

  /** The search box and the three selects; a select set to `"all"` is off. */
  datatype Filters = Filters(search: string, status: string, priority: string, size: string)

  /** The four narrowing steps of the effect, in the order it runs them. */
  datatype Step = Search | ByStatus | ByPriority | BySize

  const Steps := [Search, ByStatus, ByPriority, BySize]

  /** Whether the effect runs step `k` at all. Search runs when the trimmed
      query is non-empty; a select runs unless it is `"all"`. */
  predicate Active(f: Filters, k: Step) {
    match k
    case Search => Trim(f.search) != ""
    case ByStatus => f.status != "all"
    case ByPriority => f.priority != "all"
    case BySize => f.size != "all"
  }

  /** What a running step asks of a company. The query is lower-cased but
      not trimmed; the selects compare the stored name exactly. */
  predicate Matches(f: Filters, k: Step, c: Company) {
    match k
    case Search =>
      Includes(Lower(c.companyName), Lower(f.search)) || Includes(Lower(c.industry), Lower(f.search))
    case ByStatus => c.status.Name() == f.status
    case ByPriority => c.priority.Name() == f.priority
    case BySize => c.companySize.Name() == f.size
  }

  function Matcher(f: Filters, k: Step): Company -> bool {
    c => Matches(f, k, c)
  }

  /** One step of the effect: `filter` when the step runs, the list itself when it does not. */
  function ApplyStep(xs: seq<Company>, f: Filters, k: Step): (r: seq<Company>)
    ensures IsSubsequence(r, xs)
    ensures forall c :: c in r <==> c in xs && StepKeeps(f, k, c)
  {
    if Active(f, k) then Filter(xs, Matcher(f, k))
    else
      assert IsSubsequence(xs, xs) by { SubsequenceRefl(xs); }
      xs
  }

  /** A company survives step `k`: the step is off, or the company matches it. */
  predicate StepKeeps(f: Filters, k: Step, c: Company) {
    !Active(f, k) || Matches(f, k, c)
  }

  function Keeper(f: Filters, k: Step): Company -> bool {
    c => StepKeeps(f, k, c)
  }

  /** The effect: the four steps, in source order, on a copy of the loaded list. */
  function View(xs: seq<Company>, f: Filters): seq<Company> {
    ApplySteps(xs, f, Steps)
  }

  /** The steps `ks`, first to last. */
  function ApplySteps(xs: seq<Company>, f: Filters, ks: seq<Step>): seq<Company>
    decreases |ks|
  {
    if |ks| == 0 then xs else ApplySteps(ApplyStep(xs, f, ks[0]), f, ks[1..])
  }

  /** A company survives every step of `ks`. */
  predicate AllKeep(f: Filters, ks: seq<Step>, c: Company)
    decreases |ks|
  {
    |ks| == 0 || (StepKeeps(f, ks[0], c) && AllKeep(f, ks[1..], c))
  }

  function AllKeeper(f: Filters, ks: seq<Step>): Company -> bool {
    c => AllKeep(f, ks, c)
  }

  /** A company the effect shows. */
  predicate Keeps(f: Filters, c: Company) {
    AllKeep(f, Steps, c)
  }

  function KeepFn(f: Filters): Company -> bool {
    c => Keeps(f, c)
  }

  /** Reference meaning of the filters, independent of the step structure:
      the query is blank or occurs, ignoring ASCII case, in the name or the
      industry, and every select that is not `"all"` names the company's value. */
  ghost predicate Shown(f: Filters, c: Company) {
    && (AllSpace(f.search)
        || IsSubstring(Lower(f.search), Lower(c.companyName))
        || IsSubstring(Lower(f.search), Lower(c.industry)))
    && (f.status == "all" || c.status.Name() == f.status)
    && (f.priority == "all" || c.priority.Name() == f.priority)
    && (f.size == "all" || c.companySize.Name() == f.size)
  }

  lemma {:induction false} SubsequenceRefl<T>(xs: seq<T>)
    ensures IsSubsequence(xs, xs)
  {
    if |xs| > 0 {
      SubsequenceRefl(xs[1..]);
    }
  }

  /** A step, run or skipped, is a filter with the step's own keep predicate. */
  lemma ApplyStepIsFilter(xs: seq<Company>, f: Filters, k: Step)
    ensures ApplyStep(xs, f, k) == Filter(xs, Keeper(f, k))
  {
    if Active(f, k) {
      FilterExt(xs, Matcher(f, k), Keeper(f, k));
    } else {
      FilterAll(xs, Keeper(f, k));
    }
  }

  /** Running steps one after another is one filter by their conjunction. */
  lemma {:induction false} ApplyStepsIsFilter(xs: seq<Company>, f: Filters, ks: seq<Step>)
    ensures ApplySteps(xs, f, ks) == Filter(xs, AllKeeper(f, ks))
    decreases |ks|
  {
    if |ks| == 0 {
      FilterAll(xs, AllKeeper(f, ks));
    } else {
      var ys := ApplyStep(xs, f, ks[0]);
      ApplyStepsIsFilter(ys, f, ks[1..]);
      ApplyStepIsFilter(xs, f, ks[0]);
      FilterFuse(xs, Keeper(f, ks[0]), AllKeeper(f, ks[1..]), AllKeeper(f, ks));
    }
  }

  /** The shown list is the loaded list filtered by `Keeps`. */
  lemma ViewIsFilter(xs: seq<Company>, f: Filters)
    ensures View(xs, f) == Filter(xs, KeepFn(f))
  {
    ApplyStepsIsFilter(xs, f, Steps);
    FilterExt(xs, AllKeeper(f, Steps), KeepFn(f));
  }

  /** Surviving every step of `ks` is surviving every kind of step `ks` contains. */
  lemma {:induction false} AllKeepKinds(f: Filters, ks: seq<Step>, c: Company)
    ensures AllKeep(f, ks, c) <==> forall i :: 0 <= i < |ks| ==> StepKeeps(f, ks[i], c)
    decreases |ks|
  {
    if |ks| > 0 {
      AllKeepKinds(f, ks[1..], c);
      assert forall i :: 1 <= i < |ks| ==> ks[i] == ks[1..][i - 1];
    }
  }

  /** The steps commute: any sequence of steps that runs each of the four
      kinds at least once, in any order and with repeats, shows the same list. */
  lemma AnyOrder(xs: seq<Company>, f: Filters, ks: seq<Step>)
    requires Search in ks && ByStatus in ks && ByPriority in ks && BySize in ks
    ensures ApplySteps(xs, f, ks) == View(xs, f)
  {
    ApplyStepsIsFilter(xs, f, ks);
    ViewIsFilter(xs, f);
    forall c
      ensures AllKeeper(f, ks)(c) == KeepFn(f)(c)
    {
      KindsCover(f, ks, c);
    }
    FilterExt(xs, AllKeeper(f, ks), KeepFn(f));
  }

  lemma KindsCover(f: Filters, ks: seq<Step>, c: Company)
    requires Search in ks && ByStatus in ks && ByPriority in ks && BySize in ks
    ensures AllKeep(f, ks, c) <==> Keeps(f, c)
  {
    AllKeepKinds(f, ks, c);
    AllKeepKinds(f, Steps, c);
    var every := StepKeeps(f, Search, c) && StepKeeps(f, ByStatus, c)
      && StepKeeps(f, ByPriority, c) && StepKeeps(f, BySize, c);
    assert Steps[0] == Search && Steps[1] == ByStatus && Steps[2] == ByPriority && Steps[3] == BySize;
    assert Keeps(f, c) == every;
    if every {
      forall i | 0 <= i < |ks|
        ensures StepKeeps(f, ks[i], c)
      {
        match ks[i]
        case Search =>
        case ByStatus =>
        case ByPriority =>
        case BySize =>
      }
    }
  }

  /** `includes` through `toLowerCase` is case-insensitive occurrence. */
  lemma StepKeepsShown(f: Filters, c: Company)
    ensures Keeps(f, c) <==> Shown(f, c)
  {
    AllKeepKinds(f, Steps, c);
    IncludesIsSubstring(Lower(c.companyName), Lower(f.search));
    IncludesIsSubstring(Lower(c.industry), Lower(f.search));
    assert Steps[0] == Search && Steps[1] == ByStatus && Steps[2] == ByPriority && Steps[3] == BySize;
  }

  /** Soundness and completeness: a company is shown exactly when it is
      loaded and `Shown`, as often as it is loaded, in loaded order. */
  lemma ViewExact(xs: seq<Company>, f: Filters)
    ensures forall c :: c in View(xs, f) <==> c in xs && Shown(f, c)
    ensures forall c :: multiset(View(xs, f))[c] == if Shown(f, c) then multiset(xs)[c] else 0
    ensures IsSubsequence(View(xs, f), xs)
  {
    ViewIsFilter(xs, f);
    FilterMultiset(xs, KeepFn(f));
    forall c
      ensures Keeps(f, c) <==> Shown(f, c)
    {
      StepKeepsShown(f, c);
    }
  }

  /** Filtering the shown list again changes nothing. */
  lemma ViewIdempotent(xs: seq<Company>, f: Filters)
    ensures View(View(xs, f), f) == View(xs, f)
  {
    ViewIsFilter(xs, f);
    ViewIsFilter(View(xs, f), f);
    FilterIdempotent(xs, KeepFn(f));
  }

  /** A blank or whitespace-only query with every select on `"all"` shows the whole loaded list. */
  lemma NothingSelectedShowsAll(xs: seq<Company>, search: string)
    requires AllSpace(search)
    ensures View(xs, Filters(search, "all", "all", "all")) == xs
  {
    var f := Filters(search, "all", "all", "all");
    ViewIsFilter(xs, f);
    forall i | 0 <= i < |xs|
      ensures KeepFn(f)(xs[i])
    {
      StepKeepsShown(f, xs[i]);
    }
    FilterAll(xs, KeepFn(f));
  }

  lemma IncludesFits(hay: string, needle: string)
    requires Includes(hay, needle)
    ensures |needle| <= |hay|
  {
    IncludesIsSubstring(hay, needle);
  }

  /** Spaces around a query take part in the match: a company whose name is
      the query is found, yet the same query padded with a space hides it
      when the industry is no longer than the name. */
  lemma PaddingHides(xs: seq<Company>, c: Company)
    requires c in xs && !AllSpace(c.companyName) && |c.industry| <= |c.companyName|
    ensures c in View(xs, Filters(c.companyName, "all", "all", "all"))
    ensures c !in View(xs, Filters(" " + c.companyName, "all", "all", "all"))
  {
    var f := Filters(c.companyName, "all", "all", "all");
    var g := Filters(" " + c.companyName, "all", "all", "all");
    ViewIsFilter(xs, f);
    ViewIsFilter(xs, g);
    AllKeepKinds(f, Steps, c);
    AllKeepKinds(g, Steps, c);
    assert Steps[0] == Search;
    assert StartsWith(Lower(c.companyName), Lower(c.companyName));
    assert Matches(f, Search, c);
    if Includes(Lower(c.companyName), Lower(g.search)) {
      IncludesFits(Lower(c.companyName), Lower(g.search));
    }
    if Includes(Lower(c.industry), Lower(g.search)) {
      IncludesFits(Lower(c.industry), Lower(g.search));
    }
    assert Trim(g.search) != "" by {
      assert !AllSpace(g.search) by {
        var i :| 0 <= i < |c.companyName| && !IsSpace(c.companyName[i]);
        assert g.search[i + 1] == c.companyName[i];
      }
    }
    assert !StepKeeps(g, Search, c);
  }

  /** The create dialog's update: the new record goes in front. */
  function Prepend(xs: seq<Company>, c: Company): (r: seq<Company>)
    ensures |r| == |xs| + 1 && r[0] == c && r[1..] == xs
  {
    [c] + xs
  }

  /** The edit dialog's update: every loaded record with the edited id is
      replaced by the server's answer; the others stay where they are. */
  function ReplaceById(xs: seq<Company>, id: Id, u: Company): (r: seq<Company>)
    ensures |r| == |xs|
    ensures forall i :: 0 <= i < |xs| && xs[i].id != id ==> r[i] == xs[i]
    ensures forall i :: 0 <= i < |xs| && xs[i].id == id ==> r[i] == u
  {
    if |xs| == 0 then []
    else [if xs[0].id == id then u else xs[0]] + ReplaceById(xs[1..], id, u)
  }

  function NotId(id: Id): Company -> bool {
    (c: Company) => c.id != id
  }

  /** The delete dialog's update: `filter` on a different id. */
  function RemoveById(xs: seq<Company>, id: Id): (r: seq<Company>)
    ensures forall c :: c in r <==> c in xs && c.id != id
    ensures IsSubsequence(r, xs)
  {
    Filter(xs, NotId(id))
  }

  /** A new record is shown in front exactly when the filters keep it; the
      rest of the shown list is unchanged. */
  lemma ViewPrepend(xs: seq<Company>, c: Company, f: Filters)
    ensures View(Prepend(xs, c), f) == (if Keeps(f, c) then [c] else []) + View(xs, f)
  {
    ViewIsFilter(Prepend(xs, c), f);
    ViewIsFilter(xs, f);
    FilterCons(c, xs, KeepFn(f));
  }

  /** Editing a record that is not loaded leaves the list as it is. */
  lemma {:induction false} ReplaceAbsent(xs: seq<Company>, id: Id, u: Company)
    requires forall i :: 0 <= i < |xs| ==> xs[i].id != id
    ensures ReplaceById(xs, id, u) == xs
  {
    if |xs| > 0 {
      ReplaceAbsent(xs[1..], id, u);
    }
  }

  /** Deleting after editing is deleting: the edit touched only that id. */
  lemma {:induction false} RemoveAfterReplace(xs: seq<Company>, id: Id, u: Company)
    requires u.id == id
    ensures RemoveById(ReplaceById(xs, id, u), id) == RemoveById(xs, id)
  {
    if |xs| > 0 {
      RemoveAfterReplace(xs[1..], id, u);
      var head := if xs[0].id == id then u else xs[0];
      FilterCons(head, ReplaceById(xs[1..], id, u), NotId(id));
      FilterCons(xs[0], xs[1..], NotId(id));
      assert xs == [xs[0]] + xs[1..];
    }
  }

  /** Each loaded record stays as often as it was loaded, unless it has the deleted id. */
  lemma RemoveCounts(xs: seq<Company>, id: Id)
    ensures forall c :: multiset(RemoveById(xs, id))[c] == if c.id != id then multiset(xs)[c] else 0
  {
    FilterMultiset(xs, NotId(id));
  }

  /** Deleting twice is deleting once. */
  lemma RemoveIdempotent(xs: seq<Company>, id: Id)
    ensures RemoveById(RemoveById(xs, id), id) == RemoveById(xs, id)
  {
    FilterIdempotent(xs, NotId(id));
  }

  /** The shown list after a delete is the shown list with that record taken out. */
  lemma ViewRemove(xs: seq<Company>, id: Id, f: Filters)
    ensures View(RemoveById(xs, id), f) == RemoveById(View(xs, f), id)
  {
    ViewIsFilter(RemoveById(xs, id), f);
    ViewIsFilter(xs, f);
    FilterCommute(xs, NotId(id), KeepFn(f));
  }
}
