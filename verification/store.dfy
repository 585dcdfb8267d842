/** The document store as the route handlers see it, the HTTP responses they
    build, and the owner-scoped listing `find({ userEmail }).sort({ createdAt: -1 })`. */
module Store {
  import opened Base
  import opened Seqs

  /** A collection that is reachable and holds `records` in insertion order,
      or one whose connection attempt throws with `reason`. A query failing
      after a successful connection is not modelled. */
  datatype Store<T> = Down(reason: string) | Up(records: seq<T>)

  datatype Body<T> = Message(text: string) | Record(value: T) | Records(values: seq<T>)

  datatype Response<T> = Response(status: int, body: Body<T>)

  /** The largest identifier in use, or 0. */
  function MaxId(ids: seq<Id>): (m: Id)
    ensures forall i :: 0 <= i < |ids| ==> ids[i] <= m
    ensures |ids| > 0 ==> m in ids
  {
    if |ids| == 0 then 0
    else
      var rest := MaxId(ids[1..]);
      if |ids| > 1 && rest > ids[0] then rest else ids[0]
  }

  /** The identifier a new document gets: one no stored document has. */
  function FreshId(ids: seq<Id>): (r: Id)
    ensures r !in ids
  {
    MaxId(ids) + 1
  }

  ghost predicate Unique(ids: seq<Id>) {
    forall i, j :: 0 <= i < j < |ids| ==> ids[i] != ids[j]
  }

  /** The identifiers of the stored documents, in store order. */
  function Keys<T>(docs: seq<T>, key: T -> Id): (r: seq<Id>)
    ensures |r| == |docs| && forall i :: 0 <= i < |docs| ==> r[i] == key(docs[i])
  {
    seq(|docs|, i requires 0 <= i < |docs| => key(docs[i]))
  }

  lemma KeysAppend<T>(docs: seq<T>, x: T, key: T -> Id)
    ensures Keys(docs + [x], key) == Keys(docs, key) + [key(x)]
  {
  }

  /** Adding an identifier not yet in use keeps the identifiers distinct. */
  lemma AppendKeepsUnique(ids: seq<Id>, x: Id)
    requires Unique(ids) && x !in ids
    ensures Unique(ids + [x])
  {
  }

  /** The owner-scoped listing: the stored records whose owner is `email`,
      each as often as it is stored, newest `created` first. */
  function ListOwned<T(==,!new)>(records: seq<T>, email: string, owner: T -> string, created: T -> int): (r: seq<T>)
    ensures forall x :: multiset(r)[x] == if owner(x) == email then multiset(records)[x] else 0
    ensures SortedDesc(r, created)
  {
    var mine := x => owner(x) == email;
    FilterMultiset(records, mine);
    SortDesc(Filter(records, mine), created)
  }

  /** Only the owner's records are listed, and every one of them is. */
  lemma ListOwnedExact<T(!new)>(records: seq<T>, email: string, owner: T -> string, created: T -> int)
    ensures forall x :: x in ListOwned(records, email, owner, created) <==> x in records && owner(x) == email
  {
    var r := ListOwned(records, email, owner, created);
    forall x
      ensures x in r <==> x in records && owner(x) == email
    {
      assert x in r <==> multiset(r)[x] > 0;
      assert x in records <==> multiset(records)[x] > 0;
    }
  }

  /** An owner with no stored records gets an empty listing. */
  lemma ListOwnedNone<T(!new)>(records: seq<T>, email: string, owner: T -> string, created: T -> int)
    requires forall i :: 0 <= i < |records| ==> owner(records[i]) != email
    ensures ListOwned(records, email, owner, created) == []
  {
    ListOwnedExact(records, email, owner, created);
  }

  /** The `GET` handler shared by both collections: a down store answers 500
      with its reason before the query string is looked at; a missing or empty
      `email` answers 400; otherwise 200 with the owner's listing, each record
      as often as it is stored. */
  function GetOwned<T(==,!new)>(store: Store<T>, email: Option<string>, owner: T -> string, created: T -> int): (r: Response<T>)
    ensures store.Down? ==> r == Response(500, Message(store.reason))
    ensures store.Up? && !Truthy(email) ==> r == Response(400, Message("email is required"))
    ensures store.Up? && Truthy(email) ==>
      r.status == 200 && r.body.Records? && SortedDesc(r.body.values, created)
      && (forall x :: x in r.body.values <==> x in store.records && owner(x) == email.value)
      && (forall x :: multiset(r.body.values)[x] == if owner(x) == email.value then multiset(store.records)[x] else 0)
  {
    match store
    case Down(reason) => Response(500, Message(reason))
    case Up(records) =>
      if !Truthy(email) then Response(400, Message("email is required"))
      else
        ListOwnedExact(records, email.value, owner, created);
        Response(200, Records(ListOwned(records, email.value, owner, created)))
  }
}
