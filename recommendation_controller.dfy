/** RecommendationController: the owner's most recent recommendations,
    optionally of one status, a page at a time; the status change (an
    endpoint no page of the frontend calls); and deletion. */
module RecommendationControl {
  import opened Common
  import opened JavaStrings
  import opened Entities
  import opened Seqs
  import opened Repositories
  import opened Http

  const DEFAULT_LIMIT: int := 100
  const MAX_LIMIT: int := 200
  const NOT_FOUND_MESSAGE: string := "Recommendation not found"

  /** Math.min(Math.max(limit, 1), 200). */
  function ClampLimit(limit: int): (n: int)
    ensures 1 <= n <= MAX_LIMIT
    ensures 1 <= limit <= MAX_LIMIT ==> n == limit
    ensures limit < 1 ==> n == 1
    ensures limit > MAX_LIMIT ==> n == MAX_LIMIT
  {
    var atLeastOne := if limit > 1 then limit else 1;
    if atLeastOne < MAX_LIMIT then atLeastOne else MAX_LIMIT
  }

  /** The status a list request filters on: none for an absent or blank
      status or for "ALL" in any letter case, otherwise the status in
      upper case. */
  function Wanted(status: Option<string>): (w: Option<string>)
    ensures w.None? <==> status.None? || IsBlank(status.value) || EqualsIgnoreCase(status.value, "ALL")
    ensures w.Some? ==> w.value == ToUpperCase(status.value) && w.value != "ALL"
  {
    if status.None? || IsBlank(status.value) || EqualsIgnoreCase(status.value, "ALL") then None
    else Some(ToUpperCase(status.value))
  }

  predicate Listed(x: Recommendation, ownerId: Id, wanted: Option<string>)
  {
    x.ownerId == ownerId && (wanted.Some? ==> x.status == wanted.value)
  }

  function CreatedKey(x: Recommendation): real
  {
    x.createdAt as real
  }

  /** The rows a list request selects before ordering and paging. */
  function Matching(rows: seq<Recommendation>, ownerId: Id, wanted: Option<string>): (m: seq<Recommendation>)
    ensures forall x :: x in m <==> x in rows && Listed(x, ownerId, wanted)
    ensures forall x :: multiset(m)[x] == if Listed(x, ownerId, wanted) then multiset(rows)[x] else 0
  {
    var p := (x: Recommendation) => Listed(x, ownerId, wanted);
    FilterMembershipAll(rows, p);
    Filter(rows, p)
  }

  class RecommendationController {
    const recos: RecommendationRepository

    constructor (recos: RecommendationRepository)
      ensures this.recos == recos
    {
      this.recos := recos;
    }

    /** list: the owner's recommendations of the wanted status, newest
        first, at most ClampLimit(limit) of them; every matching row left
        out is no newer than any row returned. */
    function List(ownerId: Id, status: Option<string>, limit: int): (r: seq<Recommendation>)
      reads recos
      ensures var m := Matching(recos.rows, ownerId, Wanted(status));
              |r| == if |m| < ClampLimit(limit) then |m| else ClampLimit(limit)
      ensures multiset(r) <= multiset(Matching(recos.rows, ownerId, Wanted(status)))
      ensures forall x :: x in r ==> x in recos.rows && Listed(x, ownerId, Wanted(status))
      ensures SortedDesc(r, CreatedKey)
      ensures forall x, i :: x in Matching(recos.rows, ownerId, Wanted(status)) && x !in r && 0 <= i < |r| ==>
                x.createdAt <= r[i].createdAt
    {
      var m := Matching(recos.rows, ownerId, Wanted(status));
      var r := TopDesc(m, CreatedKey, ClampLimit(limit));
      forall x | x in r ensures x in recos.rows && Listed(x, ownerId, Wanted(status)) {
        assert x in multiset(m);
      }
      r
    }

    /** updateStatus: 404 when the id is unknown; otherwise the row's status
        becomes the given one in upper case and nothing else changes. */
    method UpdateStatus(id: Id, status: string) returns (resp: Response<Recommendation>)
      requires recos.Valid()
      modifies recos
      ensures recos.Valid()
      ensures old(recos.FindById(id)).None? ==> resp == Error(NOT_FOUND, NOT_FOUND_MESSAGE) && unchanged(recos)
      ensures old(recos.FindById(id)).Some? ==>
                var updated := old(recos.FindById(id)).value.(status := ToUpperCase(status));
                && resp == Ok(updated)
                && |recos.rows| == |old(recos.rows)|
                && forall i :: 0 <= i < |recos.rows| ==>
                     recos.rows[i] == if old(recos.rows)[i].id == id then updated else old(recos.rows)[i]
    {
      var found := recos.FindById(id);
      if found.None? {
        return Error(NOT_FOUND, NOT_FOUND_MESSAGE);
      }
      var updated := found.value.(status := ToUpperCase(status));
      recos.Replace(updated);
      resp := Ok(updated);
    }

    /** delete: the row with that id, if any, is removed; the answer is
        always an empty success. */
    method Delete(id: Id) returns (resp: Response<()>)
      requires recos.Valid()
      modifies recos
      ensures recos.Valid()
      ensures resp == Ok(())
      ensures forall x :: x in recos.rows <==> x in old(recos.rows) && x.id != id
    {
      recos.DeleteById(id);
      resp := Ok(());
    }
  }
}
