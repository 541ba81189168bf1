/** TariffController: reading an owner's tariff and the upsert that edits
    it in place or creates it. */
module TariffControl {
  import opened Common
  import opened Entities
  import opened Seqs
  import opened Repositories
  import opened Http

  /** At most one tariff per owner, which findByOwnerId relies on. */
  ghost predicate OneTariffPerOwner(rows: seq<Tariff>)
  {
    forall i, j :: 0 <= i < j < |rows| ==> rows[i].ownerId != rows[j].ownerId
  }

  /** The existing tariff with the body's price and peak hours. */
  function Edited(ex: Tariff, body: Tariff): (e: Tariff)
    ensures e.id == ex.id && e.ownerId == ex.ownerId
    ensures e.pricePerKwh == body.pricePerKwh && e.peakStart == body.peakStart && e.peakEnd == body.peakEnd
  {
    ex.(pricePerKwh := body.pricePerKwh, peakStart := body.peakStart, peakEnd := body.peakEnd)
  }

  class TariffController {
    const tariffs: TariffRepository
    const users: UserRepository

    constructor (tariffs: TariffRepository, users: UserRepository)
      ensures this.tariffs == tariffs && this.users == users
    {
      this.tariffs := tariffs;
      this.users := users;
    }

    /** get: the owner's tariff, or none (a null body). */
    function Get(ownerId: Id): (r: Option<Tariff>)
      reads tariffs
      ensures r.Some? ==> r.value in tariffs.rows && r.value.ownerId == ownerId
      ensures r.None? <==> forall t :: t in tariffs.rows ==> t.ownerId != ownerId
    {
      tariffs.FindByOwnerId(ownerId)
    }

    /** upsert: 500 when the owner is unknown; otherwise the owner's tariff
        takes the body's price and peak hours, or, when there is none, the
        body is stored as the owner's new tariff. Afterwards get answers
        exactly what was saved. */
    method Upsert(ownerId: Id, body: Tariff) returns (resp: Response<Tariff>)
      requires tariffs.Valid()
      modifies tariffs
      ensures tariffs.Valid()
      ensures users.FindById(ownerId).None? ==> resp == Error(SERVER_ERROR, NO_MESSAGE) && unchanged(tariffs)
      ensures users.FindById(ownerId).Some? && old(tariffs.FindByOwnerId(ownerId)).Some? ==>
                var e := Edited(old(tariffs.FindByOwnerId(ownerId)).value, body);
                && resp == Ok(e)
                && |tariffs.rows| == |old(tariffs.rows)|
                && forall i :: 0 <= i < |tariffs.rows| ==>
                     tariffs.rows[i] == if old(tariffs.rows)[i].id == e.id then e else old(tariffs.rows)[i]
      ensures users.FindById(ownerId).Some? && old(tariffs.FindByOwnerId(ownerId)).None? ==>
                var saved := body.(id := old(tariffs.nextId), ownerId := ownerId);
                && resp == Ok(saved)
                && tariffs.rows == old(tariffs.rows) + [saved]
      ensures resp.Ok? ==> resp.body.ownerId == ownerId && Get(ownerId) == Some(resp.body)
      ensures OneTariffPerOwner(old(tariffs.rows)) ==> OneTariffPerOwner(tariffs.rows)
    {
      var u := users.FindById(ownerId);
      if u.None? {
        return Error(SERVER_ERROR, NO_MESSAGE);
      }
      var existing := tariffs.FindByOwnerId(ownerId);
      if existing.Some? {
        var e := Edited(existing.value, body);
        ghost var before := tariffs.rows;
        tariffs.Replace(e);
        ReplacedFirst(before, tariffs.rows, ownerId, e);
        resp := Ok(e);
      } else {
        ghost var before := tariffs.rows;
        var saved := tariffs.Insert(body.(ownerId := ownerId));
        AppendedFirst(before, ownerId, saved);
        resp := Ok(saved);
      }
    }
  }

  /** Replacing the owner's first tariff by an edit of it keeps it the
      owner's first tariff, and keeps owners unique. */
  lemma ReplacedFirst(rows: seq<Tariff>, after: seq<Tariff>, ownerId: Id, e: Tariff)
    requires forall i, j :: 0 <= i < j < |rows| ==> rows[i].id < rows[j].id
    requires TariffOf(rows, ownerId).Some?
    requires e.id == TariffOf(rows, ownerId).value.id && e.ownerId == ownerId
    requires |after| == |rows|
    requires forall i :: 0 <= i < |rows| ==> after[i] == if rows[i].id == e.id then e else rows[i]
    ensures TariffOf(after, ownerId) == Some(e)
    ensures OneTariffPerOwner(rows) ==> OneTariffPerOwner(after)
  {
    var k := FirstOwned(rows, ownerId);
    assert after[k] == e;
    forall j | 0 <= j < k ensures after[j].ownerId != ownerId {
      assert rows[j].id < rows[k].id;
    }
    assert FirstOwned(after, ownerId) == k;
    if OneTariffPerOwner(rows) {
      forall i, j | 0 <= i < j < |after| ensures after[i].ownerId != after[j].ownerId {
        assert rows[i].ownerId != rows[j].ownerId;
      }
    }
  }

  /** A tariff appended for an owner who had none becomes that owner's
      tariff, and keeps owners unique. */
  lemma AppendedFirst(rows: seq<Tariff>, ownerId: Id, saved: Tariff)
    requires TariffOf(rows, ownerId).None?
    requires saved.ownerId == ownerId
    ensures TariffOf(rows + [saved], ownerId) == Some(saved)
    ensures OneTariffPerOwner(rows) ==> OneTariffPerOwner(rows + [saved])
  {
    var after := rows + [saved];
    forall j | 0 <= j < |rows| ensures after[j].ownerId != ownerId {
      assert after[j] == rows[j];
    }
    assert after[|rows|] == saved;
    assert FirstOwned(after, ownerId) == |rows|;
  }
}
