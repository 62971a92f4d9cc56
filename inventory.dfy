/**
 * The inventory state controller (`useInventory`): the session's list of
 * records with its `loading` and `error` fields. Each operation receives the
 * result the persistence service gave it and updates the fields.
 */
module Inventory {

  import opened Common
  import opened Seqs
  import opened AssetSchema
  import opened AsyncResults

  /** `prev.map(a => a.id === id ? updated : a)`: every record with the id becomes `u`, the others stay. */
  function Replaced(s: seq<Asset>, id: string, u: Asset): (r: seq<Asset>)
    ensures |r| == |s|
    ensures forall i :: 0 <= i < |s| && s[i].id == id ==> r[i] == u
    ensures forall i :: 0 <= i < |s| && s[i].id != id ==> r[i] == s[i]
    decreases |s|
  {
    if s == [] then [] else [if s[0].id == id then u else s[0]] + Replaced(s[1..], id, u)
  }

  /** `prev.filter(a => a.id !== id)`: every record with the id removed, every occurrence of the others kept in order. */
  function Removed(s: seq<Asset>, id: string): (r: seq<Asset>)
    ensures IsSubsequence(r, s)
    ensures forall a :: a in r ==> a.id != id
    ensures forall a :: a in s && a.id != id ==> a in r
    ensures forall a :: multiset(r)[a] == if a.id != id then multiset(s)[a] else 0
  {
    var keep := (a: Asset) => a.id != id;
    FilterIsSubsequence(s, keep);
    forall a ensures multiset(Filter(s, keep))[a] == if a.id != id then multiset(s)[a] else 0 {
      FilterCount(s, keep, a);
    }
    assert forall a :: a in s && a.id != id ==> a in Filter(s, keep) by {
      forall a | a in s && a.id != id ensures a in Filter(s, keep) {
        FilterComplete(s, keep, a);
      }
    }
    Filter(s, keep)
  }

  /** Updating or deleting an id that no record carries leaves the list as it is. */
  lemma MissingIdChangesNothing(s: seq<Asset>, id: string, u: Asset)
    requires forall a :: a in s ==> a.id != id
    ensures Replaced(s, id, u) == s
    ensures Removed(s, id) == s
  {
    FilterKeepsAll(s, (a: Asset) => a.id != id);
  }

  /** When the new record keeps the id, an update changes no record's id and no record's position. */
  lemma ReplacedKeepsIds(s: seq<Asset>, id: string, u: Asset)
    requires u.id == id
    ensures forall i :: 0 <= i < |s| ==> Replaced(s, id, u)[i].id == s[i].id
    ensures Removed(Replaced(s, id, u), id) == Removed(s, id)
  {
    ReplacedFiltersAlike(s, id, u);
  }

  /** The delete's filter cannot tell a list from its update by a record that keeps the id. */
  lemma {:induction false} ReplacedFiltersAlike(s: seq<Asset>, id: string, u: Asset)
    requires u.id == id
    ensures Filter(Replaced(s, id, u), (a: Asset) => a.id != id) == Filter(s, (a: Asset) => a.id != id)
    decreases |s|
  {
    if s != [] {
      ReplacedFiltersAlike(s[1..], id, u);
      var r := Replaced(s, id, u);
      assert r == [r[0]] + Replaced(s[1..], id, u);
      assert r[1..] == Replaced(s[1..], id, u);
    }
  }

  class InventoryState {

    var assets: seq<Asset>
    var loading: bool
    var error: Option<string>

    /** The state before the first load: no records, loading, no error. */
    constructor ()
      ensures assets == [] && loading && error == None
    {
      assets := [];
      loading := true;
      error := None;
    }

    /**
     * `refreshAssets()` with `response` from `getAssets`: on failure the
     * message becomes the error and the list is emptied; on success the list
     * is the response and the error is cleared. Loading ends false.
     */
    method RefreshAssets(response: AsyncResult<seq<Asset>>)
      modifies this
      ensures !loading
      ensures response.Failed? ==> error == Some(response.error.message) && assets == []
      ensures response.Fulfilled? ==> error == None && assets == response.data
    {
      loading := if loading then loading else true;
      error := None;
      match response.Err() {
        case Some(err) =>
          error := Some(err.message);
          assets := [];
        case None =>
          assets := response.data;
      }
      loading := false;
    }

    /**
     * `addAsset(input)` with `response` from `saveAsset`: on success the
     * returned record is appended, earlier records unchanged, the error
     * cleared, and it answers true; on failure the list is unchanged, the
     * message becomes the error, and it answers false. Loading ends false.
     */
    method AddAsset(response: AsyncResult<Asset>) returns (ok: bool)
      modifies this
      ensures ok <==> response.Fulfilled?
      ensures !loading
      ensures ok ==> assets == old(assets) + [response.data] && error == None
      ensures !ok ==> assets == old(assets) && error == Some(response.error.message)
    {
      loading := true;
      error := None;
      if response.Err().Some? {
        error := Some(response.error.message);
        loading := false;
        return false;
      }
      assets := assets + [response.data];
      loading := false;
      return true;
    }

    /**
     * `updateAsset(id, updates)` with `response` from the service's update
     * (`None` data when it resolved without a record): on success every record
     * with the id is replaced by the returned one and it answers true; on
     * failure the list is unchanged, the message becomes the error and it
     * answers false. Neither path touches `loading`; success keeps the old error.
     */
    method UpdateAsset(id: string, response: AsyncResult<Option<Asset>>) returns (ok: bool)
      modifies this
      ensures loading == old(loading)
      ensures ok <==> response.Fulfilled?
      ensures ok ==> error == old(error)
      ensures ok && response.data.Some? ==> assets == Replaced(old(assets), id, response.data.value)
      ensures ok && response.data.None? ==> assets == old(assets)
      ensures !ok ==> assets == old(assets) && error == Some(response.error.message)
    {
      if response.Err().Some? {
        error := Some(response.error.message);
        return false;
      }
      if response.data.Some? {
        assets := Replaced(assets, id, response.data.value);
      }
      return true;
    }

    /**
     * `deleteAsset(id)` with `response` from the service's delete: on success
     * every record with the id is removed and it answers true; on failure the
     * list is unchanged, the message becomes the error and it answers false.
     * Neither path touches `loading`; success keeps the old error.
     */
    method DeleteAsset<D>(id: string, response: AsyncResult<D>) returns (ok: bool)
      modifies this
      ensures loading == old(loading)
      ensures ok <==> response.Fulfilled?
      ensures ok ==> error == old(error) && assets == Removed(old(assets), id)
      ensures !ok ==> assets == old(assets) && error == Some(response.error.message)
    {
      if response.Err().Some? {
        error := Some(response.error.message);
        return false;
      }
      assets := Removed(assets, id);
      return true;
    }
  }

  /**
   * A session as a client sees it: load an empty store, add a record, change
   * its status to maintenance, delete it.
   */
  method SessionScenario(a: Asset)
  {
    var inventory := new InventoryState();
    inventory.RefreshAssets(Fulfilled([]));
    assert inventory.assets == [] && !inventory.loading;
    var added := inventory.AddAsset(Fulfilled(a));
    assert added && inventory.assets == [a] && inventory.error == None;
    var changed := a.(status := Maintenance);
    var updated := inventory.UpdateAsset(a.id, Fulfilled(Some(changed)));
    assert updated && |inventory.assets| == 1 && inventory.assets[0].status == Maintenance;
    assert inventory.assets == [changed];
    var deleted := inventory.DeleteAsset(a.id, Fulfilled(true));
    assert deleted && changed !in inventory.assets && inventory.assets == [];
  }
}
