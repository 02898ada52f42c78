/**
 * The mobile app's design slice: the user's custom designs, the design being edited, a loading flag
 * and an error message. Every thunk shares the same pending and rejected cases.
 */
module MobileDesignSlice {
  import opened Wrappers
  import opened SliceLists

  /** The fields of a custom design; its `designParameters` object is carried by the app but never read here. */
  datatype CustomDesign = CustomDesign(id: string, userId: string, productId: string, previewUrl: string, createdAt: nat)

  function DesignId(d: CustomDesign): string {
    d.id
  }

  class DesignSlice {
    var designs: seq<CustomDesign>
    var currentDesign: Option<CustomDesign>
    var loading: bool
    var error: Option<string>

    /** The initial state. */
    constructor ()
      ensures designs == [] && currentDesign == None && !loading && error == None
    {
      designs := [];
      currentDesign := None;
      loading := false;
      error := None;
    }

    /** `setCurrentDesign`: only the current design changes (to a design or to `null`). */
    method SetCurrentDesign(d: Option<CustomDesign>)
      modifies this
      ensures currentDesign == d
      ensures designs == old(designs) && loading == old(loading) && error == old(error)
    {
      currentDesign := d;
    }

    /** The pending case of every design thunk. */
    method Pending()
      modifies this
      ensures loading && error == None
      ensures designs == old(designs) && currentDesign == old(currentDesign)
    {
      loading := true;
      error := None;
    }

    /** The rejected case of every design thunk: the payload is the thunk's fixed message. */
    method Rejected(payload: string)
      modifies this
      ensures !loading && error == Some(payload)
      ensures designs == old(designs) && currentDesign == old(currentDesign)
    {
      loading := false;
      error := Some(payload);
    }

    /** Create-fulfilled: the new design is appended and becomes the current one. */
    method CreateFulfilled(d: CustomDesign)
      modifies this
      ensures !loading && error == old(error)
      ensures designs == old(designs) + [d] && currentDesign == Some(d)
    {
      loading := false;
      designs := designs + [d];
      currentDesign := Some(d);
    }

    /** Update-fulfilled: the first design with the payload's id is replaced; the payload becomes current either way. */
    method UpdateFulfilled(d: CustomDesign)
      modifies this
      ensures !loading && error == old(error)
      ensures designs == ReplaceFirst(old(designs), DesignId, d) && currentDesign == Some(d)
    {
      loading := false;
      var index := FirstIndex(designs, DesignId, d.id);
      if index.Some? {
        designs := designs[index.value := d];
      }
      currentDesign := Some(d);
    }

    /** Delete-fulfilled: the payload is the deleted id; the current design is cleared only if it has that id. */
    method DeleteFulfilled(designId: string)
      modifies this
      ensures !loading && error == old(error)
      ensures designs == RemoveKey(old(designs), DesignId, designId)
      ensures currentDesign == if old(currentDesign).Some? && old(currentDesign).value.id == designId then None else old(currentDesign)
    {
      loading := false;
      designs := RemoveKey(designs, DesignId, designId);
      if currentDesign.Some? && currentDesign.value.id == designId {
        currentDesign := None;
      }
    }

    /** Fetch-fulfilled: the fetched list replaces the designs; the current design is kept. */
    method FetchFulfilled(ds: seq<CustomDesign>)
      modifies this
      ensures !loading && error == old(error)
      ensures designs == ds && currentDesign == old(currentDesign)
    {
      loading := false;
      designs := ds;
    }
  }

  /** `selectDesignById`: the first design with that id, or none. */
  function DesignById(designs: seq<CustomDesign>, designId: string): (r: Option<CustomDesign>)
    ensures r.None? <==> forall i :: 0 <= i < |designs| ==> designs[i].id != designId
    ensures r.Some? ==> exists i :: IsFirst(designs, DesignId, designId, i) && designs[i] == r.value
  {
    Find(designs, DesignId, designId)
  }

  /**
   * After a successful update of a stored design, selecting its id yields the payload; after a
   * delete, selecting the deleted id yields nothing.
   */
  lemma SelectAfterUpdateAndDelete(designs: seq<CustomDesign>, d: CustomDesign, k: nat, designId: string)
    requires k < |designs| && designs[k].id == d.id
    ensures DesignById(ReplaceFirst(designs, DesignId, d), d.id) == Some(d)
    ensures DesignById(RemoveKey(designs, DesignId, designId), designId) == None
  {
    FindAfterReplace(designs, DesignId, d, k);
  }

  /** A design created with a fresh id is the one selected by that id. */
  lemma SelectAfterCreate(designs: seq<CustomDesign>, d: CustomDesign)
    requires forall i :: 0 <= i < |designs| ==> designs[i].id != d.id
    ensures DesignById(designs + [d], d.id) == Some(d)
  {
    UpsertShape(designs, DesignId, d);
  }
}
