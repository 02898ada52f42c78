/**
 * The web app's design slice. Only fetching has pending and rejected cases; create, update and
 * delete change the list when they succeed and touch nothing else.
 */
module WebDesignSlice {
  import opened Wrappers
  import opened SliceLists

  /** The web app's design; only its `id` is read by the slice. */
  datatype Design = Design(id: string, userId: string, productId: string, previewUrl: string)

  function DesignId(d: Design): string {
    d.id
  }

  class DesignSlice {
    var designs: seq<Design>
    var currentDesign: Option<Design>
    var loading: bool
    var error: Option<string>

    /** The initial state. */
    constructor ()
      ensures designs == [] && currentDesign == None && !loading && error == None
    {
      designs := [];
      currentDesign := None;
      loading := false;
      error := None;
    }

    /** `setCurrentDesign`: only the current design changes. */
    method SetCurrentDesign(d: Design)
      modifies this
      ensures currentDesign == Some(d)
      ensures designs == old(designs) && loading == old(loading) && error == old(error)
    {
      currentDesign := Some(d);
    }

    /** `clearCurrentDesign`: only the current design changes. */
    method ClearCurrentDesign()
      modifies this
      ensures currentDesign == None
      ensures designs == old(designs) && loading == old(loading) && error == old(error)
    {
      currentDesign := None;
    }

    /** Fetch-pending. */
    method FetchPending()
      modifies this
      ensures loading && error == None
      ensures designs == old(designs) && currentDesign == old(currentDesign)
    {
      loading := true;
      error := None;
    }

    /** Fetch-fulfilled: the fetched list replaces the designs. */
    method FetchFulfilled(ds: seq<Design>)
      modifies this
      ensures !loading && error == old(error)
      ensures designs == ds && currentDesign == old(currentDesign)
    {
      loading := false;
      designs := ds;
    }

    /** Fetch-rejected: the payload is the thrown error's message. */
    method FetchRejected(payload: string)
      modifies this
      ensures !loading && error == Some(payload)
      ensures designs == old(designs) && currentDesign == old(currentDesign)
    {
      loading := false;
      error := Some(payload);
    }

    /** Create-fulfilled: the payload is appended; loading, error and the current design stay. */
    method CreateFulfilled(d: Design)
      modifies this
      ensures designs == old(designs) + [d]
      ensures loading == old(loading) && error == old(error) && currentDesign == old(currentDesign)
    {
      designs := designs + [d];
    }

    /** Update-fulfilled: the first design with the payload's id becomes the payload; nothing else changes. */
    method UpdateFulfilled(d: Design)
      modifies this
      ensures designs == ReplaceFirst(old(designs), DesignId, d)
      ensures loading == old(loading) && error == old(error) && currentDesign == old(currentDesign)
    {
      var index := FirstIndex(designs, DesignId, d.id);
      if index.Some? {
        designs := designs[index.value := d];
      }
    }

    /** Delete-fulfilled: every design whose id is the thunk's argument is removed; the current design stays. */
    method DeleteFulfilled(designId: string)
      modifies this
      ensures designs == RemoveKey(old(designs), DesignId, designId)
      ensures loading == old(loading) && error == old(error) && currentDesign == old(currentDesign)
    {
      designs := RemoveKey(designs, DesignId, designId);
    }
  }

  /**
   * An update whose id matches no design leaves the list as it was, and a delete keeps exactly the
   * designs of other ids, so deleting twice is deleting once.
   */
  lemma UpdateAndDeleteEffect(designs: seq<Design>, d: Design, designId: string)
    ensures (forall i :: 0 <= i < |designs| ==> designs[i].id != d.id) ==> ReplaceFirst(designs, DesignId, d) == designs
    ensures forall i :: 0 <= i < |designs| && designs[i].id != designId ==> designs[i] in RemoveKey(designs, DesignId, designId)
    ensures RemoveKey(RemoveKey(designs, DesignId, designId), DesignId, designId) == RemoveKey(designs, DesignId, designId)
  {
    RemoveKeyMembers(designs, DesignId, designId);
    RemoveAbsentKey(RemoveKey(designs, DesignId, designId), DesignId, designId);
    if forall i :: 0 <= i < |designs| ==> designs[i].id != d.id {
      var r := ReplaceFirst(designs, DesignId, d);
      assert forall i :: 0 <= i < |designs| ==> r[i] == designs[i];
    }
  }
}
