/**
 * The identifications table and the queries and mutations over it: `list`,
 * `get`, `create` and `updateWithResults`. The record store keeps a map from
 * id to document and the order in which documents were created; ids are
 * drawn from a counter, so a new id is never one already handed out.
 */
module Identifications {
  import opened Wrappers
  import opened PlantNetTypes
  import opened Schema

  type Id = nat

  /** A document as the queries return it: its id, its fields, and its image's display URL. */
  datatype IdentificationWithUrl = IdentificationWithUrl(
    id: Id,
    doc: Identification,
    uploadedImageUrl: Option<string>)

  /** `{...identification, uploadedImageUrl: url}`, with the image store's `getUrl` as a parameter. */
  function WithUrl(id: Id, doc: Identification, getUrl: StorageId -> Option<string>): (v: IdentificationWithUrl)
    ensures v.id == id && v.doc == doc && v.uploadedImageUrl == getUrl(doc.uploadedImageId)
  {
    IdentificationWithUrl(id, doc, getUrl(doc.uploadedImageId))
  }

  /** The document `create` inserts. */
  function NewIdentification(uploadedImageId: StorageId, now: int): (d: Identification)
    ensures d.status == Pending && d.uploadedImageId == uploadedImageId && d.timestamp == now
    ensures d.matches.None? && d.rawApiResponse.None? && d.errorMessage.None?
  {
    Identification(uploadedImageId, now, Pending, None, None, None)
  }

  /** The patch `updateWithResults` sends: every supplied argument but the id, nothing else. */
  function SuppliedFields(
    status: TerminalStatus,
    matches: Option<seq<PlantMatch>>,
    rawApiResponse: Option<PlantNetResponse>,
    errorMessage: Option<string>): (p: Patch)
    ensures p.status.Put? && p.status.value == status
    ensures matches.None? <==> p.matches.Keep?
    ensures rawApiResponse.None? <==> p.rawApiResponse.Keep?
    ensures errorMessage.None? <==> p.errorMessage.Keep?
    ensures !p.matches.Remove? && !p.rawApiResponse.Remove? && !p.errorMessage.Remove?
  {
    Patch(Field<Status>.Put(status),
          if matches.Some? then Put(matches.value) else Keep,
          if rawApiResponse.Some? then Put(rawApiResponse.value) else Keep,
          if errorMessage.Some? then Put(errorMessage.value) else Keep)
  }

  /**
   * `updateWithResults` sets the status it is given, overwrites each optional
   * field that was supplied, and leaves every other field, the image and the
   * timestamp as they were. It can never leave a record `pending`.
   */
  lemma UpdateWithResultsChangesOnlySupplied(
    doc: Identification,
    status: TerminalStatus,
    matches: Option<seq<PlantMatch>>,
    rawApiResponse: Option<PlantNetResponse>,
    errorMessage: Option<string>)
    ensures var d := ApplyPatch(doc, SuppliedFields(status, matches, rawApiResponse, errorMessage));
      && d.status == status && d.status != Pending
      && d.uploadedImageId == doc.uploadedImageId && d.timestamp == doc.timestamp
      && d.matches == (if matches.Some? then matches else doc.matches)
      && d.rawApiResponse == (if rawApiResponse.Some? then rawApiResponse else doc.rawApiResponse)
      && d.errorMessage == (if errorMessage.Some? then errorMessage else doc.errorMessage)
  {
  }

  class Table {
    /** The stored documents. */
    var records: map<Id, Identification>
    /** Every stored id, oldest first: the order of creation. */
    var order: seq<Id>
    /** The next id the store hands out. */
    var nextId: Id

    ghost predicate Valid()
      reads this
    {
      && (forall i :: 0 <= i < |order| ==> order[i] in records && order[i] < nextId)
      && (forall i, j :: 0 <= i < j < |order| ==> order[i] != order[j])
      && (forall id :: id in records ==> id in order)
    }

    constructor ()
      ensures Valid() && records == map[] && order == []
    {
      records := map[];
      order := [];
      nextId := 0;
    }

    /** `create`: insert a pending document for the uploaded image, stamped `now`. */
    method Create(uploadedImageId: StorageId, now: int) returns (id: Id)
      requires Valid()
      modifies this
      ensures Valid()
      ensures id !in old(records)
      ensures records == old(records)[id := NewIdentification(uploadedImageId, now)]
      ensures order == old(order) + [id]
    {
      id := nextId;
      records := records[id := NewIdentification(uploadedImageId, now)];
      order := order + [id];
      nextId := nextId + 1;
    }

    /** `get`: the document with its image URL, or null for an unknown id. */
    method Get(id: Id, getUrl: StorageId -> Option<string>) returns (r: Option<IdentificationWithUrl>)
      ensures r.None? <==> id !in records
      ensures r.Some? ==> r.value.id == id && r.value.doc == records[id]
      ensures r.Some? ==> r.value.uploadedImageUrl == getUrl(records[id].uploadedImageId)
    {
      if id !in records {
        return None;
      }
      r := Some(WithUrl(id, records[id], getUrl));
    }

    /** `list`: every stored document with its image URL, newest first. */
    method List(getUrl: StorageId -> Option<string>) returns (r: seq<IdentificationWithUrl>)
      requires Valid()
      ensures |r| == |order|
      ensures forall k :: 0 <= k < |r| ==>
        r[k].id == order[|order| - 1 - k] && r[k].doc == records[r[k].id]
        && r[k].uploadedImageUrl == getUrl(r[k].doc.uploadedImageId)
      ensures forall j, k :: 0 <= j < k < |r| ==> r[j].id != r[k].id
      ensures forall id :: id in records ==> exists k :: 0 <= k < |r| && r[k].id == id
    {
      r := [];
      var i := |order|;
      while i > 0
        invariant 0 <= i <= |order|
        invariant |r| == |order| - i
        invariant forall k :: 0 <= k < |r| ==>
          r[k].id == order[|order| - 1 - k] && r[k].doc == records[r[k].id]
          && r[k].uploadedImageUrl == getUrl(r[k].doc.uploadedImageId)
      {
        i := i - 1;
        r := r + [WithUrl(order[i], records[order[i]], getUrl)];
      }
      forall id | id in records
        ensures exists k :: 0 <= k < |r| && r[k].id == id
      {
        var i :| 0 <= i < |order| && order[i] == id;
        assert r[|order| - 1 - i].id == id;
      }
    }

    /**
     * The record store's patch: merge `p` into the document `id`, leaving
     * every other document alone; an unknown id changes nothing.
     */
    method Patch(id: Id, p: Schema.Patch)
      requires Valid()
      modifies this
      ensures Valid() && order == old(order) && nextId == old(nextId)
      ensures records == if id in old(records) then old(records)[id := ApplyPatch(old(records)[id], p)] else old(records)
    {
      if id in records {
        records := records[id := ApplyPatch(records[id], p)];
      }
    }

    /** `updateWithResults`: patch the supplied fields of one document. */
    method UpdateWithResults(
      id: Id,
      status: TerminalStatus,
      matches: Option<seq<PlantMatch>>,
      rawApiResponse: Option<PlantNetResponse>,
      errorMessage: Option<string>)
      requires Valid()
      modifies this
      ensures Valid() && order == old(order) && nextId == old(nextId)
      ensures records.Keys == old(records).Keys
      ensures forall other :: other in old(records) && other != id ==> records[other] == old(records)[other]
      ensures id in records ==>
        records[id] == ApplyPatch(old(records)[id], SuppliedFields(status, matches, rawApiResponse, errorMessage))
    {
      Patch(id, SuppliedFields(status, matches, rawApiResponse, errorMessage));
    }
  }

  /** `create` followed by `get` finds the new, pending record. */
  method CreateThenGet(t: Table, uploadedImageId: StorageId, now: int, getUrl: StorageId -> Option<string>)
    returns (id: Id, r: Option<IdentificationWithUrl>)
    requires t.Valid()
    modifies t
    ensures t.Valid()
    ensures r.Some? && r.value.id == id && r.value.doc.status == Pending
    ensures r.value.doc.uploadedImageId == uploadedImageId && r.value.doc.matches.None?
    ensures r.value.uploadedImageUrl == getUrl(uploadedImageId)
    ensures forall other :: other in old(t.records) ==> other in t.records && t.records[other] == old(t.records)[other]
  {
    id := t.Create(uploadedImageId, now);
    r := t.Get(id, getUrl);
  }
}
