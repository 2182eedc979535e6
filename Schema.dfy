/**
 * The `identifications` table: the stored document, its status, the match
 * values embedded in it, and what a record-store patch does to a document.
 */
module Schema {
  import opened Wrappers
  import opened PlantNetTypes

  /** An opaque blob reference issued by the image store. */
  type StorageId = string

  datatype Status = Pending | Success | Failed | NoMatch

  /** The statuses the two update mutations accept: never `pending`. */
  type TerminalStatus = s: Status | !s.Pending? witness Failed

  datatype Species = Species(
    scientificName: string,
    commonNames: seq<string>,
    family: string,
    genus: string)

  datatype MatchImage = MatchImage(url: string, citation: Option<string>)

  datatype PlantMatch = PlantMatch(
    species: Species,
    score: real,
    images: Option<seq<MatchImage>>)

  datatype Identification = Identification(
    uploadedImageId: StorageId,
    timestamp: int,
    status: Status,
    matches: Option<seq<PlantMatch>>,
    rawApiResponse: Option<PlantNetResponse>,
    errorMessage: Option<string>)

  /**
   * One field of a patch: absent from the patch object, present with a value,
   * or present as `undefined` (which removes the field from the document).
   */
  datatype Field<T> = Keep | Put(value: T) | Remove

  /** The fields a patch may name. The id, the image and the timestamp are not among them. */
  datatype Patch = Patch(
    status: Field<Status>,
    matches: Field<seq<PlantMatch>>,
    rawApiResponse: Field<PlantNetResponse>,
    errorMessage: Field<string>)

  function PatchField<T>(current: Option<T>, f: Field<T>): Option<T>
  {
    match f
    case Keep => current
    case Put(v) => Some(v)
    case Remove => None
  }

  /**
   * A shallow merge of the patch into the document. A patch that would remove
   * the required `status` field leaves it unchanged (the schema forbids it).
   */
  function ApplyPatch(doc: Identification, p: Patch): (d: Identification)
    ensures d.uploadedImageId == doc.uploadedImageId && d.timestamp == doc.timestamp
    ensures p.status.Put? ==> d.status == p.status.value
    ensures !p.status.Put? ==> d.status == doc.status
    ensures p.matches.Keep? ==> d.matches == doc.matches
    ensures p.rawApiResponse.Keep? ==> d.rawApiResponse == doc.rawApiResponse
    ensures p.errorMessage.Keep? ==> d.errorMessage == doc.errorMessage
  {
    doc.(status := if p.status.Put? then p.status.value else doc.status,
         matches := PatchField(doc.matches, p.matches),
         rawApiResponse := PatchField(doc.rawApiResponse, p.rawApiResponse),
         errorMessage := PatchField(doc.errorMessage, p.errorMessage))
  }
}
