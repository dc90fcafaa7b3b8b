/**
 * The issue document of backend/models/data.model.js: four required strings,
 * optional strings for the description, the image and the postal address,
 * an optional coordinate pair, and the two timestamps the schema's
 * `timestamps: true` option adds.
 */
module IssueModel {
  import opened Js

  /** A `{lat, lng}` pair. Numbers are reals: NaN and infinities are not modelled. */
  datatype Coordinates = Coordinates(lat: real, lng: real)

  /**
   * One stored issue report. `id` stands for the document's `_id`; the
   * timestamps are readings of the store's clock.
   */
  datatype Issue = Issue(
    id: nat,
    title: string,
    category: string,
    location: string,
    priority: string,
    image: Option<string>,
    imagePublicId: Option<string>,
    description: Option<string>,
    address: Option<string>,
    city: Option<string>,
    state: Option<string>,
    zipCode: Option<string>,
    country: Option<string>,
    coordinates: Option<Coordinates>,
    createdAt: int,
    updatedAt: int)

  /**
   * The schema's `required: true` on a string path: Mongoose rejects a
   * missing value and the empty string.
   */
  predicate RequiredPathsSet(x: Issue) {
    x.title != "" && x.category != "" && x.location != "" && x.priority != ""
  }

  /** Every issue in the list has a description, as the client's search expects. */
  predicate Described(issues: seq<Issue>) {
    forall i :: 0 <= i < |issues| ==> issues[i].description.Some?
  }

  /**
   * What the components receive from `fetch('.../api/issues')`: either a
   * reply (`response.ok`, the body's `success`, `data` and `message`) or a
   * rejected promise when the server cannot be reached.
   */
  datatype ListFetch =
    | Replied(ok: bool, success: bool, data: seq<Issue>, message: Option<string>)
    | ConnectionFailed
}
