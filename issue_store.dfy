/**
 * The five issue handlers of backend/controller/data.controller.js over an
 * in-memory collection. The MongoDB collection is a map from `_id` to
 * document, `_id`s come from a counter, the timestamps from a clock that
 * ticks on every write, and the image host is reduced to the log of
 * `cloudinary.uploader.destroy` calls it receives.
 */
module IssueStore {
  import opened Js
  import opened IssueModel

  /** The image URL stored when no file accompanies a create request. */
  const PlaceholderImage := "https://via.placeholder.com/400x300?text=No+Image"

  const OK: nat := 200
  const CREATED: nat := 201
  const BAD_REQUEST: nat := 400
  const NOT_FOUND: nat := 404
  const SERVER_ERROR: nat := 500

  /** What multer leaves in `req.file` after an upload: the hosted URL and the host's id for it. */
  datatype UploadedFile = UploadedFile(path: string, filename: string)

  /** The fields `createIssue` destructures from `req.body`; absent ones are `None`. */
  datatype IssueBody = IssueBody(
    title: Option<string>,
    category: Option<string>,
    location: Option<string>,
    priority: Option<string>,
    image: Option<string>,
    description: Option<string>,
    address: Option<string>,
    city: Option<string>,
    state: Option<string>,
    zipCode: Option<string>,
    country: Option<string>,
    coordinates: Option<Coordinates>)

  /**
   * The guard of `createIssue`: each of the five fields is truthy. Nothing
   * is trimmed, so a field of blanks passes.
   */
  predicate HasRequiredFields(b: IssueBody) {
    Truthy(b.title) && Truthy(b.category) && Truthy(b.location) &&
    Truthy(b.priority) && Truthy(b.description)
  }

  /**
   * The document `createIssue` saves: the body's fields, except that the
   * image URL and public id come from the upload (or the placeholder and
   * no id), never from `body.image`.
   */
  function NewIssue(b: IssueBody, file: Option<UploadedFile>, id: nat, now: int): Issue
    requires HasRequiredFields(b)
  {
    Issue(
      id := id,
      title := b.title.value,
      category := b.category.value,
      location := b.location.value,
      priority := b.priority.value,
      image := Some(if file.Some? then file.value.path else PlaceholderImage),
      imagePublicId := if file.Some? then Some(file.value.filename) else None,
      description := b.description,
      address := b.address,
      city := b.city,
      state := b.state,
      zipCode := b.zipCode,
      country := b.country,
      coordinates := b.coordinates,
      createdAt := now,
      updatedAt := now)
  }

  /** The request fields a stored issue answers for; the stored image is not one of them. */
  function AsBody(x: Issue): IssueBody {
    IssueBody(Some(x.title), Some(x.category), Some(x.location), Some(x.priority), None,
              x.description, x.address, x.city, x.state, x.zipCode, x.country, x.coordinates)
  }

  /** Reading a created issue back gives the request body, less its `image` field. */
  lemma CreateRoundTrip(b: IssueBody, file: Option<UploadedFile>, id: nat, now: int)
    requires HasRequiredFields(b)
    ensures AsBody(NewIssue(b, file, id, now)) == b.(image := None)
  {
  }

  /** The `image` of the request body has no effect on the saved document. */
  lemma BodyImageIgnored(b: IssueBody, img: Option<string>, file: Option<UploadedFile>, id: nat, now: int)
    requires HasRequiredFields(b)
    ensures NewIssue(b.(image := img), file, id, now) == NewIssue(b, file, id, now)
  {
  }

  /**
   * The stored image follows the upload: without a file the placeholder
   * and no public id, with one its URL and its id.
   */
  lemma ImageFollowsUpload(b: IssueBody, file: Option<UploadedFile>, id: nat, now: int)
    requires HasRequiredFields(b)
    ensures NewIssue(b, file, id, now).imagePublicId.Some? <==> file.Some?
    ensures file.None? ==> NewIssue(b, file, id, now).image == Some(PlaceholderImage)
    ensures file.Some? ==> NewIssue(b, file, id, now).image == Some(file.value.path) &&
                           NewIssue(b, file, id, now).imagePublicId == Some(file.value.filename)
  {
  }

  /** A blank title, category, location, priority or description gets past the guard. */
  lemma BlanksPassRequiredCheck(b: IssueBody)
    requires b.title == Some(" ") && b.category == Some(" ") && b.location == Some(" ")
    requires b.priority == Some(" ") && b.description == Some(" ")
    ensures HasRequiredFields(b)
  {
  }

  /**
   * The `req.body` of an update: every schema path it names. The whole
   * body is merged, so the image fields can be overwritten too.
   */
  datatype IssuePatch = IssuePatch(
    title: Option<string>,
    category: Option<string>,
    location: Option<string>,
    priority: Option<string>,
    image: Option<string>,
    imagePublicId: Option<string>,
    description: Option<string>,
    address: Option<string>,
    city: Option<string>,
    state: Option<string>,
    zipCode: Option<string>,
    country: Option<string>,
    coordinates: Option<Coordinates>)

  const EmptyPatch := IssuePatch(None, None, None, None, None, None, None, None, None, None, None, None, None)

  /**
   * `runValidators: true`: the update is refused when it sets one of the
   * required paths to the empty string.
   */
  predicate PassesUpdateValidators(p: IssuePatch) {
    p.title != Some("") && p.category != Some("") &&
    p.location != Some("") && p.priority != Some("")
  }

  /** `findByIdAndUpdate` with `new: true`: the named paths overwritten and `updatedAt` re-stamped. */
  function ApplyPatch(x: Issue, p: IssuePatch, now: int): Issue {
    x.(title := p.title.GetOr(x.title),
       category := p.category.GetOr(x.category),
       location := p.location.GetOr(x.location),
       priority := p.priority.GetOr(x.priority),
       image := if p.image.Some? then p.image else x.image,
       imagePublicId := if p.imagePublicId.Some? then p.imagePublicId else x.imagePublicId,
       description := if p.description.Some? then p.description else x.description,
       address := if p.address.Some? then p.address else x.address,
       city := if p.city.Some? then p.city else x.city,
       state := if p.state.Some? then p.state else x.state,
       zipCode := if p.zipCode.Some? then p.zipCode else x.zipCode,
       country := if p.country.Some? then p.country else x.country,
       coordinates := if p.coordinates.Some? then p.coordinates else x.coordinates,
       updatedAt := now)
  }

  /** Applying the same update twice at the same instant is the same as applying it once. */
  lemma PatchIdempotent(x: Issue, p: IssuePatch, now: int)
    ensures ApplyPatch(ApplyPatch(x, p, now), p, now) == ApplyPatch(x, p, now)
  {
  }

  /** An update naming only `priority` changes the priority and the stamp, and nothing else. */
  lemma PriorityUpdateRoundTrip(x: Issue, pr: string, now: int)
    ensures ApplyPatch(x, EmptyPatch.(priority := Some(pr)), now) == x.(priority := pr, updatedAt := now)
  {
  }

  /** An update that passes the validators keeps every required path non-empty, the id and the creation time. */
  lemma PatchKeepsRequiredPaths(x: Issue, p: IssuePatch, now: int)
    requires RequiredPathsSet(x) && PassesUpdateValidators(p)
    ensures RequiredPathsSet(ApplyPatch(x, p, now))
    ensures ApplyPatch(x, p, now).id == x.id && ApplyPatch(x, p, now).createdAt == x.createdAt
  {
  }

  /** Every document is stored under its own `_id`. */
  ghost predicate KeyedById(records: map<nat, Issue>) {
    forall id :: id in records ==> records[id].id == id
  }

  /** A document with a larger `_id` was created later. */
  ghost predicate CreationOrdered(records: map<nat, Issue>) {
    forall a, b :: a in records && b in records && a < b ==> records[a].createdAt < records[b].createdAt
  }

  /**
   * `Data.find().sort({ createdAt: -1 })` over the documents whose `_id` is
   * below `n`: the largest `_id`, which is the newest, first.
   */
  function NewestFirst(records: map<nat, Issue>, n: nat): seq<Issue> {
    if n == 0 then []
    else (if n - 1 in records then [records[n - 1]] else []) + NewestFirst(records, n - 1)
  }

  /** The listing holds each stored document below `n`, taken from the store under its own `_id`. */
  lemma {:induction false} NewestFirstSnapshot(records: map<nat, Issue>, n: nat)
    requires KeyedById(records)
    ensures forall i :: 0 <= i < |NewestFirst(records, n)| ==>
              NewestFirst(records, n)[i].id in records && NewestFirst(records, n)[i].id < n &&
              records[NewestFirst(records, n)[i].id] == NewestFirst(records, n)[i]
    ensures forall id :: id in records && id < n ==> records[id] in NewestFirst(records, n)
  {
    if n > 0 {
      NewestFirstSnapshot(records, n - 1);
    }
  }

  /**
   * The listing is in strictly decreasing `createdAt`, so in particular no
   * document appears twice.
   */
  lemma {:induction false} NewestFirstOrdered(records: map<nat, Issue>, n: nat)
    requires KeyedById(records) && CreationOrdered(records)
    ensures forall i, j :: 0 <= i < j < |NewestFirst(records, n)| ==>
              NewestFirst(records, n)[i].createdAt > NewestFirst(records, n)[j].createdAt
  {
    if n > 0 {
      NewestFirstOrdered(records, n - 1);
      var rest := NewestFirst(records, n - 1);
      if n - 1 in records {
        NewestFirstSnapshot(records, n - 1);
        var r := [records[n - 1]] + rest;
        assert NewestFirst(records, n) == r;
        forall i, j | 0 <= i < j < |r| ensures r[i].createdAt > r[j].createdAt {
          if i == 0 {
            var id := rest[j - 1].id;
            assert r[j] == rest[j - 1] == records[id] && id < n - 1;
          } else {
            assert r[i] == rest[i - 1] && r[j] == rest[j - 1];
          }
        }
      }
    }
  }

  /** The issue collection and the image host's destroy log. */
  class Store {
    var records: map<nat, Issue>
    var nextId: nat
    var clock: nat
    var destroyCalls: seq<string>

    /**
     * Ids below the counter, every document valid for the schema and carrying
     * a description (the create handler insists on one), and timestamps
     * taken from the clock in creation order.
     */
    ghost predicate Valid()
      reads this
    {
      && KeyedById(records)
      && CreationOrdered(records)
      && forall id :: id in records ==>
           && id < nextId
           && RequiredPathsSet(records[id])
           && records[id].description.Some?
           && records[id].createdAt <= records[id].updatedAt < clock
    }

    constructor ()
      ensures Valid()
      ensures records == map[] && destroyCalls == []
    {
      records := map[];
      nextId := 0;
      clock := 0;
      destroyCalls := [];
    }

    /** `createIssue`: 400 and nothing stored without the five fields, otherwise 201 and one new document. */
    method CreateIssue(body: IssueBody, file: Option<UploadedFile>) returns (status: nat, created: Option<Issue>)
      requires Valid()
      modifies this
      ensures Valid()
      ensures !HasRequiredFields(body) ==> status == BAD_REQUEST && created == None && unchanged(this)
      ensures HasRequiredFields(body) ==>
                && status == CREATED
                && created == Some(NewIssue(body, file, old(nextId), old(clock)))
                && old(nextId) !in old(records)
                && records == old(records)[old(nextId) := created.value]
                && nextId == old(nextId) + 1 && clock == old(clock) + 1
                && destroyCalls == old(destroyCalls)
    {
      if !HasRequiredFields(body) {
        return BAD_REQUEST, None;
      }
      var issue := NewIssue(body, file, nextId, clock);
      records := records[nextId := issue];
      nextId := nextId + 1;
      clock := clock + 1;
      return CREATED, Some(issue);
    }

    /** `getAllIssues`: every document, newest first, with `count` its length. */
    method GetAllIssues() returns (status: nat, count: nat, data: seq<Issue>)
      requires Valid()
      ensures status == OK && count == |data|
      ensures data == NewestFirst(records, nextId)
      ensures forall i :: 0 <= i < |data| ==> data[i].id in records && records[data[i].id] == data[i]
      ensures forall id :: id in records ==> records[id] in data
      ensures forall i, j :: 0 <= i < j < |data| ==> data[i].createdAt > data[j].createdAt
      ensures Described(data)
    {
      data := NewestFirst(records, nextId);
      NewestFirstSnapshot(records, nextId);
      NewestFirstOrdered(records, nextId);
      status, count := OK, |data|;
    }

    /** `getIssueById`: the document, or 404 when there is none. */
    method GetIssueById(id: nat) returns (status: nat, found: Option<Issue>)
      ensures id in records <==> status == OK
      ensures id in records ==> found == Some(records[id])
      ensures id !in records ==> status == NOT_FOUND && found == None
    {
      if id in records {
        return OK, Some(records[id]);
      }
      return NOT_FOUND, None;
    }

    /**
     * `updateIssue`: a body the validators refuse is a 500 and an unknown id a
     * 404, both without change; otherwise the merged document is stored and
     * returned.
     */
    method UpdateIssue(id: nat, patch: IssuePatch) returns (status: nat, updated: Option<Issue>)
      requires Valid()
      modifies this
      ensures Valid()
      ensures !PassesUpdateValidators(patch) ==> status == SERVER_ERROR && updated == None && unchanged(this)
      ensures PassesUpdateValidators(patch) && id !in old(records) ==>
                status == NOT_FOUND && updated == None && unchanged(this)
      ensures PassesUpdateValidators(patch) && id in old(records) ==>
                && status == OK
                && updated == Some(ApplyPatch(old(records)[id], patch, old(clock)))
                && records == old(records)[id := updated.value]
                && nextId == old(nextId) && clock == old(clock) + 1
                && destroyCalls == old(destroyCalls)
    {
      if !PassesUpdateValidators(patch) {
        return SERVER_ERROR, None;
      }
      if id !in records {
        return NOT_FOUND, None;
      }
      var issue := ApplyPatch(records[id], patch, clock);
      PatchKeepsRequiredPaths(records[id], patch, clock);
      records := records[id := issue];
      clock := clock + 1;
      return OK, Some(issue);
    }

    /**
     * `deleteIssue`: an unknown id is a 404 without change. Otherwise the
     * document is gone, one destroy call is logged when it had a public id,
     * and a failing destroy turns the reply into a 500 without bringing the
     * document back.
     */
    method DeleteIssue(id: nat, destroyFails: bool) returns (status: nat)
      requires Valid()
      modifies this
      ensures Valid()
      ensures id !in old(records) ==> status == NOT_FOUND && unchanged(this)
      ensures id in old(records) ==>
                && records == old(records) - {id}
                && nextId == old(nextId) && clock == old(clock)
                && (Truthy(old(records)[id].imagePublicId) ==>
                      destroyCalls == old(destroyCalls) + [old(records)[id].imagePublicId.value] &&
                      status == (if destroyFails then SERVER_ERROR else OK))
                && (!Truthy(old(records)[id].imagePublicId) ==>
                      destroyCalls == old(destroyCalls) && status == OK)
    {
      if id !in records {
        return NOT_FOUND;
      }
      var issue := records[id];
      records := records - {id};
      if Truthy(issue.imagePublicId) {
        destroyCalls := destroyCalls + [issue.imagePublicId.value];
        if destroyFails {
          return SERVER_ERROR;
        }
      }
      return OK;
    }
  }

  /** A create followed by a get of the new id answers with the created document. */
  method CreateThenGet(s: Store, body: IssueBody, file: Option<UploadedFile>)
    returns (created: Option<Issue>, getStatus: nat, found: Option<Issue>)
    requires s.Valid() && HasRequiredFields(body)
    modifies s
    ensures s.Valid()
    ensures created.Some? && getStatus == OK && found == created
  {
    var status;
    status, created := s.CreateIssue(body, file);
    getStatus, found := s.GetIssueById(created.value.id);
  }

  /** A delete followed by a get of the same id answers 404, whether or not the image could be destroyed. */
  method DeleteThenGet(s: Store, id: nat, destroyFails: bool) returns (getStatus: nat, found: Option<Issue>)
    requires s.Valid()
    modifies s
    ensures s.Valid()
    ensures getStatus == NOT_FOUND && found == None
  {
    var status := s.DeleteIssue(id, destroyFails);
    getStatus, found := s.GetIssueById(id);
  }
}
