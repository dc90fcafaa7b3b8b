/**
 * frontend/src/components/CommunityMap.jsx: which fetched issues become
 * markers, where the map is centred, and the state `fetchIssues` replaces.
 */
module CommunityMap {
  import opened Js
  import opened Seqs
  import opened IssueModel
  import IssueStore

  /** `centerPosition`, used when no issue can be placed. */
  const DefaultCenter: (real, real) := (26.7658, 83.3649)

  /**
   * `issue.coordinates && issue.coordinates.lat && issue.coordinates.lng`:
   * JavaScript truthiness, under which a latitude or longitude of 0 is false.
   */
  predicate HasMapCoordinates(x: Issue) {
    x.coordinates.Some? && x.coordinates.value.lat != 0.0 && x.coordinates.value.lng != 0.0
  }

  /** `issuesWithCoordinates`: the fetched issues that get a marker. */
  function MapIssues(fetched: seq<Issue>): seq<Issue> {
    Filter(fetched, HasMapCoordinates)
  }

  /**
   * The markers are an order-preserving selection of the fetched issues,
   * and an issue is kept exactly when its coordinates are present with a
   * non-zero latitude and longitude.
   */
  lemma MapIssuesSelection(fetched: seq<Issue>, x: Issue)
    ensures IsSubsequence(MapIssues(fetched), fetched)
    ensures forall i :: 0 <= i < |MapIssues(fetched)| ==> HasMapCoordinates(MapIssues(fetched)[i])
    ensures x in MapIssues(fetched) <==> x in fetched && HasMapCoordinates(x)
  {
    FilterMembership(fetched, HasMapCoordinates, x);
  }

  /** An issue on the equator or the prime meridian gets no marker, whatever the other coordinate. */
  lemma ZeroCoordinateDropped(fetched: seq<Issue>, x: Issue)
    requires x.coordinates.Some? && (x.coordinates.value.lat == 0.0 || x.coordinates.value.lng == 0.0)
    ensures x !in MapIssues(fetched)
  {
    FilterMembership(fetched, HasMapCoordinates, x);
  }

  /**
   * An issue created without coordinates (the backend stores the body's
   * `coordinates` as given) never appears on the map.
   */
  lemma CreatedWithoutCoordinatesNotMapped(b: IssueStore.IssueBody, file: Option<IssueStore.UploadedFile>,
                                           id: nat, now: int, fetched: seq<Issue>)
    requires IssueStore.HasRequiredFields(b) && b.coordinates.None?
    ensures IssueStore.NewIssue(b, file, id, now) !in MapIssues(fetched)
  {
    FilterMembership(fetched, HasMapCoordinates, IssueStore.NewIssue(b, file, id, now));
  }

  function CoordinatesOf(x: Issue): (real, real)
    requires x.coordinates.Some?
  {
    (x.coordinates.value.lat, x.coordinates.value.lng)
  }

  /** The `center` of the `MapContainer`: the first marker's position, else the default. */
  function Center(shown: seq<Issue>): (real, real)
    requires forall i :: 0 <= i < |shown| ==> HasMapCoordinates(shown[i])
  {
    if |shown| > 0 then
      assert HasMapCoordinates(shown[0]);
      CoordinatesOf(shown[0])
    else DefaultCenter
  }

  /**
   * Seen from the fetched list, the map is centred on the first issue that
   * has truthy coordinates.
   */
  lemma {:induction false} CenterIsFirstLocated(fetched: seq<Issue>, k: nat)
    requires k < |fetched| && HasMapCoordinates(fetched[k])
    requires forall j :: 0 <= j < k ==> !HasMapCoordinates(fetched[j])
    ensures Center(MapIssues(fetched)) == CoordinatesOf(fetched[k])
  {
    assert fetched == [fetched[0]] + fetched[1..];
    if k == 0 {
      assert MapIssues(fetched) == [fetched[0]] + MapIssues(fetched[1..]);
    } else {
      assert MapIssues(fetched) == MapIssues(fetched[1..]);
      assert fetched[1..][k - 1] == fetched[k];
      CenterIsFirstLocated(fetched[1..], k - 1);
    }
  }

  /** Seen from the fetched list, the map falls back to the default position when no issue has truthy coordinates. */
  lemma CenterDefaultWhenNoneLocated(fetched: seq<Issue>)
    requires forall i :: 0 <= i < |fetched| ==> !HasMapCoordinates(fetched[i])
    ensures Center(MapIssues(fetched)) == DefaultCenter
  {
  }

  /** The map's state: the markers, the spinner and the error banner. */
  class MapView {
    var issues: seq<Issue>
    var loading: bool
    var error: Option<string>

    /** Only issues that can be placed are ever held. */
    ghost predicate Valid()
      reads this
    {
      forall i :: 0 <= i < |issues| ==> HasMapCoordinates(issues[i])
    }

    constructor ()
      ensures Valid() && issues == [] && loading && error == None
    {
      issues := [];
      loading := true;
      error := None;
    }

    /** The centre the component renders with. */
    function CurrentCenter(): (real, real)
      reads this
      requires Valid()
    {
      Center(issues)
    }

    /**
     * `fetchIssues`: a successful reply keeps the issues with truthy
     * coordinates and clears the error; anything else keeps the markers
     * and sets the error. The spinner is off afterwards.
     */
    method FetchIssues(reply: ListFetch)
      requires Valid()
      modifies this
      ensures Valid() && !loading
      ensures reply.Replied? && reply.ok && reply.success ==> issues == MapIssues(reply.data) && error == None
      ensures reply.Replied? && !(reply.ok && reply.success) ==>
                issues == old(issues) && error == Some(OrElse(reply.message, "Failed to fetch issues"))
      ensures reply.ConnectionFailed? ==> issues == old(issues) && error == Some("Unable to connect to server")
    {
      loading := true;
      match reply {
        case Replied(ok, success, data, message) =>
          if ok && success {
            issues := MapIssues(data);
            error := None;
          } else {
            error := Some(OrElse(message, "Failed to fetch issues"));
          }
        case ConnectionFailed =>
          error := Some("Unable to connect to server");
      }
      loading := false;
    }
  }
}
