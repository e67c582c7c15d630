/**
 * The admin panel's video-feed manager (src/components/admin/VideoFeedManager.tsx): adding a
 * feed, marking spots on the selected feed's video one click at a time, and the request that
 * starts monitoring. Backend calls are parameters or outcomes; click coordinates are opaque.
 */
module VideoFeedManager {
  import opened Wrappers

  /** A spot region marked on a video, in percent of the video's size. */
  datatype SpotDefinition = SpotDefinition(
    id: string, x: real, y: real, width: real, height: real, spot_id: string, parking_complex: string)

  datatype VideoFeed = VideoFeed(id: string, name: string, url: string, parking_complex: string, is_active: bool)

  /** The add-feed form (`newFeed`). */
  datatype NewFeed = NewFeed(name: string, url: string, parking_complex: string)

  datatype AddFeedOutcome =
    | Rejected(message: string)   // a field was empty; nothing is inserted
    | InsertFailed(feed: NewFeed) // the backend refused the row
    | Added(feed: NewFeed)

  /** The body sent to the frame-analysis function to start monitoring. */
  datatype MonitoringRequest = MonitoringRequest(action: string, feedId: string, spotDefinitions: seq<SpotDefinition>)

  const EmptyNewFeed := NewFeed("", "", "")
  const FillMessage := "Please fill in all fields"
  const DefaultWidth: real := 8.0
  const DefaultHeight: real := 12.0

  predicate NewFeedComplete(feed: NewFeed) {
    feed.name != "" && feed.url != "" && feed.parking_complex != ""
  }

  /** `spotDefinitions.filter(spot => spot.parking_complex === complex)`. */
  function DefinitionsFor(defs: seq<SpotDefinition>, complex: string): (r: seq<SpotDefinition>)
    ensures |r| <= |defs|
    ensures forall i :: 0 <= i < |r| ==> r[i].parking_complex == complex && r[i] in defs
    ensures forall i :: 0 <= i < |defs| && defs[i].parking_complex == complex ==> defs[i] in r
  {
    if defs == [] then []
    else
      var rest := DefinitionsFor(defs[1..], complex);
      if defs[0].parking_complex == complex then [defs[0]] + rest else rest
  }

  /** Filtering keeps the definitions' order: it distributes over appending. */
  lemma {:induction false} DefinitionsForAppend(a: seq<SpotDefinition>, b: seq<SpotDefinition>, complex: string)
    ensures DefinitionsFor(a + b, complex) == DefinitionsFor(a, complex) + DefinitionsFor(b, complex)
  {
    if a == [] {
      assert a + b == b;
    } else {
      assert (a + b)[1..] == a[1..] + b;
      DefinitionsForAppend(a[1..], b, complex);
    }
  }

  /** A definition appended for a complex is sent last when that complex is monitored. */
  lemma AppendedDefinitionMonitored(defs: seq<SpotDefinition>, d: SpotDefinition, complex: string)
    ensures d.parking_complex == complex ==>
      DefinitionsFor(defs + [d], complex) == DefinitionsFor(defs, complex) + [d]
    ensures d.parking_complex != complex ==>
      DefinitionsFor(defs + [d], complex) == DefinitionsFor(defs, complex)
  {
    DefinitionsForAppend(defs, [d], complex);
    assert DefinitionsFor([d], complex) == (if d.parking_complex == complex then [d] else []) by {
      assert [d][1..] == [];
    }
  }

  /** The definitions sent when monitoring starts; none when no feed is selected. */
  function MonitoredDefinitions(defs: seq<SpotDefinition>, selectedFeed: Option<VideoFeed>): (r: seq<SpotDefinition>)
    ensures selectedFeed.None? ==> r == []
    ensures selectedFeed.Some? ==> r == DefinitionsFor(defs, selectedFeed.value.parking_complex)
  {
    // `undefined` never equals a stored complex name
    if selectedFeed.None? then [] else DefinitionsFor(defs, selectedFeed.value.parking_complex)
  }

  /** The Start Monitoring button is enabled. */
  predicate StartMonitoringEnabled(selectedFeed: Option<VideoFeed>, defs: seq<SpotDefinition>) {
    selectedFeed.Some? && |defs| != 0
  }

  /** The Define Spot button is enabled. */
  predicate DefineSpotEnabled(currentSpotId: string) {
    currentSpotId != ""
  }

  /** The state of one rendered video-feed manager. */
  class VideoFeedManagerPage {
    var spotDefinitions: seq<SpotDefinition>
    var selectedFeed: Option<VideoFeed>
    var newFeed: NewFeed
    var isDefiningSpots: bool
    var currentSpotId: string

    /** A click on the video would define a spot. */
    predicate ClickArmed()
      reads this
    {
      isDefiningSpots && currentSpotId != "" && selectedFeed.Some?
    }

    constructor ()
      ensures spotDefinitions == [] && selectedFeed.None? && newFeed == EmptyNewFeed
      ensures !isDefiningSpots && currentSpotId == ""
      ensures !ClickArmed()
    {
      spotDefinitions := [];
      selectedFeed := None;
      newFeed := EmptyNewFeed;
      isDefiningSpots := false;
      currentSpotId := "";
    }

    /** The three add-feed inputs' `onChange`. */
    method SetNewFeed(feed: NewFeed)
      modifies this
      ensures newFeed == feed
      ensures spotDefinitions == old(spotDefinitions) && selectedFeed == old(selectedFeed)
      ensures isDefiningSpots == old(isDefiningSpots) && currentSpotId == old(currentSpotId)
    {
      newFeed := feed;
    }

    /** A feed card's Select Feed button. */
    method SelectFeed(feed: VideoFeed)
      modifies this
      ensures selectedFeed == Some(feed)
      ensures spotDefinitions == old(spotDefinitions) && newFeed == old(newFeed)
      ensures isDefiningSpots == old(isDefiningSpots) && currentSpotId == old(currentSpotId)
    {
      selectedFeed := Some(feed);
    }

    /** The spot-id input's `onChange`. */
    method SetCurrentSpotId(value: string)
      modifies this
      ensures currentSpotId == value
      ensures spotDefinitions == old(spotDefinitions) && selectedFeed == old(selectedFeed)
      ensures newFeed == old(newFeed) && isDefiningSpots == old(isDefiningSpots)
    {
      currentSpotId := value;
    }

    /** The Define Spot button, which can only be pressed while it is enabled. */
    method PressDefineSpot()
      requires DefineSpotEnabled(currentSpotId)
      modifies this
      ensures isDefiningSpots
      ensures selectedFeed.Some? ==> ClickArmed()
      ensures spotDefinitions == old(spotDefinitions) && selectedFeed == old(selectedFeed)
      ensures newFeed == old(newFeed) && currentSpotId == old(currentSpotId)
    {
      isDefiningSpots := true;
    }

    /**
     * `addVideoFeed`: an incomplete form is refused; a complete one is handed to the backend
     * and, if the insert succeeds, the form is cleared.
     */
    method AddVideoFeed(insertSucceeds: bool) returns (r: AddFeedOutcome)
      modifies this
      ensures !NewFeedComplete(old(newFeed)) ==> r == Rejected(FillMessage) && newFeed == old(newFeed)
      ensures NewFeedComplete(old(newFeed)) && !insertSucceeds ==>
        r == InsertFailed(old(newFeed)) && newFeed == old(newFeed)
      ensures NewFeedComplete(old(newFeed)) && insertSucceeds ==>
        r == Added(old(newFeed)) && newFeed == EmptyNewFeed
      ensures spotDefinitions == old(spotDefinitions) && selectedFeed == old(selectedFeed)
      ensures isDefiningSpots == old(isDefiningSpots) && currentSpotId == old(currentSpotId)
    {
      if newFeed.name == "" || newFeed.url == "" || newFeed.parking_complex == "" {
        return Rejected(FillMessage);
      }
      if !insertSucceeds {
        return InsertFailed(newFeed);
      }
      r := Added(newFeed);
      newFeed := EmptyNewFeed;
    }

    /**
     * `handleVideoClick` at opaque coordinates (x, y), with `stamp` standing for
     * `Date.now().toString()`: unless armed it does nothing; otherwise it appends one
     * definition for the current spot id and the selected feed's complex, then disarms.
     */
    method HandleVideoClick(x: real, y: real, stamp: string) returns (appended: bool)
      modifies this
      ensures appended == old(ClickArmed())
      ensures !appended ==>
        && spotDefinitions == old(spotDefinitions) && currentSpotId == old(currentSpotId)
        && isDefiningSpots == old(isDefiningSpots)
      ensures appended ==>
        && spotDefinitions == old(spotDefinitions) + [SpotDefinition(
             stamp, x, y, DefaultWidth, DefaultHeight, old(currentSpotId), old(selectedFeed).value.parking_complex)]
        && currentSpotId == "" && !isDefiningSpots
      ensures appended ==>
        MonitoredDefinitions(spotDefinitions, selectedFeed)
          == MonitoredDefinitions(old(spotDefinitions), selectedFeed) + [spotDefinitions[|spotDefinitions| - 1]]
      ensures appended ==> StartMonitoringEnabled(selectedFeed, spotDefinitions)
      ensures !ClickArmed()
      ensures selectedFeed == old(selectedFeed) && newFeed == old(newFeed)
    {
      if !isDefiningSpots || currentSpotId == "" || selectedFeed.None? {
        return false;
      }
      var newSpot := SpotDefinition(stamp, x, y, DefaultWidth, DefaultHeight, currentSpotId, selectedFeed.value.parking_complex);
      AppendedDefinitionMonitored(spotDefinitions, newSpot, newSpot.parking_complex);
      spotDefinitions := spotDefinitions + [newSpot];
      currentSpotId := "";
      isDefiningSpots := false;
      appended := true;
    }

    /**
     * `startMonitoring(feedId)`, pressed on a feed card while the button is enabled: the
     * request carries exactly the definitions of the selected feed's complex, in order.
     */
    method StartMonitoring(feedId: string) returns (request: MonitoringRequest)
      requires StartMonitoringEnabled(selectedFeed, spotDefinitions)
      ensures request.action == "start_monitoring" && request.feedId == feedId
      ensures request.spotDefinitions == DefinitionsFor(spotDefinitions, selectedFeed.value.parking_complex)
      ensures |request.spotDefinitions| <= |spotDefinitions|
      ensures forall i :: 0 <= i < |request.spotDefinitions| ==>
        request.spotDefinitions[i].parking_complex == selectedFeed.value.parking_complex
        && request.spotDefinitions[i] in spotDefinitions
      ensures forall i ::
        0 <= i < |spotDefinitions| && spotDefinitions[i].parking_complex == selectedFeed.value.parking_complex
        ==> spotDefinitions[i] in request.spotDefinitions
    {
      request := MonitoringRequest("start_monitoring", feedId, MonitoredDefinitions(spotDefinitions, selectedFeed));
    }
  }
}
