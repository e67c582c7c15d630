/**
 * The reserve page (src/pages/Reserve.tsx): its own randomised spot grid and the booking
 * flow select complex, click spot (logged-in users only), reservation modal, confirmation.
 */
module Reserve {
  import opened Wrappers
  import opened Text
  import opened ParkingData
  import opened ReservationModal

  /** What the randomised generator promises of spot number i whatever the random draw is. */
  ghost predicate IsRandomSpot(spot: ParkingSpotData, i: nat) {
    && spot.id == SpotLabel(i)
    && (i % 3 == 0 ==> spot.status == Available)
    && spot.status in StatusOptions
  }

  ghost predicate IsRandomGrid(spots: seq<ParkingSpotData>, count: nat) {
    |spots| == count && forall k :: 0 <= k < count ==> IsRandomSpot(spots[k], k + 1)
  }

  /**
   * `generateParkingSpots(count)`: every third spot is available, every other spot takes
   * `statusOptions[Math.floor(Math.random() * 3)]`, modelled as an arbitrary index in 0..2.
   */
  method GenerateParkingSpots(count: nat) returns (spots: seq<ParkingSpotData>)
    ensures IsRandomGrid(spots, count)
    ensures DistinctIds(spots)
  {
    spots := [];
    var i := 1;
    while i <= count
      invariant 1 <= i <= count + 1
      invariant |spots| == i - 1
      invariant forall k :: 0 <= k < i - 1 ==> IsRandomSpot(spots[k], k + 1)
    {
      var id := "A" + PadStart(DecimalString(i), 2, '0');
      var randomStatus;
      if i % 3 == 0 {
        randomStatus := Available;
      } else {
        var draw :| 0 <= draw < |StatusOptions|;
        randomStatus := StatusOptions[draw];
      }
      assert IsRandomSpot(ParkingSpotData(id, randomStatus), i);
      spots := spots + [ParkingSpotData(id, randomStatus)];
      i := i + 1;
    }
    LabelledGridDistinct(spots);
  }

  /** The page's own `parkingData`: 18 and 24 randomised spots. */
  method BuildParkingData() returns (data: map<string, seq<ParkingSpotData>>)
    ensures data.Keys == {ParkingComplexes[0], ParkingComplexes[1]}
    ensures IsRandomGrid(data[ParkingComplexes[0]], 18)
    ensures IsRandomGrid(data[ParkingComplexes[1]], 24)
  {
    var first := GenerateParkingSpots(18);
    var second := GenerateParkingSpots(24);
    data := map["Demo Parking 1" := first, "Demo Parking 2" := second];
  }

  /** The state of one rendered reserve page; `isLoggedIn` is the page's prop. */
  class ReservePage {
    const isLoggedIn: bool
    var selectedComplex: Option<string>
    var selectedSpot: Option<string>
    var isReservationModalOpen: bool
    var isConfirmationModalOpen: bool
    var reservation: Option<ReservationData>

    /**
     * The flow's invariant: the reservation modal is only ever open for a logged-in user
     * who has picked a spot, and the confirmation modal only once a reservation exists.
     */
    ghost predicate Valid()
      reads this
    {
      && (isReservationModalOpen ==> isLoggedIn && selectedSpot.Some? && ModalSpotId() == selectedSpot.value)
      && (isConfirmationModalOpen ==> reservation.Some?)
    }

    /** The reservation modal is rendered only while a (non-empty) complex is selected. */
    predicate ReservationModalMounted()
      reads this
    {
      selectedComplex.Some? && selectedComplex.value != ""
    }

    /** The `spotId` prop handed to the modal: `selectedSpot || ''`. */
    function ModalSpotId(): (id: string)
      reads this
      ensures selectedSpot.Some? ==> id == selectedSpot.value
      ensures selectedSpot.None? ==> id == ""
    {
      if selectedSpot.Some? then selectedSpot.value else ""
    }

    constructor (isLoggedIn: bool)
      ensures Valid()
      ensures this.isLoggedIn == isLoggedIn
      ensures selectedComplex.None? && selectedSpot.None? && reservation.None?
      ensures !isReservationModalOpen && !isConfirmationModalOpen
      ensures !ReservationModalMounted()
    {
      this.isLoggedIn := isLoggedIn;
      selectedComplex := None;
      selectedSpot := None;
      isReservationModalOpen := false;
      isConfirmationModalOpen := false;
      reservation := None;
    }

    /** `handleComplexSelect`: changes only the selected complex. */
    method HandleComplexSelect(value: string)
      requires Valid()
      modifies this
      ensures Valid()
      ensures selectedComplex == Some(value)
      ensures selectedSpot == old(selectedSpot) && reservation == old(reservation)
      ensures isReservationModalOpen == old(isReservationModalOpen)
      ensures isConfirmationModalOpen == old(isConfirmationModalOpen)
      ensures value != "" ==> ReservationModalMounted()
    {
      selectedComplex := Some(value);
    }

    /** `handleSpotClick`: a logged-out click only shows a toast and changes nothing. */
    method HandleSpotClick(spotId: string)
      requires Valid()
      modifies this
      ensures Valid()
      ensures !isLoggedIn ==>
        selectedSpot == old(selectedSpot) && isReservationModalOpen == old(isReservationModalOpen)
      ensures isLoggedIn ==> selectedSpot == Some(spotId) && isReservationModalOpen
      ensures isLoggedIn ==> ModalSpotId() == spotId
      ensures selectedComplex == old(selectedComplex) && reservation == old(reservation)
      ensures isConfirmationModalOpen == old(isConfirmationModalOpen)
    {
      if !isLoggedIn {
        return;
      }
      selectedSpot := Some(spotId);
      isReservationModalOpen := true;
    }

    /** `handleReservationConfirm`: store the data and swap the two modals. */
    method HandleReservationConfirm(data: ReservationData)
      requires Valid()
      modifies this
      ensures Valid()
      ensures reservation == Some(data)
      ensures !isReservationModalOpen && isConfirmationModalOpen
      ensures selectedComplex == old(selectedComplex) && selectedSpot == old(selectedSpot)
    {
      reservation := Some(data);
      isReservationModalOpen := false;
      isConfirmationModalOpen := true;
    }

    /** The reservation modal's `onClose`. */
    method CloseReservationModal()
      requires Valid()
      modifies this
      ensures Valid()
      ensures !isReservationModalOpen
      ensures selectedComplex == old(selectedComplex) && selectedSpot == old(selectedSpot)
      ensures reservation == old(reservation) && isConfirmationModalOpen == old(isConfirmationModalOpen)
    {
      isReservationModalOpen := false;
    }

    /** The confirmation modal's `onClose`. */
    method CloseConfirmationModal()
      requires Valid()
      modifies this
      ensures Valid()
      ensures !isConfirmationModalOpen
      ensures selectedComplex == old(selectedComplex) && selectedSpot == old(selectedSpot)
      ensures reservation == old(reservation) && isReservationModalOpen == old(isReservationModalOpen)
    {
      isConfirmationModalOpen := false;
    }
  }
}
