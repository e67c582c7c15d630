/**
 * The home page's booking flow (src/pages/Home.tsx): pick a complex (which reveals the grid),
 * click a spot (logged-in users only), fill the always-mounted reservation modal, confirm.
 */
module Home {
  import opened Wrappers
  import opened ParkingData
  import opened ReservationModal

  /**
   * The modal is mounted together with the page, while no spot is selected, so its form keeps
   * spot id "" and the first complex; submitting it as written confirms a reservation for
   * spot "" although spot "A04" of the second complex, an available spot, is the one shown.
   */
  lemma MountTimeSpotIdCounterexample(now: Date)
    ensures SpotLabel(4) == "A04" && SeededStatus(4, 2) == Available
    ensures
      var mounted := InitialFormData("", ParkingComplexes[0], "", now);
      var typed := mounted.(vehiclePlate := "ABC123");
      && SubmitForm(typed) == Confirmed(ReservationData("", "Demo Parking 1", "ABC123", now, "1 hour"))
      && SubmitFormWithProps(typed, "A04", ParkingComplexes[1])
           == Confirmed(ReservationData("A04", "Demo Parking 2", "ABC123", now, "1 hour"))
  {
  }

  /** The state of one rendered home page; `isLoggedIn` is the page's prop. */
  class HomePage {
    const isLoggedIn: bool
    /** The reservation modal, mounted once with the page. */
    const modal: ReservationForm
    var selectedComplex: string
    var showParkingGrid: bool
    var selectedSpot: Option<string>
    var isReservationModalOpen: bool
    var isConfirmationModalOpen: bool
    var reservation: Option<ReservationData>

    /**
     * The flow's invariant: the reservation modal is only ever open for a logged-in user
     * who has picked a spot, and the confirmation modal only once a reservation exists.
     */
    ghost predicate Valid()
      reads this, modal
    {
      && modal.Valid()
      && (isReservationModalOpen ==> isLoggedIn && selectedSpot.Some? && ModalSpotId() == selectedSpot.value)
      && (isConfirmationModalOpen ==> reservation.Some?)
    }

    /** The `spotId` prop handed to the modal: `selectedSpot || ''`. */
    function ModalSpotId(): (id: string)
      reads this
      ensures selectedSpot.Some? ==> id == selectedSpot.value
      ensures selectedSpot.None? ==> id == ""
    {
      if selectedSpot.Some? then selectedSpot.value else ""
    }

    /** The initial state: first complex, grid hidden, nothing selected, both modals closed. */
    constructor (isLoggedIn: bool, now: Date)
      ensures Valid() && fresh(modal)
      ensures this.isLoggedIn == isLoggedIn
      ensures selectedComplex == ParkingComplexes[0]
      ensures !showParkingGrid && selectedSpot.None?
      ensures !isReservationModalOpen && !isConfirmationModalOpen && reservation.None?
      ensures modal.formData == InitialFormData("", ParkingComplexes[0], "", now)
    {
      this.isLoggedIn := isLoggedIn;
      selectedComplex := ParkingComplexes[0];
      showParkingGrid := false;
      selectedSpot := None;
      isReservationModalOpen := false;
      isConfirmationModalOpen := false;
      reservation := None;
      modal := new ReservationForm("", ParkingComplexes[0], "", now);
    }

    /** `handleComplexSelect`: select the complex and reveal the grid. */
    method HandleComplexSelect(value: string)
      requires Valid()
      modifies this
      ensures Valid()
      ensures selectedComplex == value && showParkingGrid
      ensures selectedSpot == old(selectedSpot) && reservation == old(reservation)
      ensures isReservationModalOpen == old(isReservationModalOpen)
      ensures isConfirmationModalOpen == old(isConfirmationModalOpen)
    {
      selectedComplex := value;
      showParkingGrid := true;
    }

    /** `handleSpotClick`: a logged-out click only shows a toast and changes nothing. */
    method HandleSpotClick(spotId: string)
      requires Valid()
      modifies this
      ensures Valid()
      ensures !isLoggedIn ==>
        && selectedSpot == old(selectedSpot) && isReservationModalOpen == old(isReservationModalOpen)
      ensures isLoggedIn ==> selectedSpot == Some(spotId) && isReservationModalOpen
      ensures isLoggedIn ==> ModalSpotId() == spotId
      ensures selectedComplex == old(selectedComplex) && showParkingGrid == old(showParkingGrid)
      ensures reservation == old(reservation) && isConfirmationModalOpen == old(isConfirmationModalOpen)
    {
      if !isLoggedIn {
        return;
      }
      selectedSpot := Some(spotId);
      isReservationModalOpen := true;
    }

    /** `handleReservationConfirm`: store the data and swap the two modals. */
    method HandleReservationConfirm(data: ReservationData)
      requires Valid()
      modifies this
      ensures Valid()
      ensures reservation == Some(data)
      ensures !isReservationModalOpen && isConfirmationModalOpen
      ensures selectedComplex == old(selectedComplex) && selectedSpot == old(selectedSpot)
      ensures showParkingGrid == old(showParkingGrid)
    {
      reservation := Some(data);
      isReservationModalOpen := false;
      isConfirmationModalOpen := true;
    }

    /** The reservation modal's `onClose`: the selected spot is kept. */
    method CloseReservationModal()
      requires Valid()
      modifies this
      ensures Valid()
      ensures !isReservationModalOpen
      ensures selectedSpot == old(selectedSpot) && selectedComplex == old(selectedComplex)
      ensures showParkingGrid == old(showParkingGrid)
      ensures reservation == old(reservation) && isConfirmationModalOpen == old(isConfirmationModalOpen)
    {
      isReservationModalOpen := false;
    }

    /** The confirmation modal's `onClose`. */
    method CloseConfirmationModal()
      requires Valid()
      modifies this
      ensures Valid()
      ensures !isConfirmationModalOpen
      ensures selectedSpot == old(selectedSpot) && selectedComplex == old(selectedComplex)
      ensures showParkingGrid == old(showParkingGrid)
      ensures reservation == old(reservation) && isReservationModalOpen == old(isReservationModalOpen)
    {
      isConfirmationModalOpen := false;
    }

    /**
     * Submitting the open reservation modal, with the corrected submit handler: the form's
     * checks decide, and a confirmed reservation names the spot and complex now selected.
     */
    method SubmitReservation() returns (r: SubmitResult)
      requires Valid()
      requires isReservationModalOpen
      modifies this
      ensures Valid()
      ensures r.Confirmed? <==> modal.formData.vehiclePlate != ""
      ensures r.Rejected? ==> r == Rejected(PlateMessage)
      ensures r.Rejected? ==>
        && reservation == old(reservation) && isReservationModalOpen
        && isConfirmationModalOpen == old(isConfirmationModalOpen)
      ensures r.Confirmed? ==>
        && reservation == Some(r.data)
        && r.data.spotId == old(selectedSpot).value
        && r.data.parkingComplex == old(selectedComplex)
        && !isReservationModalOpen && isConfirmationModalOpen
      ensures selectedSpot == old(selectedSpot) && selectedComplex == old(selectedComplex)
      ensures showParkingGrid == old(showParkingGrid)
    {
      ReachableSubmitNeedsOnlyPlate(modal.formData);
      r := SubmitFormWithProps(modal.formData, ModalSpotId(), selectedComplex);
      if r.Confirmed? {
        HandleReservationConfirm(r.data);
      }
    }
  }
}
