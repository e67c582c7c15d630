/**
 * The reservation form (src/components/ReservationModal.tsx): a form state initialised once
 * when the component mounts, three field handlers, and a submit handler that runs its checks
 * in the order plate, date, duration and hands the form to `onConfirm` when all pass.
 */
module ReservationModal {
  import opened Wrappers

  /** A point in time (a `Date`), as milliseconds; the clock itself is a parameter. */
  type Date = int

  /** `ReservationData`, what `onConfirm` receives. */
  datatype ReservationData = ReservationData(
    spotId: string, parkingComplex: string, vehiclePlate: string, date: Date, duration: string)

  /** `formData`, a `Partial<ReservationData>`; only the date can be absent. */
  datatype FormData = FormData(
    spotId: string, parkingComplex: string, vehiclePlate: string, date: Option<Date>, duration: string)

  datatype SubmitResult = Confirmed(data: ReservationData) | Rejected(message: string)

  /** `durations`: the choices the duration select offers. */
  const Durations: seq<string> := ["30 min", "1 hour", "2 hours", "4 hours", "8 hours", "All day"]

  const PlateMessage := "Please enter your vehicle plate number"
  const DateMessage := "Please select a date and time"
  const DurationMessage := "Please select the duration"

  /** The form at mount time: the props, the clock's `now` and a one-hour duration. */
  function InitialFormData(spotId: string, parkingComplex: string, vehiclePlate: string, now: Date): (f: FormData)
    ensures f.spotId == spotId && f.parkingComplex == parkingComplex && f.vehiclePlate == vehiclePlate
    ensures f.date == Some(now)
    ensures f.duration == "1 hour" && f.duration in Durations
  {
    FormData(spotId, parkingComplex, vehiclePlate, Some(now), "1 hour")
  }

  /** The selectable durations are six distinct, non-empty labels. */
  lemma DurationsWellFormed()
    ensures |Durations| == 6
    ensures forall i, j :: 0 <= i < j < |Durations| ==> Durations[i] != Durations[j]
    ensures forall d :: d in Durations ==> d != ""
  {
  }

  /**
   * `handleSubmit` as written: the first failing check decides the message; when none fails,
   * `onConfirm` receives the form itself, including the spot and complex it was mounted with.
   */
  function SubmitForm(form: FormData): (r: SubmitResult)
    ensures r.Confirmed? <==> form.vehiclePlate != "" && form.date.Some? && form.duration != ""
    ensures form.vehiclePlate == "" ==> r == Rejected(PlateMessage)
    ensures form.vehiclePlate != "" && form.date.None? ==> r == Rejected(DateMessage)
    ensures form.vehiclePlate != "" && form.date.Some? && form.duration == "" ==> r == Rejected(DurationMessage)
    ensures r.Confirmed? ==>
      r.data == ReservationData(form.spotId, form.parkingComplex, form.vehiclePlate, form.date.value, form.duration)
  {
    if form.vehiclePlate == "" then Rejected(PlateMessage)
    else if form.date.None? then Rejected(DateMessage)
    else if form.duration == "" then Rejected(DurationMessage)
    else Confirmed(ReservationData(form.spotId, form.parkingComplex, form.vehiclePlate, form.date.value, form.duration))
  }

  /**
   * `handleSubmit` as evidently intended: the same checks, but the confirmed reservation
   * names the spot and complex the modal currently shows (its props), not those it was
   * mounted with.
   */
  function SubmitFormWithProps(form: FormData, spotId: string, parkingComplex: string): (r: SubmitResult)
    ensures r.Confirmed? <==> SubmitForm(form).Confirmed?
    ensures r.Rejected? ==> r == SubmitForm(form)
    ensures r.Confirmed? ==> r.data.spotId == spotId && r.data.parkingComplex == parkingComplex
    ensures r.Confirmed? ==>
      && r.data.vehiclePlate == form.vehiclePlate && r.data.duration == form.duration
      && Some(r.data.date) == form.date
  {
    match SubmitForm(form)
    case Rejected(message) => Rejected(message)
    case Confirmed(data) => Confirmed(data.(spotId := spotId, parkingComplex := parkingComplex))
  }

  /**
   * A form reachable through the handlers always has a date and a listed duration, so its
   * submission is confirmed exactly when a plate was entered.
   */
  lemma ReachableSubmitNeedsOnlyPlate(form: FormData)
    requires form.date.Some? && form.duration in Durations
    ensures SubmitForm(form).Confirmed? <==> form.vehiclePlate != ""
    ensures form.vehiclePlate == "" ==> SubmitForm(form) == Rejected(PlateMessage)
  {
    DurationsWellFormed();
  }

  /** The calendar disables every day strictly before now. */
  predicate DateDisabled(date: Date, now: Date) {
    date < now
  }

  /** One mounted reservation modal and its `formData` state. */
  class ReservationForm {
    var formData: FormData

    /** What every handler keeps: a date is set and the duration is one of `durations`. */
    ghost predicate Valid()
      reads this
    {
      formData.date.Some? && formData.duration in Durations
    }

    /** `useState({...})`: evaluated once, with the props and clock of the first render. */
    constructor (spotId: string, parkingComplex: string, vehiclePlate: string, now: Date)
      ensures Valid()
      ensures formData == InitialFormData(spotId, parkingComplex, vehiclePlate, now)
    {
      formData := InitialFormData(spotId, parkingComplex, vehiclePlate, now);
    }

    /** The plate input's `onChange`. */
    method SetVehiclePlate(value: string)
      requires Valid()
      modifies this
      ensures Valid()
      ensures formData.vehiclePlate == value
      ensures formData == old(formData).(vehiclePlate := value)
    {
      formData := formData.(vehiclePlate := value);
    }

    /**
     * The calendar's `onSelect`: a cleared selection falls back to now. The calendar only
     * offers days that are not disabled.
     */
    method SelectDate(picked: Option<Date>, now: Date)
      requires Valid()
      requires picked.None? || !DateDisabled(picked.value, now)
      modifies this
      ensures Valid()
      ensures formData == old(formData).(date := formData.date)
      ensures picked.Some? ==> formData.date == picked
      ensures picked.None? ==> formData.date == Some(now)
      ensures formData.date.value >= now
    {
      var date := if picked.Some? then picked.value else now;
      formData := formData.(date := Some(date));
    }

    /** The duration select's `onValueChange`; the select only offers `durations`. */
    method SelectDuration(value: string)
      requires Valid()
      requires value in Durations
      modifies this
      ensures Valid()
      ensures formData == old(formData).(duration := value)
    {
      formData := formData.(duration := value);
    }
  }
}
