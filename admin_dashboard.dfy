/**
 * The admin dashboard's statistics (src/components/admin/AdminDashboard.tsx): counts over the
 * fetched spot rows and reservation rows. A failed or empty fetch is an absent list.
 */
module AdminDashboard {
  import opened Wrappers

  /** The columns the dashboard selects from `parking_spots`. */
  datatype SpotRecord = SpotRecord(parking_complex: string, status: string)

  /** The column the dashboard selects from `reservations`. */
  datatype ReservationRecord = ReservationRecord(status: string)

  datatype DashboardStats = DashboardStats(
    totalComplexes: nat, totalSpots: nat, availableSpots: nat, reservedSpots: nat,
    occupiedSpots: nat, totalReservations: nat, activeReservations: nat)

  /** The statistics shown before the first fetch completes. */
  const InitialStats := DashboardStats(0, 0, 0, 0, 0, 0, 0)

  /** `spots.filter(spot => spot.status === status).length`. */
  function CountStatus(spots: seq<SpotRecord>, status: string): (n: nat)
    ensures n <= |spots|
    ensures n == 0 <==> forall i :: 0 <= i < |spots| ==> spots[i].status != status
  {
    if spots == [] then 0
    else (if spots[0].status == status then 1 else 0) + CountStatus(spots[1..], status)
  }

  /** The status column of the fetched spot rows, in order. */
  function Statuses(spots: seq<SpotRecord>): (r: seq<string>)
    ensures |r| == |spots|
    ensures forall i :: 0 <= i < |spots| ==> r[i] == spots[i].status
  {
    if spots == [] then [] else [spots[0].status] + Statuses(spots[1..])
  }

  /** The count of a status is that status's multiplicity among all the rows' statuses. */
  lemma {:induction false} CountStatusIsMultiplicity(spots: seq<SpotRecord>, status: string)
    ensures CountStatus(spots, status) == multiset(Statuses(spots))[status]
  {
    if spots != [] {
      CountStatusIsMultiplicity(spots[1..], status);
      assert Statuses(spots) == [spots[0].status] + Statuses(spots[1..]);
    }
  }

  predicate IsActive(r: ReservationRecord) {
    r.status == "upcoming" || r.status == "live"
  }

  /** `reservations.filter(res => res.status === 'upcoming' || res.status === 'live').length`. */
  function CountActive(reservations: seq<ReservationRecord>): (n: nat)
    ensures n <= |reservations|
    ensures n == 0 <==> forall i :: 0 <= i < |reservations| ==> !IsActive(reservations[i])
  {
    if reservations == [] then 0
    else (if IsActive(reservations[0]) then 1 else 0) + CountActive(reservations[1..])
  }

  /** `new Set(spots.map(spot => spot.parking_complex))`. */
  function Complexes(spots: seq<SpotRecord>): (names: set<string>)
    ensures forall i :: 0 <= i < |spots| ==> spots[i].parking_complex in names
    ensures names == {} <==> spots == []
  {
    var names := set i | 0 <= i < |spots| :: spots[i].parking_complex;
    assert spots != [] ==> spots[0].parking_complex in names;
    names
  }

  /** There are never more distinct complexes than spot rows. */
  lemma {:induction false} ComplexesBounded(spots: seq<SpotRecord>)
    ensures |Complexes(spots)| <= |spots|
  {
    if spots != [] {
      var rest := spots[1..];
      ComplexesBounded(rest);
      assert Complexes(spots) == {spots[0].parking_complex} + Complexes(rest) by {
        forall c | c in Complexes(spots) ensures c in {spots[0].parking_complex} + Complexes(rest) {
          var i :| 0 <= i < |spots| && spots[i].parking_complex == c;
          if i > 0 { assert rest[i - 1].parking_complex == c; }
        }
        forall c | c in Complexes(rest) ensures c in Complexes(spots) {
          var i :| 0 <= i < |rest| && rest[i].parking_complex == c;
          assert spots[i + 1].parking_complex == c;
        }
      }
    }
  }

  predicate KnownStatus(s: SpotRecord) {
    s.status == "available" || s.status == "reserved" || s.status == "occupied"
  }

  /** The three status counts never exceed the number of spots, and add up to it when every status is known. */
  lemma {:induction false} StatusCountsBounded(spots: seq<SpotRecord>)
    ensures CountStatus(spots, "available") + CountStatus(spots, "reserved") + CountStatus(spots, "occupied") <= |spots|
    ensures (forall i :: 0 <= i < |spots| ==> KnownStatus(spots[i])) ==>
      CountStatus(spots, "available") + CountStatus(spots, "reserved") + CountStatus(spots, "occupied") == |spots|
  {
    if spots != [] {
      StatusCountsBounded(spots[1..]);
      if forall i :: 0 <= i < |spots| ==> KnownStatus(spots[i]) {
        assert forall i :: 0 <= i < |spots[1..]| ==> KnownStatus(spots[1..][i]) by {
          forall i | 0 <= i < |spots[1..]| ensures KnownStatus(spots[1..][i]) {
            assert spots[1..][i] == spots[i + 1];
          }
        }
      }
    }
  }

  /** `fetchStats`: the seven numbers computed from the two fetched lists. */
  function ComputeStats(spots: Option<seq<SpotRecord>>, reservations: Option<seq<ReservationRecord>>): (s: DashboardStats)
    ensures spots.None? ==>
      s.totalComplexes == 0 && s.totalSpots == 0
      && s.availableSpots == 0 && s.reservedSpots == 0 && s.occupiedSpots == 0
    ensures reservations.None? ==> s.totalReservations == 0 && s.activeReservations == 0
    ensures spots.Some? ==>
      && s.totalSpots == |spots.value|
      && s.totalComplexes == |Complexes(spots.value)|
      && s.availableSpots == CountStatus(spots.value, "available")
      && s.reservedSpots == CountStatus(spots.value, "reserved")
      && s.occupiedSpots == CountStatus(spots.value, "occupied")
    ensures reservations.Some? ==>
      s.totalReservations == |reservations.value| && s.activeReservations == CountActive(reservations.value)
    ensures s.totalComplexes <= s.totalSpots
    ensures s.availableSpots + s.reservedSpots + s.occupiedSpots <= s.totalSpots
    ensures spots.Some? && (forall i :: 0 <= i < |spots.value| ==> KnownStatus(spots.value[i])) ==>
      s.availableSpots + s.reservedSpots + s.occupiedSpots == s.totalSpots
    ensures s.activeReservations <= s.totalReservations
  {
    var spotList := if spots.Some? then spots.value else [];
    var reservationList := if reservations.Some? then reservations.value else [];
    StatusCountsBounded(spotList);
    ComplexesBounded(spotList);
    DashboardStats(
      |Complexes(spotList)|,
      |spotList|,
      CountStatus(spotList, "available"),
      CountStatus(spotList, "reserved"),
      CountStatus(spotList, "occupied"),
      |reservationList|,
      CountActive(reservationList))
  }

  /** An empty fetch and an absent one show the same numbers as the initial state. */
  lemma NoDataGivesInitialStats(spots: Option<seq<SpotRecord>>, reservations: Option<seq<ReservationRecord>>)
    requires spots.None? || spots == Some([])
    requires reservations.None? || reservations == Some([])
    ensures ComputeStats(spots, reservations) == InitialStats
  {
  }
}
