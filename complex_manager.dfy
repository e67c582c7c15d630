/**
 * The admin panel's parking-complex manager (src/components/admin/ParkingComplexManager.tsx):
 * adding a complex inserts 20 available spots numbered "1".."20"; each listed complex shows
 * how many spot rows carry its name. The backend's insert is a parameter.
 */
module ComplexManager {
  import opened Text

  /** A row of the `parking_spots` table as the manager writes it. */
  datatype SpotRow = SpotRow(parking_complex: string, spot_id: string, status: string)

  datatype AddOutcome =
    | Rejected(message: string)        // the name check failed; nothing is inserted
    | InsertFailed(rows: seq<SpotRow>) // the backend refused the rows
    | Added(rows: seq<SpotRow>)

  const EmptyNameMessage := "Please enter a complex name"

  /** How many rows a new complex starts with. */
  const DefaultSpotCount: nat := 20

  /** The rows inserted for a new complex named `name` (the name exactly as typed). */
  function DefaultSpots(name: string): (rows: seq<SpotRow>)
    ensures |rows| == DefaultSpotCount
    ensures forall k :: 0 <= k < |rows| ==> rows[k].spot_id == DecimalString(k + 1)
    ensures forall k :: 0 <= k < |rows| ==> rows[k].status == "available" && rows[k].parking_complex == name
  {
    seq(DefaultSpotCount, i requires 0 <= i < DefaultSpotCount => SpotRow(name, DecimalString(i + 1), "available"))
  }

  /** The default spots of one complex are numbered "1" to "20", with pairwise distinct ids. */
  lemma DefaultSpotIdsDistinct(name: string)
    ensures DefaultSpots(name)[0].spot_id == "1" && DefaultSpots(name)[19].spot_id == "20"
    ensures forall a, b :: 0 <= a < b < DefaultSpotCount ==>
      DefaultSpots(name)[a].spot_id != DefaultSpots(name)[b].spot_id
  {
    assert DecimalString(20) == DecimalString(2) + [Digit(0)];
    var rows := DefaultSpots(name);
    forall a, b | 0 <= a < b < DefaultSpotCount ensures rows[a].spot_id != rows[b].spot_id {
      if rows[a].spot_id == rows[b].spot_id {
        DecimalStringInjective(a + 1, b + 1);
      }
    }
  }

  /** The number of rows of `rows` that belong to complex `name`. */
  function CountComplex(rows: seq<SpotRow>, name: string): (n: nat)
    ensures n <= |rows|
  {
    if rows == [] then 0
    else (if rows[0].parking_complex == name then 1 else 0) + CountComplex(rows[1..], name)
  }

  lemma {:induction false} CountComplexAppend(a: seq<SpotRow>, b: seq<SpotRow>, name: string)
    ensures CountComplex(a + b, name) == CountComplex(a, name) + CountComplex(b, name)
  {
    if a == [] {
      assert a + b == b;
    } else {
      assert (a + b)[1..] == a[1..] + b;
      CountComplexAppend(a[1..], b, name);
    }
  }

  lemma {:induction false} CountComplexAll(rows: seq<SpotRow>, name: string)
    requires forall k :: 0 <= k < |rows| ==> rows[k].parking_complex == name
    ensures CountComplex(rows, name) == |rows|
  {
    if rows != [] {
      CountComplexAll(rows[1..], name);
    }
  }

  /**
   * `spotCount` in `fetchComplexes`: the length of the rows the query returned for `name`,
   * or 0 when it returned nothing.
   */
  function SpotCount(table: seq<SpotRow>, queryFailed: bool, name: string): (n: nat)
    ensures queryFailed ==> n == 0
    ensures !queryFailed ==> n == CountComplex(table, name)
    ensures n <= |table|
  {
    if queryFailed then 0 else CountComplex(table, name)
  }

  /** Adding a complex to a table raises that complex's spot count by exactly 20. */
  lemma AddedComplexCount(table: seq<SpotRow>, name: string)
    ensures SpotCount(table + DefaultSpots(name), false, name) == SpotCount(table, false, name) + DefaultSpotCount
  {
    CountComplexAppend(table, DefaultSpots(name), name);
    CountComplexAll(DefaultSpots(name), name);
  }

  /** The add-complex dialog's state. */
  class ComplexManagerPage {
    var newComplexName: string
    var isDialogOpen: bool

    constructor ()
      ensures newComplexName == "" && !isDialogOpen
    {
      newComplexName := "";
      isDialogOpen := false;
    }

    /** The name input's `onChange`. */
    method SetNewComplexName(value: string)
      modifies this
      ensures newComplexName == value && isDialogOpen == old(isDialogOpen)
    {
      newComplexName := value;
    }

    /** The dialog's `onOpenChange`. */
    method SetDialogOpen(open: bool)
      modifies this
      ensures isDialogOpen == open && newComplexName == old(newComplexName)
    {
      isDialogOpen := open;
    }

    /**
     * `addComplex`: a blank name is refused before anything is built; otherwise the 20
     * default rows are handed to the backend, and only a successful insert clears the name
     * and closes the dialog.
     */
    method AddComplex(insertSucceeds: bool) returns (r: AddOutcome)
      modifies this
      ensures AllWhitespace(old(newComplexName)) ==>
        r == Rejected(EmptyNameMessage)
        && newComplexName == old(newComplexName) && isDialogOpen == old(isDialogOpen)
      ensures !AllWhitespace(old(newComplexName)) && !insertSucceeds ==>
        r == InsertFailed(DefaultSpots(old(newComplexName)))
        && newComplexName == old(newComplexName) && isDialogOpen == old(isDialogOpen)
      ensures !AllWhitespace(old(newComplexName)) && insertSucceeds ==>
        r == Added(DefaultSpots(old(newComplexName)))
        && newComplexName == "" && !isDialogOpen
    {
      TrimEmptyIff(newComplexName);
      if Trim(newComplexName) == "" {
        return Rejected(EmptyNameMessage);
      }
      var spots := DefaultSpots(newComplexName);
      if !insertSucceeds {
        return InsertFailed(spots);
      }
      newComplexName := "";
      isDialogOpen := false;
      r := Added(spots);
    }
  }
}
