/**
 * The seeded mock spot grid shared by the home page (src/utils/parkingData.ts):
 * spot ids `A01`, `A02`, ... and a status chosen by a fixed modular rule.
 */
module ParkingData {
  import opened Text

  datatype SpotStatus = Available | Occupied | Reserved

  datatype ParkingSpotData = ParkingSpotData(id: string, status: SpotStatus)

  /** `statusOptions`, in the order the modular rule indexes it. */
  const StatusOptions: seq<SpotStatus> := [Available, Occupied, Reserved]

  /** `parkingComplexes`. */
  const ParkingComplexes: seq<string> := ["Demo Parking 1", "Demo Parking 2"]

  /** The id of the i-th spot: `A` followed by i padded with zeros to two digits. */
  function SpotLabel(i: nat): (id: string)
    ensures |id| >= 3 && id[0] == 'A'
    ensures id[1..] == PadStart(DecimalString(i), 2, '0')
  {
    "A" + PadStart(DecimalString(i), 2, '0')
  }

  /** Distinct spot numbers get distinct ids: the padding never truncates. */
  lemma SpotLabelInjective(i: nat, j: nat)
    requires SpotLabel(i) == SpotLabel(j)
    ensures i == j
  {
    assert SpotLabel(i)[1..] == SpotLabel(j)[1..];
    ZeroPaddedDecimalInjective(i, j);
  }

  /** What the seeded generator promises about its result, index by index. */
  ghost predicate IsSeededGrid(spots: seq<ParkingSpotData>, count: nat, seed: nat) {
    && |spots| == count
    && (forall k :: 0 <= k < count ==> spots[k].id == SpotLabel(k + 1))
    && (forall k :: 0 <= k < count && (k + 1) % 4 == 0 ==> spots[k].status == Available)
    && (forall k :: 0 <= k < count && (k + 1) % 4 != 0 ==>
          spots[k].status == StatusOptions[(k + 1 + seed) % 3])
  }

  ghost predicate DistinctIds(spots: seq<ParkingSpotData>) {
    forall a, b :: 0 <= a < b < |spots| ==> spots[a].id != spots[b].id
  }

  /** Every grid whose ids are the spot labels 1..n in order has pairwise distinct ids. */
  lemma LabelledGridDistinct(spots: seq<ParkingSpotData>)
    requires forall k :: 0 <= k < |spots| ==> spots[k].id == SpotLabel(k + 1)
    ensures DistinctIds(spots)
  {
    forall a, b | 0 <= a < b < |spots| ensures spots[a].id != spots[b].id {
      if spots[a].id == spots[b].id {
        SpotLabelInjective(a + 1, b + 1);
      }
    }
  }

  /** The generator is deterministic: its specification fixes the grid completely. */
  lemma SeededGridDeterministic(s1: seq<ParkingSpotData>, s2: seq<ParkingSpotData>, count: nat, seed: nat)
    requires IsSeededGrid(s1, count, seed) && IsSeededGrid(s2, count, seed)
    ensures s1 == s2
  {
    forall k | 0 <= k < count ensures s1[k] == s2[k] {
      if (k + 1) % 4 == 0 {
        assert s1[k].status == Available == s2[k].status;
      } else {
        assert s1[k].status == StatusOptions[(k + 1 + seed) % 3] == s2[k].status;
      }
    }
  }

  /** The status rule for spot number i: every fourth spot is available, the rest rotate with the seed. */
  function SeededStatus(i: nat, seed: nat): (status: SpotStatus)
    ensures status in StatusOptions
    ensures i % 4 == 0 ==> status == Available
  {
    if i % 4 == 0 then Available else StatusOptions[(i + seed) % 3]
  }

  lemma SeededGridFromStatuses(spots: seq<ParkingSpotData>, count: nat, seed: nat)
    requires |spots| == count
    requires forall k :: 0 <= k < count ==> spots[k] == ParkingSpotData(SpotLabel(k + 1), SeededStatus(k + 1, seed))
    ensures IsSeededGrid(spots, count, seed)
  {
  }

  /** `generateParkingSpots(count, seed)`: one spot per index 1..count, pushed in order. */
  method GenerateParkingSpots(count: nat, seed: nat) returns (spots: seq<ParkingSpotData>)
    ensures IsSeededGrid(spots, count, seed)
    ensures DistinctIds(spots)
  {
    spots := [];
    var i := 1;
    while i <= count
      invariant 1 <= i <= count + 1
      invariant |spots| == i - 1
      invariant forall k :: 0 <= k < i - 1 ==>
                  spots[k] == ParkingSpotData(SpotLabel(k + 1), SeededStatus(k + 1, seed))
    {
      var id := "A" + PadStart(DecimalString(i), 2, '0');
      var statusIndex := (i + seed) % 3;
      var status := if i % 4 == 0 then Available else StatusOptions[statusIndex];
      assert status == SeededStatus(i, seed);
      spots := spots + [ParkingSpotData(id, status)];
      i := i + 1;
    }
    SeededGridFromStatuses(spots, count, seed);
    LabelledGridDistinct(spots);
  }

  /** `parkingData`: the two demo complexes with 18 and 24 seeded spots. */
  method BuildParkingData() returns (data: map<string, seq<ParkingSpotData>>)
    ensures data.Keys == {ParkingComplexes[0], ParkingComplexes[1]}
    ensures IsSeededGrid(data[ParkingComplexes[0]], 18, 1)
    ensures IsSeededGrid(data[ParkingComplexes[1]], 24, 2)
  {
    var first := GenerateParkingSpots(18, 1);
    var second := GenerateParkingSpots(24, 2);
    data := map["Demo Parking 1" := first, "Demo Parking 2" := second];
  }
}
