/**
 * The static room inventory of the hotel: the four room types, their nightly
 * price and the number of units of each type (the `ROOM_PRICES` and
 * `ROOM_COUNTS` tables of the server).
 */
module Inventory {

  /** The room types in the order in which the tables list them. */
  const RoomTypes: seq<string> := ["rooms", "suites", "lux", "prestige"]

  /** Nightly price per room type. */
  const RoomPrices: map<string, nat> :=
    map["rooms" := 120, "suites" := 210, "lux" := 280, "prestige" := 320]

  /** Number of units per room type. */
  const RoomCounts: map<string, nat> :=
    map["rooms" := 48, "suites" := 29, "lux" := 15, "prestige" := 6]

  /** A name is a room type when the price table has an entry for it. */
  predicate IsRoomType(t: string)
  {
    t in RoomPrices
  }

  /**
   * Both tables cover exactly the four listed room types, the listed types are
   * distinct, and every price and every count is positive.
   */
  lemma InventoryShape()
    ensures RoomPrices.Keys == RoomCounts.Keys
    ensures RoomCounts.Keys == set i | 0 <= i < |RoomTypes| :: RoomTypes[i]
    ensures |RoomTypes| == 4
    ensures forall i, j :: 0 <= i < j < |RoomTypes| ==> RoomTypes[i] != RoomTypes[j]
    ensures forall t :: t in RoomPrices ==> RoomPrices[t] > 0
    ensures forall t :: t in RoomCounts ==> RoomCounts[t] > 0
  {
    var listed := set i | 0 <= i < |RoomTypes| :: RoomTypes[i];
    assert RoomTypes[0] in listed && RoomTypes[1] in listed;
    assert RoomTypes[2] in listed && RoomTypes[3] in listed;
    assert listed == {"rooms", "suites", "lux", "prestige"};
  }
}
