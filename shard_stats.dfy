/**
 * The per-shard statistics row: construction from a data object with defaults and
 * the `_id` check, and the `toObject` projection. The running averages written by
 * the cycle controller use floating point and are not part of this model.
 */
module ShardStatistics {
  import opened Wrappers

  /** The data object handed to the constructor; an absent property is `undefined`. */
  datatype StatsData = StatsData(
    id: Option<string>,
    feeds: Option<int>,
    cycleTime: Option<real>,
    cycleFails: Option<real>,
    cycleURLs: Option<int>,
    lastUpdated: Option<string>)

  /** What `toObject()` returns. */
  datatype StatsObject = StatsObject(
    id: string,
    feeds: int,
    cycleTime: real,
    cycleFails: real,
    cycleURLs: int,
    lastUpdated: string)

  const NOT_UPDATED := "N/A"
  const UNDEFINED_ID := "Undefined _id"

  /** `getField(key, fallback)`: the stored value, or the fallback when it is absent. */
  function FieldOr<T>(v: Option<T>, fallback: T): T {
    if v.Some? then v.value else fallback
  }

  class ShardStats {
    var id: string
    var feeds: int
    var cycleTime: real
    var cycleFails: real
    var cycleURLs: int
    var lastUpdated: string

    /** The field assignments after the `_id` check has passed. */
    constructor (data: StatsData)
      requires Truthy(data.id)
      ensures id == data.id.value
      ensures feeds == FieldOr(data.feeds, 0) && cycleURLs == FieldOr(data.cycleURLs, 0)
      ensures cycleTime == FieldOr(data.cycleTime, 0.0) && cycleFails == FieldOr(data.cycleFails, 0.0)
      ensures lastUpdated == FieldOr(data.lastUpdated, NOT_UPDATED)
    {
      id := data.id.value;
      feeds := FieldOr(data.feeds, 0);
      cycleTime := FieldOr(data.cycleTime, 0.0);
      cycleFails := FieldOr(data.cycleFails, 0.0);
      cycleURLs := FieldOr(data.cycleURLs, 0);
      lastUpdated := FieldOr(data.lastUpdated, NOT_UPDATED);
    }

    /** `toObject()`: exactly the six persisted fields with their current values. */
    function ToObject(): (o: StatsObject)
      reads this
      ensures o.id == id && o.feeds == feeds && o.cycleTime == cycleTime
      ensures o.cycleFails == cycleFails && o.cycleURLs == cycleURLs && o.lastUpdated == lastUpdated
    {
      StatsObject(id, feeds, cycleTime, cycleFails, cycleURLs, lastUpdated)
    }
  }

  /** `new ShardStats(data)`: throws "Undefined _id" when `_id` is missing or empty. */
  method Create(data: StatsData) returns (r: Result<ShardStats, string>)
    ensures r.Failure? <==> !Truthy(data.id)
    ensures r.Failure? ==> r.error == UNDEFINED_ID
    ensures r.Success? ==> fresh(r.value) && r.value.ToObject() == Constructed(data)
  {
    if !Truthy(data.id) {
      return Failure(UNDEFINED_ID);
    }
    var stats := new ShardStats(data);
    return Success(stats);
  }

  /** The object a successful construction projects to. */
  function Constructed(data: StatsData): StatsObject
    requires Truthy(data.id)
  {
    StatsObject(
      data.id.value,
      FieldOr(data.feeds, 0),
      FieldOr(data.cycleTime, 0.0),
      FieldOr(data.cycleFails, 0.0),
      FieldOr(data.cycleURLs, 0),
      FieldOr(data.lastUpdated, NOT_UPDATED))
  }

  /** With only an `_id`, every counter is 0 and `lastUpdated` is 'N/A'; given values are kept. */
  lemma Defaults(data: StatsData)
    requires Truthy(data.id)
    ensures data.feeds.None? ==> Constructed(data).feeds == 0
    ensures data.cycleTime.None? ==> Constructed(data).cycleTime == 0.0
    ensures data.cycleFails.None? ==> Constructed(data).cycleFails == 0.0
    ensures data.cycleURLs.None? ==> Constructed(data).cycleURLs == 0
    ensures data.lastUpdated.None? ==> Constructed(data).lastUpdated == NOT_UPDATED
    ensures data.feeds.Some? ==> Constructed(data).feeds == data.feeds.value
    ensures data.lastUpdated.Some? ==> Constructed(data).lastUpdated == data.lastUpdated.value
  {
  }
}
