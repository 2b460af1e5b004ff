/** `AlertController`: alerts kept in a hash map keyed by alert id, with
    listing (filters and page arithmetic in Java `int`), lookup, creation,
    replacement, deletion and counting statistics. The stored alert is
    modelled as a record value holding the fields the controller reads or
    writes; `None` stands for a Java `null`. */
module AlertController {
  import opened Common
  import opened AlertModel

  datatype AlertRecord = AlertRecord(alertId: Option<Id>, title: Option<string>,
                                     description: Option<string>,
                                     level: Option<AlertLevel>, status: Option<AlertStatus>,
                                     createdAt: Option<int>, updatedAt: Option<int>,
                                     resolvedAt: Option<int>)

  datatype AlertStats = AlertStats(totalAlerts: nat, openAlerts: nat, criticalAlerts: nat,
                                   timestamp: int)

  /** The `subList` page of `getAllAlerts`: `start = page * size` and
      `end = min(start + size, n)`, both in 32-bit arithmetic. A start past
      the end gives an empty page; otherwise `subList` throws for a
      negative start or a start beyond the end. */
  function Paginate<T>(items: seq<T>, page: Int32, size: Int32): (r: Result<seq<T>>)
    ensures r.Err? ==> r.error == IndexOutOfBounds || r.error == IllegalArgument
    ensures r.Ok? ==> |r.value| <= |items| && (size <= 0 ==> r.value == [])
    ensures r.Ok? ==> forall i | 0 <= i < |r.value| :: r.value[i] in items
    ensures Wrap32(page * size) >= |items| ==> r == Ok([])
    ensures r == Err(IndexOutOfBounds) <==> Wrap32(page * size) < 0
  {
    var start := Wrap32(page * size);
    var end := Min(Wrap32(start + size), |items|);
    if start >= |items| then Ok([])
    else if start < 0 then Err(IndexOutOfBounds)
    else if start > end then Err(IllegalArgument)
    else Ok(items[start..end])
  }

  /** Without overflow the page is the window `[page*size, page*size + size)`
      of the list, cut at its end: at most `size` elements, empty once the
      start is past the end. */
  lemma {:induction false} PaginateInRange<T>(items: seq<T>, page: Int32, size: Int32)
    requires 0 <= page && 0 <= size && page * size + size <= INT32_MAX
    ensures page * size >= |items| ==> Paginate(items, page, size) == Ok([])
    ensures page * size < |items| ==>
              Paginate(items, page, size) == Ok(items[page * size..Min(page * size + size, |items|)])
    ensures Paginate(items, page, size).Ok? && |Paginate(items, page, size).value| <= size
  {
    assert 0 <= page * size by {
      MulNonNegative(page, size);
    }
  }

  lemma MulNonNegative(a: int, b: int)
    requires 0 <= a && 0 <= b
    ensures 0 <= a * b
  {
  }

  /** Large page numbers wrap: with `size = 65536`, page 65536 starts at
      `65536 * 65536 = 2^32`, which is 0 as a Java `int`, so it serves the
      first page again. */
  lemma {:induction false} PaginateWraps<T>(items: seq<T>)
    ensures Paginate(items, 65536, 65536) == Paginate(items, 0, 65536)
    ensures items != [] ==> Paginate(items, 65536, 65536) == Ok(items[..Min(65536, |items|)])
  {
    assert Wrap32(65536 * 65536) == 0;
    assert Wrap32(0 * 65536) == 0;
  }

  /** `getLevel().toString()` and `getStatus().toString()`: the printed
      field, or `None` where the field is `null`. */
  function LevelName(a: AlertRecord): Option<string> {
    if a.level.Some? then Some(a.level.value.Name()) else None
  }

  function StatusName(a: AlertRecord): Option<string> {
    if a.status.Some? then Some(a.status.value.Name()) else None
  }

  /** The stream filter `field(a).toString().equals(value)`: the alerts
      whose field prints as `value`; a stored `null` field makes
      `toString()` throw. */
  function FilterBy(records: seq<AlertRecord>, field: AlertRecord -> Option<string>, value: string)
    : (r: Result<seq<AlertRecord>>)
    ensures r.Err? <==> exists i | 0 <= i < |records| :: field(records[i]).None?
    ensures r.Err? ==> r.error == NullPointer
    ensures r.Ok? ==> forall i | 0 <= i < |r.value| :: r.value[i] in records && field(r.value[i]) == Some(value)
    ensures r.Ok? ==> forall i | 0 <= i < |records| && field(records[i]) == Some(value) :: records[i] in r.value
  {
    if exists i | 0 <= i < |records| :: field(records[i]).None? then Err(NullPointer)
    else Ok(Filter(records, (a: AlertRecord) => field(a) == Some(value)))
  }

  /** `getAllAlerts` on the map's values listed in `records`: the optional
      level filter, then the optional status filter, then the page. */
  function ListAlerts(records: seq<AlertRecord>, page: Int32, size: Int32,
                      level: Option<string>, status: Option<string>): (r: Result<seq<AlertRecord>>)
  {
    var byLevel := if level.Some? then FilterBy(records, LevelName, level.value) else Ok(records);
    if byLevel.Err? then byLevel
    else
      var byStatus := if status.Some? then FilterBy(byLevel.value, StatusName, status.value) else byLevel;
      if byStatus.Err? then byStatus
      else Paginate(byStatus.value, page, size)
  }

  /** Every listed alert is stored and passes both filters; without filters
      the listing is the page of all records. */
  lemma {:induction false} ListAlertsFilters(records: seq<AlertRecord>, page: Int32, size: Int32,
                                             level: Option<string>, status: Option<string>)
    ensures var r := ListAlerts(records, page, size, level, status);
            r.Ok? ==> forall i | 0 <= i < |r.value| ::
                        && r.value[i] in records
                        && (level.Some? ==> r.value[i].level.Some? && r.value[i].level.value.Name() == level.value)
                        && (status.Some? ==> r.value[i].status.Some? && r.value[i].status.value.Name() == status.value)
    ensures level.None? && status.None? ==> ListAlerts(records, page, size, level, status) == Paginate(records, page, size)
    ensures ListAlerts(records, page, size, level, status) == Err(NullPointer) ==>
              level.Some? || status.Some?
  {
    var byLevel := if level.Some? then FilterBy(records, LevelName, level.value) else Ok(records);
    if byLevel.Ok? {
      var byStatus := if status.Some? then FilterBy(byLevel.value, StatusName, status.value) else byLevel;
      if byStatus.Ok? {
        var r := Paginate(byStatus.value, page, size);
        if r.Ok? {
          forall i | 0 <= i < |r.value|
            ensures && r.value[i] in records
                    && (level.Some? ==> r.value[i].level.Some? && r.value[i].level.value.Name() == level.value)
                    && (status.Some? ==> r.value[i].status.Some? && r.value[i].status.value.Name() == status.value)
          {
            assert r.value[i] in byStatus.value;
            var j :| 0 <= j < |byStatus.value| && byStatus.value[j] == r.value[i];
            assert byStatus.value[j] in byLevel.value;
          }
        }
      }
    }
  }

  class AlertController {
    var alerts: map<Id, AlertRecord>
    var nextId: Id

    /** Every key is an id already drawn, and the record stored under a key
        carries that key as its alert id. */
    ghost predicate Valid()
      reads this
    {
      forall k | k in alerts :: k < nextId && alerts[k].alertId == Some(k)
    }

    constructor ()
      ensures alerts == map[] && nextId == 0 && Valid()
    {
      alerts := map[];
      nextId := 0;
    }

    /** `GET /alerts`. The values are listed in an unspecified order `order`. */
    method GetAllAlerts(page: Int32, size: Int32, level: Option<string>, status: Option<string>)
      returns (r: Result<seq<AlertRecord>>, order: seq<Id>)
      ensures Enumerates(order, alerts)
      ensures r == ListAlerts(ValuesAt(alerts, order), page, size, level, status)
    {
      order := Enumerate(alerts);
      r := ListAlerts(ValuesAt(alerts, order), page, size, level, status);
    }

    /** `GET /alerts/{id}`. */
    method GetAlert(id: Id) returns (r: Result<AlertRecord>)
      ensures id in alerts ==> r == Ok(alerts[id])
      ensures id !in alerts ==> r == Err(NotFound)
    {
      if id in alerts {
        r := Ok(alerts[id]);
      } else {
        r := Err(NotFound);
      }
    }

    /** `POST /alerts`: a fresh id, both times set to `now`, status OPEN
        when none is given; the map gains exactly that key. */
    method CreateAlert(alert: AlertRecord, now: int) returns (stored: AlertRecord)
      requires Valid()
      modifies this
      ensures Valid()
      ensures stored == alert.(alertId := Some(old(nextId)), createdAt := Some(now), updatedAt := Some(now),
                               status := if alert.status.None? then Some(Open) else alert.status)
      ensures old(nextId) !in old(alerts) && alerts == old(alerts)[old(nextId) := stored]
      ensures alerts.Keys == old(alerts).Keys + {old(nextId)} && |alerts| == |old(alerts)| + 1
    {
      var id := nextId;
      nextId := nextId + 1;
      stored := alert.(alertId := Some(id), createdAt := Some(now), updatedAt := Some(now));
      if stored.status.None? {
        stored := stored.(status := Some(Open));
      }
      alerts := alerts[id := stored];
    }

    /** `PUT /alerts/{id}`: replaces the stored alert, keeping its id and
        creation time; the status is not defaulted. An unknown id is a 404
        and changes nothing. */
    method UpdateAlert(id: Id, alert: AlertRecord, now: int) returns (r: Result<AlertRecord>)
      requires Valid()
      modifies this`alerts
      ensures Valid()
      ensures id !in old(alerts) ==> r == Err(NotFound) && alerts == old(alerts)
      ensures id in old(alerts) ==>
                && r == Ok(alert.(alertId := Some(id), updatedAt := Some(now),
                                  createdAt := old(alerts)[id].createdAt))
                && alerts == old(alerts)[id := r.value]
                && alerts.Keys == old(alerts).Keys
    {
      if id !in alerts {
        return Err(NotFound);
      }
      var existing := alerts[id];
      var replaced := alert.(alertId := Some(id), updatedAt := Some(now), createdAt := existing.createdAt);
      alerts := alerts[id := replaced];
      r := Ok(replaced);
    }

    /** `DELETE /alerts/{id}`: removes exactly that key and answers 200 with
        no body, or 404. The value `remove` returns serves only the null
        test, so the reply carries no record. */
    method DeleteAlert(id: Id) returns (r: Result<()>)
      requires Valid()
      modifies this`alerts
      ensures Valid()
      ensures id !in old(alerts) ==> r == Err(NotFound) && alerts == old(alerts)
      ensures id in old(alerts) ==> r == Ok(()) && alerts == old(alerts) - {id}
      ensures |alerts| == if id in old(alerts) then |old(alerts)| - 1 else |old(alerts)|
    {
      if id !in alerts {
        return Err(NotFound);
      }
      r := Ok(());
      alerts := alerts - {id};
    }

    /** The ids of the open alerts. */
    function OpenIds(): (s: set<Id>)
      reads this
      ensures s <= alerts.Keys
      ensures forall k | k in alerts :: k in s <==> alerts[k].status == Some(Open)
    {
      set k | k in alerts && alerts[k].status == Some(Open)
    }

    /** The ids of the critical alerts. */
    function CriticalIds(): (s: set<Id>)
      reads this
      ensures s <= alerts.Keys
      ensures forall k | k in alerts :: k in s <==> alerts[k].level == Some(Critical)
    {
      set k | k in alerts && alerts[k].level == Some(Critical)
    }

    /** `GET /alerts/stats`. */
    function Stats(now: int): (s: AlertStats)
      reads this
      ensures s.totalAlerts == |alerts| && s.timestamp == now
      ensures s.openAlerts == |OpenIds()| && s.openAlerts <= s.totalAlerts
      ensures s.criticalAlerts == |CriticalIds()| && s.criticalAlerts <= s.totalAlerts
    {
      SubsetCardinality(OpenIds(), alerts.Keys);
      SubsetCardinality(CriticalIds(), alerts.Keys);
      AlertStats(|alerts|, |OpenIds()|, |CriticalIds()|, now)
    }
  }
}
