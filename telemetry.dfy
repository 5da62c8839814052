/**
 * The safety monitor's sensor store: the current reading, a bounded history of the
 * latest readings, and whether a device has ever posted data. Demo readings are only
 * generated while no device is connected.
 */
module Telemetry {
  import opened Wrappers

  /** One sensor reading; the timestamp is the ISO text of the clock at recording time. */
  datatype Reading = Reading(
    temperature: real, humidity: real, distance: real, pressure: real, airQuality: real,
    timestamp: string)

  /** The history keeps at most this many readings. */
  const HistoryLimit: nat := 100

  /** The fields the update route demands, in the order it checks them. */
  const RequiredFields: seq<string> := ["temperature", "humidity", "distance", "pressure", "air_quality"]

  /** The reading the store starts with. */
  function InitialReading(now: string): Reading {
    Reading(22.5, 45.0, 150.0, 1013.2, 285.0, now)
  }

  /** A numeric field of a posted body, 0 when the key is absent. */
  function FieldOr(data: map<string, real>, key: string): real {
    if key in data then data[key] else 0.0
  }

  /** The reading a posted body becomes. */
  function ReadingOf(data: map<string, real>, now: string): (r: Reading)
    ensures r.temperature == (if "temperature" in data then data["temperature"] else 0.0)
    ensures r.humidity == (if "humidity" in data then data["humidity"] else 0.0)
    ensures r.distance == (if "distance" in data then data["distance"] else 0.0)
    ensures r.pressure == (if "pressure" in data then data["pressure"] else 0.0)
    ensures r.airQuality == (if "air_quality" in data then data["air_quality"] else 0.0)
    ensures r.timestamp == now
  {
    Reading(FieldOr(data, "temperature"), FieldOr(data, "humidity"), FieldOr(data, "distance"),
            FieldOr(data, "pressure"), FieldOr(data, "air_quality"), now)
  }

  /** A body that carries every required field is recorded value for value. */
  lemma ReadingOfComplete(data: map<string, real>, now: string)
    requires forall f :: f in RequiredFields ==> f in data
    ensures ReadingOf(data, now) == Reading(
      data["temperature"], data["humidity"], data["distance"], data["pressure"],
      data["air_quality"], now)
  {
    assert RequiredFields[0] in RequiredFields && RequiredFields[1] in RequiredFields;
    assert RequiredFields[2] in RequiredFields && RequiredFields[3] in RequiredFields;
    assert RequiredFields[4] in RequiredFields;
  }

  /** Missing fields are recorded as zero. */
  lemma ReadingOfEmpty(now: string)
    ensures ReadingOf(map[], now) == Reading(0.0, 0.0, 0.0, 0.0, 0.0, now)
  {
  }

  /**
   * Appending to the history: the new reading goes last, and when that makes the
   * history longer than the limit, exactly the oldest reading is dropped.
   */
  function Appended(history: seq<Reading>, r: Reading): (h: seq<Reading>)
    ensures |h| > 0 && h[|h| - 1] == r
    ensures |history| <= HistoryLimit ==> |h| <= HistoryLimit
    ensures |history| < HistoryLimit ==> h == history + [r]
    ensures |history| >= HistoryLimit ==> h == history[1..] + [r]
  {
    var grown := history + [r];
    if |grown| > HistoryLimit then grown[1..] else grown
  }

  /** The latest HistoryLimit elements of a sequence of readings. */
  function Window(s: seq<Reading>): (w: seq<Reading>)
    ensures |w| == if |s| <= HistoryLimit then |s| else HistoryLimit
    ensures w == s[|s| - |w|..]
  {
    if |s| <= HistoryLimit then s else s[|s| - HistoryLimit..]
  }

  lemma WindowSnoc(s: seq<Reading>, r: Reading)
    ensures Window(Window(s) + [r]) == Window(s + [r])
  {
    if |s| > HistoryLimit {
      var w := Window(s);
      assert (w + [r])[1..] == s[|s| - HistoryLimit + 1..] + [r];
      assert (s + [r])[|s| + 1 - HistoryLimit..] == s[|s| - HistoryLimit + 1..] + [r];
    }
  }

  /** Appending to a history within the limit keeps the latest HistoryLimit readings. */
  lemma AppendedIsWindow(history: seq<Reading>, r: Reading)
    requires |history| <= HistoryLimit
    ensures Appended(history, r) == Window(history + [r])
  {
  }

  /** A series of appends, oldest first. */
  function AppendAll(history: seq<Reading>, rs: seq<Reading>): (h: seq<Reading>)
    ensures |history| <= HistoryLimit ==> |h| <= HistoryLimit
  {
    if rs == [] then history else Appended(AppendAll(history, rs[..|rs| - 1]), rs[|rs| - 1])
  }

  /** Whatever the number of appends, the history holds exactly the latest readings. */
  lemma {:induction false} AppendAllIsWindow(history: seq<Reading>, rs: seq<Reading>)
    requires |history| <= HistoryLimit
    ensures AppendAll(history, rs) == Window(history + rs)
  {
    if rs == [] {
      assert history + rs == history;
    } else {
      AppendAllIsWindow(history, rs[..|rs| - 1]);
      AppendAllStep(history, rs);
    }
  }

  /** One more append onto a history that is already the window of history + front. */
  lemma AppendAllStep(history: seq<Reading>, rs: seq<Reading>)
    requires rs != []
    requires AppendAll(history, rs[..|rs| - 1]) == Window(history + rs[..|rs| - 1])
    ensures AppendAll(history, rs) == Window(history + rs)
  {
    var front, last := rs[..|rs| - 1], rs[|rs| - 1];
    assert AppendAll(history, rs) == Appended(AppendAll(history, front), last);
    AppendedToWindow(history + front, last);
    SplitLast(history, rs);
  }

  lemma SplitLast(history: seq<Reading>, rs: seq<Reading>)
    requires rs != []
    ensures history + rs == (history + rs[..|rs| - 1]) + [rs[|rs| - 1]]
  {
    assert rs == rs[..|rs| - 1] + [rs[|rs| - 1]];
  }

  lemma AppendedToWindow(s: seq<Reading>, r: Reading)
    ensures Appended(Window(s), r) == Window(s + [r])
  {
    AppendedIsWindow(Window(s), r);
    WindowSnoc(s, r);
  }

  /** A demo sample after clamping humidity to [0, 100] and distance and air quality to >= 0. */
  function Clamped(sample: Reading): (c: Reading)
    ensures 0.0 <= c.humidity <= 100.0 && 0.0 <= c.distance && 0.0 <= c.airQuality
    ensures 0.0 <= sample.humidity <= 100.0 ==> c.humidity == sample.humidity
    ensures 0.0 <= sample.distance ==> c.distance == sample.distance
    ensures 0.0 <= sample.airQuality ==> c.airQuality == sample.airQuality
    ensures c.temperature == sample.temperature && c.pressure == sample.pressure
    ensures c.timestamp == sample.timestamp
  {
    var h := if sample.humidity > 100.0 then 100.0 else sample.humidity;
    sample.(humidity := if h < 0.0 then 0.0 else h,
            distance := if sample.distance < 0.0 then 0.0 else sample.distance,
            airQuality := if sample.airQuality < 0.0 then 0.0 else sample.airQuality)
  }

  /** The store's state as a value. */
  datatype Monitor = Monitor(current: Reading, history: seq<Reading>, connected: bool)

  function Started(now: string): Monitor {
    Monitor(InitialReading(now), [], false)
  }

  /** The state after a device posts a body. */
  function Updated(m: Monitor, data: map<string, real>, now: string): Monitor {
    var r := ReadingOf(data, now);
    Monitor(r, Appended(m.history, r), true)
  }

  /** The state after one tick of the demo generator, which does nothing once connected. */
  function Ticked(m: Monitor, sample: Reading): Monitor {
    if m.connected then m
    else
      var r := Clamped(sample);
      Monitor(r, Appended(m.history, r), false)
  }

  /** What can happen to the store: a device update or a demo tick with its raw sample. */
  datatype Event = SensorUpdate(data: map<string, real>, now: string) | DemoSample(sample: Reading)

  function Step(m: Monitor, e: Event): Monitor {
    match e
    case SensorUpdate(data, now) => Updated(m, data, now)
    case DemoSample(sample) => Ticked(m, sample)
  }

  /** The state after a series of events, oldest first. */
  function Replay(m: Monitor, events: seq<Event>): Monitor {
    if events == [] then m else Step(Replay(m, events[..|events| - 1]), events[|events| - 1])
  }

  /** No series of events makes the history exceed its limit. */
  lemma {:induction false} ReplayKeepsBound(m: Monitor, events: seq<Event>)
    requires |m.history| <= HistoryLimit
    ensures |Replay(m, events).history| <= HistoryLimit
  {
    if events != [] {
      ReplayKeepsBound(m, events[..|events| - 1]);
    }
  }

  /** The store is connected exactly when it started connected or some device update happened. */
  lemma {:induction false} ConnectedIffUpdated(m: Monitor, events: seq<Event>)
    ensures Replay(m, events).connected <==>
      m.connected || exists i :: 0 <= i < |events| && events[i].SensorUpdate?
  {
    if events != [] {
      var front := events[..|events| - 1];
      ConnectedIffUpdated(m, front);
      assert forall i :: 0 <= i < |front| ==> front[i] == events[i];
      if exists i :: 0 <= i < |front| && front[i].SensorUpdate? {
        var i :| 0 <= i < |front| && front[i].SensorUpdate?;
        assert events[i].SensorUpdate?;
      }
    }
  }

  /** The device updates of a series of events, in order. */
  function UpdatesOnly(events: seq<Event>): (u: seq<Event>)
    ensures forall e :: e in u <==> e in events && e.SensorUpdate?
  {
    if events == [] then []
    else
      var front := events[..|events| - 1];
      var last := events[|events| - 1];
      assert forall e :: e in events <==> e in front || e == last;
      if last.SensorUpdate? then UpdatesOnly(front) + [last] else UpdatesOnly(front)
  }

  /** Once connected, demo ticks change nothing: only the device updates matter. */
  lemma {:induction false} DemoIgnoredOnceConnected(m: Monitor, events: seq<Event>)
    requires m.connected
    ensures Replay(m, events) == Replay(m, UpdatesOnly(events))
    ensures Replay(m, events).connected
  {
    if events != [] {
      var front := events[..|events| - 1];
      var last := events[|events| - 1];
      DemoIgnoredOnceConnected(m, front);
      if last.SensorUpdate? {
        var u := UpdatesOnly(front) + [last];
        assert u[..|u| - 1] == UpdatesOnly(front);
      }
    }
  }

  /** The readings a series of device updates records, in order. */
  function UpdateReadings(events: seq<Event>): (rs: seq<Reading>)
    requires forall i :: 0 <= i < |events| ==> events[i].SensorUpdate?
    ensures |rs| == |events|
    ensures forall i :: 0 <= i < |events| ==> rs[i] == ReadingOf(events[i].data, events[i].now)
  {
    seq(|events|, i requires 0 <= i < |events| => ReadingOf(events[i].data, events[i].now))
  }

  /**
   * A series of device updates leaves the latest HistoryLimit readings in the history,
   * oldest first, the last of them as the current reading.
   */
  lemma {:induction false} UpdatesKeepLatest(m: Monitor, events: seq<Event>)
    requires |m.history| <= HistoryLimit
    requires forall i :: 0 <= i < |events| ==> events[i].SensorUpdate?
    ensures Replay(m, events).history == Window(m.history + UpdateReadings(events))
    ensures events != [] ==> Replay(m, events).current == UpdateReadings(events)[|events| - 1]
  {
    ReplayIsAppendAll(m, events);
    AppendAllIsWindow(m.history, UpdateReadings(events));
  }

  lemma {:induction false} ReplayIsAppendAll(m: Monitor, events: seq<Event>)
    requires forall i :: 0 <= i < |events| ==> events[i].SensorUpdate?
    ensures Replay(m, events).history == AppendAll(m.history, UpdateReadings(events))
    ensures events != [] ==> Replay(m, events).current == UpdateReadings(events)[|events| - 1]
  {
    if events != [] {
      var front := events[..|events| - 1];
      var last := events[|events| - 1];
      ReplayIsAppendAll(m, front);
      UpdateReadingsSnoc(events);
      var rs := UpdateReadings(events);
      assert rs[..|rs| - 1] == UpdateReadings(front);
    }
  }

  lemma UpdateReadingsSnoc(events: seq<Event>)
    requires events != [] && forall i :: 0 <= i < |events| ==> events[i].SensorUpdate?
    ensures UpdateReadings(events) ==
      UpdateReadings(events[..|events| - 1]) + [ReadingOf(events[|events| - 1].data, events[|events| - 1].now)]
  {
  }

  /**
   * The first required field the body lacks, in the given order, or None when it has
   * them all.
   */
  function FirstMissing(fields: seq<string>, body: map<string, real>): (r: Option<string>)
    ensures r.None? <==> forall f :: f in fields ==> f in body
    ensures r.Some? ==>
      exists i :: 0 <= i < |fields| && fields[i] == r.value && r.value !in body && forall j :: 0 <= j < i ==> fields[j] in body
  {
    if fields == [] then None
    else if fields[0] !in body then Some(fields[0])
    else
      var rest := FirstMissing(fields[1..], body);
      assert forall f :: f in fields <==> f == fields[0] || f in fields[1..];
      if rest.Some? then
        var i :| 0 <= i < |fields[1..]| && fields[1..][i] == rest.value && rest.value !in body &&
          forall j :: 0 <= j < i ==> fields[1..][j] in body;
        assert fields[i + 1] == rest.value;
        rest
      else rest
  }

  /** A posted request: whether it is declared JSON, and its object's numeric fields. */
  datatype Request = Request(isJson: bool, body: map<string, real>)

  /** The update route's checks before anything is recorded. */
  function Validate(req: Request): (r: Option<HttpError>)
    ensures !req.isJson ==> r == Some(HttpError(400, "Content-Type must be application/json"))
    ensures req.isJson ==> (r.None? <==> forall f :: f in RequiredFields ==> f in req.body)
    ensures req.isJson && r.Some? ==>
      exists f :: f in RequiredFields && f !in req.body && r.value == HttpError(400, "Missing required field: " + f)
    ensures req.isJson && r.Some? ==>
      FirstMissing(RequiredFields, req.body).Some?
      && r.value == HttpError(400, "Missing required field: " + FirstMissing(RequiredFields, req.body).value)
  {
    if !req.isJson then Some(HttpError(400, "Content-Type must be application/json"))
    else
      match FirstMissing(RequiredFields, req.body)
      case None => None
      case Some(f) => Some(HttpError(400, "Missing required field: " + f))
  }

  /**
   * A JSON body that has the required fields before position i but lacks the field at i
   * is answered with the name of that field.
   */
  lemma ValidateNamesFirstMissing(req: Request, i: nat)
    requires req.isJson && i < |RequiredFields| && RequiredFields[i] !in req.body
    requires forall j :: 0 <= j < i ==> RequiredFields[j] in req.body
    ensures Validate(req) == Some(HttpError(400, "Missing required field: " + RequiredFields[i]))
  {
    var r := FirstMissing(RequiredFields, req.body);
    assert r.Some?;
    var k :| 0 <= k < |RequiredFields| && RequiredFields[k] == r.value && r.value !in req.body
      && forall j :: 0 <= j < k ==> RequiredFields[j] in req.body;
    assert k == i;
  }

  /** The JSON answer of the status route. */
  datatype StatusReport = StatusReport(connected: bool, lastUpdate: string, dataPoints: nat)

  /** The answer of a successful update. */
  datatype UpdateReply = UpdateReply(status: string, message: string, data: Reading)

  class SafetyBackend {
    var currentData: Reading
    var historicalData: seq<Reading>
    var isConnected: bool

    predicate Valid()
      reads this
    {
      |historicalData| <= HistoryLimit
    }

    /** The store's fields as a Monitor value. */
    function State(): Monitor
      reads this
    {
      Monitor(currentData, historicalData, isConnected)
    }

    constructor(now: string)
      ensures Valid() && State() == Started(now)
    {
      currentData := InitialReading(now);
      historicalData := [];
      isConnected := false;
    }

    /** Appends a reading, dropping the oldest when the history grows over the limit. */
    method Record(r: Reading)
      requires Valid()
      modifies this
      ensures Valid()
      ensures historicalData == Appended(old(historicalData), r)
      ensures currentData == old(currentData) && isConnected == old(isConnected)
    {
      historicalData := historicalData + [r];
      if |historicalData| > HistoryLimit {
        historicalData := historicalData[1..];
      }
    }

    /** A device posts a body: it becomes the current reading and the store is connected. */
    method UpdateSensorData(data: map<string, real>, now: string) returns (r: Reading)
      requires Valid()
      modifies this
      ensures Valid()
      ensures State() == Updated(old(State()), data, now)
      ensures r == currentData
    {
      currentData := ReadingOf(data, now);
      Record(currentData);
      isConnected := true;
      r := currentData;
    }

    /** One tick of the demo generator, given the raw sample it drew. */
    method GenerateDemoReading(sample: Reading)
      requires Valid()
      modifies this
      ensures Valid()
      ensures State() == Ticked(old(State()), sample)
    {
      if !isConnected {
        currentData := Clamped(sample);
        Record(currentData);
      }
    }

    method GetStatus() returns (s: StatusReport)
      requires Valid()
      ensures s.connected == isConnected && s.lastUpdate == currentData.timestamp
      ensures s.dataPoints == |historicalData| <= HistoryLimit
    {
      s := StatusReport(isConnected, currentData.timestamp, |historicalData|);
    }

    /** The update route: validate the request, then record it. */
    method UpdateRoute(req: Request, now: string) returns (resp: Result<UpdateReply, HttpError>)
      requires Valid()
      modifies this
      ensures Valid()
      ensures resp.Err? <==> Validate(req).Some?
      ensures resp.Err? ==> resp.error == Validate(req).value && State() == old(State())
      ensures resp.Ok? ==> State() == Updated(old(State()), req.body, now)
      ensures resp.Ok? ==> resp.value == UpdateReply("success", "Sensor data updated successfully", currentData)
    {
      var invalid := Validate(req);
      if invalid.Some? {
        return Err(invalid.value);
      }
      var r := UpdateSensorData(req.body, now);
      resp := Ok(UpdateReply("success", "Sensor data updated successfully", r));
    }
  }
}
