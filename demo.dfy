/** Listen mode (demo.py): the device table filled from MQTT messages and
    the classification of each device as on, off or unknown.  The clock
    (`time.monotonic()`) is a parameter `now`, in seconds; a message body is
    the decoded JSON object, or nothing when it is not valid JSON. */
module Demo {
  import opened Values

  /** `Device`: the last power sample of one plug and when it arrived. */
  class Device {
    const name: string
    var power: Json
    var lastTime: real

    /** `__init__`, stamped with the current time. */
    constructor (name: string, power: Json, now: real)
      ensures this.name == name && this.power == power && lastTime == now
    {
      this.name := name;
      this.power := power;
      lastTime := now;
    }

    /** `update`: a new sample, stamped with the current time. */
    method Update(power: Json, now: real)
      modifies this
      ensures this.power == power && lastTime == now
    {
      lastTime := now;
      this.power := power;
    }
  }

  /** The value a `Device` holds. */
  datatype Observation = Observation(power: Json, lastTime: real)

  // ---------------------------------------------------------------------
  // Topic parsing
  // ---------------------------------------------------------------------

  /** `topic.rindex("/")`, which raises `ValueError` (here: `None`) when the
      topic has no '/'. */
  function LastSlash(topic: string): (r: Option<nat>)
    ensures r.None? <==> '/' !in topic
    ensures r.Some? ==> r.value < |topic| && topic[r.value] == '/' && '/' !in topic[r.value + 1..]
  {
    if |topic| == 0 then None
    else if topic[|topic| - 1] == '/' then Some(|topic| - 1)
    else
      assert topic == topic[..|topic| - 1] + [topic[|topic| - 1]];
      LastSlash(topic[..|topic| - 1])
  }

  /** `topic[idx + 1:]`: the part of the topic after its last '/'. */
  function DeviceName(topic: string): (r: Option<string>)
    ensures r.None? <==> '/' !in topic
    ensures r.Some? ==> '/' !in r.value && |r.value| < |topic|
    ensures r.Some? ==> topic == topic[..|topic| - |r.value| - 1] + "/" + r.value
  {
    match LastSlash(topic)
    case None => None
    case Some(idx) =>
      assert topic == topic[..idx] + "/" + topic[idx + 1..];
      Some(topic[idx + 1..])
  }

  /** The name is recovered from any topic ending in "/" and a '/'-free name. */
  lemma DeviceNameOfTopic(prefix: string, name: string)
    requires '/' !in name
    ensures DeviceName(prefix + "/" + name) == Some(name)
  {
    var topic := prefix + "/" + name;
    assert topic[|prefix|] == '/';
    var r := DeviceName(topic).value;
    assert r == topic[|topic| - |r|..];
    assert |r| == |name|;
  }

  // ---------------------------------------------------------------------
  // The message callback
  // ---------------------------------------------------------------------

  /** The device and the power sample a message records, if it records one:
      the topic must end in a non-empty name, the body must be JSON, and
      its `on` must be truthy. */
  function Accepted(topic: string, body: Option<map<string, Json>>): (r: Option<(string, Json)>)
    ensures r.Some? <==>
      (DeviceName(topic).Some? && DeviceName(topic).value != "" && body.Some? && Truthy(Get(body.value, "on")))
    ensures r.Some? ==> r.value.0 == DeviceName(topic).value && r.value.1 == Get(body.value, "current_power")
  {
    match DeviceName(topic)
    case None => None
    case Some(name) =>
      if name == "" then None
      else
        match body
        case None => None
        case Some(d) => if Truthy(Get(d, "on")) then Some((name, Get(d, "current_power"))) else None
  }

  /** The table after a message, as values: an accepted message sets its
      device's sample and time, and touches no other device; any other
      message changes nothing. */
  function Received(view: map<string, Observation>, topic: string, body: Option<map<string, Json>>,
                    now: real): (r: map<string, Observation>)
    ensures Accepted(topic, body).None? ==> r == view
    ensures Accepted(topic, body).Some? ==>
      var (name, power) := Accepted(topic, body).value;
      && r.Keys == view.Keys + {name}
      && r[name] == Observation(power, now)
      && forall k :: k in view && k != name ==> r[k] == view[k]
  {
    match Accepted(topic, body)
    case None => view
    case Some((name, power)) => view[name := Observation(power, now)]
  }

  /** The messages that leave the table alone, listed as the callback
      rejects them. */
  lemma IgnoredMessages(view: map<string, Observation>, topic: string, body: Option<map<string, Json>>, now: real)
    requires || '/' !in topic
             || (|topic| > 0 && topic[|topic| - 1] == '/')
             || body.None?
             || (body.Some? && !Truthy(Get(body.value, "on")))
    ensures Received(view, topic, body, now) == view
  {
    if '/' in topic && |topic| > 0 && topic[|topic| - 1] == '/' {
      var r := DeviceName(topic).value;
      assert r == "";
    }
  }

  /** `devices`, the table shared with the MQTT client as its user data. */
  class DeviceMap {
    var devices: map<string, Device>

    /** Each entry is keyed by its device's own name, so distinct names are
        distinct objects. */
    ghost predicate Valid()
      reads this, devices.Values
    {
      forall k :: k in devices ==> devices[k].name == k
    }

    ghost function View(): map<string, Observation>
      reads this, devices.Values
    {
      map k | k in devices :: Observation(devices[k].power, devices[k].lastTime)
    }

    constructor ()
      ensures Valid() && devices == map[]
    {
      devices := map[];
    }

    /** `message`: insert a new `Device` for an unknown name, update the
        existing one in place for a known name.  Entries are never removed
        nor replaced. */
    method Message(topic: string, body: Option<map<string, Json>>, now: real)
      requires Valid()
      modifies this, devices.Values
      ensures Valid()
      ensures View() == Received(old(View()), topic, body, now)
      ensures forall k :: k in old(devices) ==> k in devices && devices[k] == old(devices[k])
      ensures forall k :: k in devices && k !in old(devices) ==> fresh(devices[k])
    {
      var name := DeviceName(topic);
      if name.None? || name.value == "" {
        return;
      }
      if body.None? {
        return;
      }
      var on := Get(body.value, "on");
      if !Truthy(on) {
        return;
      }
      var power := Get(body.value, "current_power");
      ghost var before := View();
      if name.value !in devices {
        var d := new Device(name.value, power, now);
        devices := devices[name.value := d];
      } else {
        var d := devices[name.value];
        d.Update(power, now);
        assert forall k :: k in devices && k != name.value ==> devices[k] != d;
      }
      assert View() == before[name.value := Observation(power, now)];
    }
  }

  // ---------------------------------------------------------------------
  // Classification
  // ---------------------------------------------------------------------

  /** The classification `get_device_state` returns: "N/A", "on" or "off". */
  datatype DeviceState = NotAvailable | On | Off

  /** `power > threshold` raises `TypeError` when the sample is not a number
      (a message without `current_power`). */
  datatype StateError = PowerNotComparable

  /** `get_device_state`: unknown when the sample is at least `timeout`
      seconds old, otherwise on above the threshold and off at or below it. */
  function GetDeviceState(obs: Observation, now: real, threshold: int, timeout: int)
    : (r: Result<DeviceState, StateError>)
    ensures r == Success(NotAvailable) <==> now - obs.lastTime >= timeout as real
    ensures now - obs.lastTime < timeout as real ==> (r.Failure? <==> AsNumber(obs.power).None?)
    ensures now - obs.lastTime < timeout as real && AsNumber(obs.power).Some? ==>
      (r == Success(On) <==> AsNumber(obs.power).value > threshold as real) &&
      (r == Success(Off) <==> AsNumber(obs.power).value <= threshold as real)
  {
    if now - obs.lastTime < timeout as real then
      match AsNumber(obs.power)
      case None => Failure(PowerNotComparable)
      case Some(p) => if p > threshold as real then Success(On) else Success(Off)
    else Success(NotAvailable)
  }

  /** An observation of any age beyond the timeout is unknown whatever its
      power; a fresh one is on above the threshold and off at or below. */
  lemma ClassifierExamples(now: real, power: Json)
    ensures GetDeviceState(Observation(power, now - 61.0), now, 10, 60) == Success(NotAvailable)
    ensures GetDeviceState(Observation(JNum(15.0), now - 10.0), now, 10, 60) == Success(On)
    ensures GetDeviceState(Observation(JNum(5.0), now - 10.0), now, 10, 60) == Success(Off)
  {
  }
}
