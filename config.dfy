/** Configuration validation: `check_reserved_keys` and `check_config` of
    config.py, and the older `config_check` of plug2mqtt.py.  A configuration
    is the decoded JSON list of per-plug records; raising `ValueError` (or
    exiting with status 1) is a `Fail` outcome naming the violated check. */
module Config {
  import opened Values

  /** Payload keys that the device readings own. */
  const ON: string := "on"
  const CURRENT_POWER: string := "current_power"
  const NICKNAME: string := "nickname"
  const TODAY_ENERGY: string := "today_energy"
  const TODAY_RUNTIME: string := "today_runtime"

  /** The five reserved keys are five different strings. */
  lemma ReservedKeysDistinct()
    ensures ON != CURRENT_POWER && ON != NICKNAME && ON != TODAY_ENERGY && ON != TODAY_RUNTIME
    ensures CURRENT_POWER != NICKNAME && CURRENT_POWER != TODAY_ENERGY && CURRENT_POWER != TODAY_RUNTIME
    ensures NICKNAME != TODAY_ENERGY && NICKNAME != TODAY_RUNTIME
    ensures TODAY_ENERGY != TODAY_RUNTIME
  {
    assert ON[0] == 'o' && CURRENT_POWER[0] == 'c' && NICKNAME[0] == 'n';
    assert TODAY_ENERGY[0] == 't' && TODAY_RUNTIME[0] == 't' && TODAY_ENERGY[6] != TODAY_RUNTIME[6];
  }

  /** The reserved keys `check_reserved_keys` looks at, in its order.
      `NICKNAME` is reserved but never looked at. */
  const CheckedReservedKeys: seq<string> := [ON, CURRENT_POWER, TODAY_ENERGY, TODAY_RUNTIME]

  /** The fields every record must hold with a truthy value, in checking order. */
  const RequiredFields: seq<string> := ["hostname", "username", "password", "topic"]

  /** One element of the configuration list: a JSON object. */
  type Record = map<string, Json>

  datatype ConfigError =
    | Missing(field: string)        // "missing hostname" and its three siblings
    | DataNotDict                   // "data has to be a dictionary"
    | ReservedKey(key: string)      // "data contains reserved key: ..."
    | Unhashable(field: string)     // TypeError from set(...) over a list or dict value
    | DuplicateHostnames
    | DuplicateTopics
    | GeneratorHasNoLen             // TypeError from len() of a generator expression

  datatype Outcome = Pass | Fail(error: ConfigError)

  /** The errors raised from inside the `for plug in plugs` loop. */
  predicate IsRecordError(e: ConfigError) {
    e.Missing? || e.DataNotDict? || e.ReservedKey?
  }

  // ---------------------------------------------------------------------
  // Per-record checks
  // ---------------------------------------------------------------------

  /** `check_reserved_keys`: the first reserved key whose `get` is truthy.
      A reserved key holding a falsy value passes. */
  function CheckReservedKeys(data: map<string, Json>): (r: Option<ConfigError>)
    ensures r.None? <==> forall k :: k in CheckedReservedKeys ==> !Truthy(Get(data, k))
    ensures r.Some? ==> r.value.ReservedKey? && r.value.key in CheckedReservedKeys
    ensures r.Some? ==> Truthy(Get(data, r.value.key))
  {
    if Truthy(Get(data, ON)) then Some(ReservedKey(ON))
    else if Truthy(Get(data, CURRENT_POWER)) then Some(ReservedKey(CURRENT_POWER))
    else if Truthy(Get(data, TODAY_ENERGY)) then Some(ReservedKey(TODAY_ENERGY))
    else if Truthy(Get(data, TODAY_RUNTIME)) then Some(ReservedKey(TODAY_RUNTIME))
    else None
  }

  /** The four `if not plug.get(...)` guards, shared by both validators: the
      first required field whose value is missing or falsy. */
  function FieldError(rec: Record): (r: Option<ConfigError>)
    ensures r.None? <==> forall f :: f in RequiredFields ==> Truthy(Get(rec, f))
    ensures r.Some? ==> r.value.Missing? && r.value.field in RequiredFields
    ensures r.Some? ==> !Truthy(Get(rec, r.value.field))
  {
    if !Truthy(Get(rec, "hostname")) then Some(Missing("hostname"))
    else if !Truthy(Get(rec, "username")) then Some(Missing("username"))
    else if !Truthy(Get(rec, "password")) then Some(Missing("password"))
    else if !Truthy(Get(rec, "topic")) then Some(Missing("topic"))
    else None
  }

  /** What a record must satisfy to get through one iteration of the
      `for plug in plugs` loop of `check_config`. */
  predicate RecordOk(rec: Record) {
    && (forall f :: f in RequiredFields ==> Truthy(Get(rec, f)))
    && (Truthy(Get(rec, "data")) ==>
          && Get(rec, "data").JObj?
          && forall k :: k in CheckedReservedKeys ==> !Truthy(Get(Get(rec, "data").fields, k)))
  }

  /** One iteration of the loop body of `check_config`: the field guards,
      then, only for truthy `data`, the dict test and the reserved keys. */
  function RecordError(rec: Record): (r: Option<ConfigError>)
    ensures r.None? <==> RecordOk(rec)
    ensures r.Some? ==> IsRecordError(r.value)
    ensures FieldError(rec).Some? ==> r == FieldError(rec)
    ensures FieldError(rec).None? && !Truthy(Get(rec, "data")) ==> r.None?
    ensures FieldError(rec).None? && Truthy(Get(rec, "data")) && !Get(rec, "data").JObj? ==>
      r == Some(DataNotDict)
    ensures FieldError(rec).None? && Truthy(Get(rec, "data")) && Get(rec, "data").JObj? ==>
      r == CheckReservedKeys(Get(rec, "data").fields)
  {
    match FieldError(rec)
    case Some(e) => Some(e)
    case None =>
      var data := Get(rec, "data");
      if !Truthy(data) then None
      else if !data.JObj? then Some(DataNotDict)
      else CheckReservedKeys(data.fields)
  }

  /** A `for` loop whose body only tests and raises: the error of the first
      record that fails `check`, or none if every record passes. */
  function FirstError(plugs: seq<Record>, check: Record -> Option<ConfigError>): (r: Option<ConfigError>)
    ensures r.None? <==> forall i :: 0 <= i < |plugs| ==> check(plugs[i]).None?
    ensures r.Some? ==> exists i :: 0 <= i < |plugs| && check(plugs[i]) == r
  {
    if |plugs| == 0 then None
    else
      match check(plugs[0])
      case Some(e) => Some(e)
      case None => FirstError(plugs[1..], check)
  }

  /** The loop stops at the first failing record and reports its error. */
  lemma {:induction false} FirstErrorIs(plugs: seq<Record>, check: Record -> Option<ConfigError>, i: nat)
    requires i < |plugs| && check(plugs[i]).Some?
    requires forall j :: 0 <= j < i ==> check(plugs[j]).None?
    ensures FirstError(plugs, check) == check(plugs[i])
  {
    if i > 0 {
      FirstErrorIs(plugs[1..], check, i - 1);
    }
  }

  // ---------------------------------------------------------------------
  // Uniqueness checks
  // ---------------------------------------------------------------------

  /** The elements of a sequence, as `set(...)` collects them. */
  function ToSet<T(==)>(s: seq<T>): set<T> {
    set x | x in s
  }

  predicate Distinct<T(==)>(s: seq<T>) {
    forall i, j :: 0 <= i < j < |s| ==> s[i] != s[j]
  }

  /** Comparing `len(set(s))` with `len(s)` detects exactly a repeated element. */
  lemma {:induction false} CardinalityIffDistinct<T>(s: seq<T>)
    ensures |ToSet(s)| <= |s|
    ensures |ToSet(s)| == |s| <==> Distinct(s)
  {
    if |s| > 0 {
      var t, x := s[..|s| - 1], s[|s| - 1];
      CardinalityIffDistinct(t);
      assert s == t + [x];
      assert ToSet(s) == ToSet(t) + {x};
      if x in ToSet(t) {
        assert ToSet(s) == ToSet(t);
        var k :| 0 <= k < |t| && t[k] == x;
        assert s[k] == s[|s| - 1];
      } else {
        assert |ToSet(s)| == |ToSet(t)| + 1;
        if Distinct(t) {
          forall i, j | 0 <= i < j < |s| ensures s[i] != s[j] {
            if j == |s| - 1 {
              assert s[i] == t[i];
            } else {
              assert s[i] == t[i] && s[j] == t[j];
            }
          }
        } else {
          var i, j :| 0 <= i < j < |t| && t[i] == t[j];
          assert s[i] == s[j];
        }
      }
    }
  }

  /** `plug[field]` for every record. */
  function FieldValues(plugs: seq<Record>, field: string): (r: seq<Json>)
    requires forall i :: 0 <= i < |plugs| ==> field in plugs[i]
    ensures |r| == |plugs|
    ensures forall i :: 0 <= i < |plugs| ==> r[i] == plugs[i][field]
  {
    seq(|plugs|, i requires 0 <= i < |plugs| => plugs[i][field])
  }

  predicate AllHashable(s: seq<Json>) {
    forall i :: 0 <= i < |s| ==> Hashable(s[i])
  }

  function HashKeys(s: seq<Json>): (r: seq<Json>)
    requires AllHashable(s)
    ensures |r| == |s|
    ensures forall i :: 0 <= i < |s| ==> r[i] == HashKey(s[i])
  {
    seq(|s|, i requires 0 <= i < |s| => HashKey(s[i]))
  }

  /** `if len(set(values)) != len(plugs): raise ...`, where building the set
      raises `TypeError` on a list or dict value. */
  function CheckUnique(values: seq<Json>, field: string, duplicate: ConfigError): (r: Option<ConfigError>)
    ensures r.None? <==> AllHashable(values) && Distinct(HashKeys(values))
    ensures !AllHashable(values) ==> r == Some(Unhashable(field))
    ensures r.Some? ==> r == Some(Unhashable(field)) || r == Some(duplicate)
  {
    if !AllHashable(values) then Some(Unhashable(field))
    else
      CardinalityIffDistinct(HashKeys(values));
      if |ToSet(HashKeys(values))| != |values| then Some(duplicate) else None
  }

  /** The values stored under `field` are hashable and pairwise unequal in
      Python's sense. */
  predicate UniqueField(plugs: seq<Record>, field: string) {
    && (forall i :: 0 <= i < |plugs| ==> Hashable(Get(plugs[i], field)))
    && (forall i, j :: 0 <= i < j < |plugs| ==>
          HashKey(Get(plugs[i], field)) != HashKey(Get(plugs[j], field)))
  }

  /** A configuration `check_config` accepts, stated record by record and
      pair by pair. */
  predicate ConfigOk(plugs: seq<Record>) {
    && (forall i :: 0 <= i < |plugs| ==> RecordOk(plugs[i]))
    && UniqueField(plugs, "hostname")
    && UniqueField(plugs, "topic")
  }

  lemma UniqueFieldIff(plugs: seq<Record>, field: string)
    requires forall i :: 0 <= i < |plugs| ==> field in plugs[i]
    ensures UniqueField(plugs, field) <==>
      AllHashable(FieldValues(plugs, field)) && Distinct(HashKeys(FieldValues(plugs, field)))
  {
    var vs := FieldValues(plugs, field);
    assert forall i :: 0 <= i < |plugs| ==> Get(plugs[i], field) == vs[i];
  }

  /** `check_config`: every record through the loop first, then hostnames,
      then topics. */
  function CheckConfig(plugs: seq<Record>): (r: Outcome)
    ensures r.Pass? <==> ConfigOk(plugs)
  {
    match FirstError(plugs, RecordError)
    case Some(e) => Fail(e)
    case None =>
      assert forall i :: 0 <= i < |plugs| ==> RecordOk(plugs[i]);
      assert forall i :: 0 <= i < |plugs| ==> "hostname" in plugs[i] && "topic" in plugs[i] by {
        forall i | 0 <= i < |plugs| ensures "hostname" in plugs[i] && "topic" in plugs[i] {
          assert RequiredFields[0] in RequiredFields && RequiredFields[3] in RequiredFields;
          TruthyGetPresent(plugs[i], "hostname");
          TruthyGetPresent(plugs[i], "topic");
        }
      }
      UniqueFieldIff(plugs, "hostname");
      UniqueFieldIff(plugs, "topic");
      match CheckUnique(FieldValues(plugs, "hostname"), "hostname", DuplicateHostnames)
      case Some(e) => Fail(e)
      case None =>
        match CheckUnique(FieldValues(plugs, "topic"), "topic", DuplicateTopics)
        case Some(e) => Fail(e)
        case None => Pass
  }

  // ---------------------------------------------------------------------
  // Properties of check_config
  // ---------------------------------------------------------------------

  /** All per-record checks run before either uniqueness check: the first
      failing record's error is reported, whatever the duplicates. */
  lemma FirstRecordErrorReported(plugs: seq<Record>, i: nat)
    requires i < |plugs| && !RecordOk(plugs[i])
    requires forall j :: 0 <= j < i ==> RecordOk(plugs[j])
    ensures CheckConfig(plugs) == Fail(RecordError(plugs[i]).value)
  {
    FirstErrorIs(plugs, RecordError, i);
  }

  /** The reserved keys are tested in a fixed order: the key reported is the
      first one, in that order, holding a truthy value. */
  lemma ReservedKeyOrder(data: map<string, Json>, i: nat)
    requires i < |CheckedReservedKeys| && Truthy(Get(data, CheckedReservedKeys[i]))
    requires forall j :: 0 <= j < i ==> !Truthy(Get(data, CheckedReservedKeys[j]))
    ensures CheckReservedKeys(data) == Some(ReservedKey(CheckedReservedKeys[i]))
  {
    if i >= 1 { assert !Truthy(Get(data, CheckedReservedKeys[0])); }
    if i >= 2 { assert !Truthy(Get(data, CheckedReservedKeys[1])); }
    if i >= 3 { assert !Truthy(Get(data, CheckedReservedKeys[2])); }
  }

  /** The required fields are tested in a fixed order: the field reported is
      the first one, in that order, missing or falsy. */
  lemma FieldOrder(rec: Record, i: nat)
    requires i < |RequiredFields| && !Truthy(Get(rec, RequiredFields[i]))
    requires forall j :: 0 <= j < i ==> Truthy(Get(rec, RequiredFields[j]))
    ensures FieldError(rec) == Some(Missing(RequiredFields[i]))
    ensures RecordError(rec) == Some(Missing(RequiredFields[i]))
  {
    if i >= 1 { assert Truthy(Get(rec, RequiredFields[0])); }
    if i >= 2 { assert Truthy(Get(rec, RequiredFields[1])); }
    if i >= 3 { assert Truthy(Get(rec, RequiredFields[2])); }
  }

  /** A record lacking a truthy required field makes validation fail with a
      per-record error. */
  lemma MissingFieldFails(plugs: seq<Record>, i: nat, f: string)
    requires i < |plugs| && f in RequiredFields && !Truthy(Get(plugs[i], f))
    ensures CheckConfig(plugs).Fail? && IsRecordError(CheckConfig(plugs).error)
  {
    var k :| 0 <= k <= i && !RecordOk(plugs[k]) && forall j :: 0 <= j < k ==> RecordOk(plugs[j]) by {
      FirstFailing(plugs, i);
    }
    FirstRecordErrorReported(plugs, k);
  }

  /** Some record at or before a failing one is the first failing one. */
  lemma {:induction false} FirstFailing(plugs: seq<Record>, i: nat)
    requires i < |plugs| && !RecordOk(plugs[i])
    ensures exists k :: 0 <= k <= i && !RecordOk(plugs[k]) && forall j :: 0 <= j < k ==> RecordOk(plugs[j])
  {
    if exists k :: 0 <= k < i && !RecordOk(plugs[k]) {
      var k :| 0 <= k < i && !RecordOk(plugs[k]);
      FirstFailing(plugs, k);
    } else {
      assert forall j :: 0 <= j < i ==> RecordOk(plugs[j]);
    }
  }

  /** `nickname` is never looked at by the reserved-key check. */
  lemma NicknameNeverRejected(data: map<string, Json>, v: Json)
    ensures CheckReservedKeys(data[NICKNAME := v]) == CheckReservedKeys(data)
  {
    forall k | k in CheckedReservedKeys ensures Get(data[NICKNAME := v], k) == Get(data, k) {
    }
  }

  /** Two records sharing a hostname, or sharing a topic, make validation fail. */
  lemma DuplicateFails(plugs: seq<Record>, i: nat, j: nat, field: string)
    requires i < j < |plugs| && field in {"hostname", "topic"}
    requires Get(plugs[i], field) == Get(plugs[j], field)
    ensures CheckConfig(plugs).Fail?
  {
  }

  /** Once every record passes, duplicate hostnames are reported before
      anything about topics. */
  lemma DuplicateHostnamesReportedFirst(plugs: seq<Record>, i: nat, j: nat)
    requires forall k :: 0 <= k < |plugs| ==> RecordOk(plugs[k])
    requires forall k :: 0 <= k < |plugs| ==> Hashable(Get(plugs[k], "hostname"))
    requires i < j < |plugs| && HashKey(Get(plugs[i], "hostname")) == HashKey(Get(plugs[j], "hostname"))
    ensures CheckConfig(plugs) == Fail(DuplicateHostnames)
  {
    assert RequiredFields[0] in RequiredFields;
    var hs := FieldValues(plugs, "hostname");
    assert hs[i] == Get(plugs[i], "hostname") && hs[j] == Get(plugs[j], "hostname");
    assert !Distinct(HashKeys(hs));
  }

  /** Once every record passes and hostnames are unique, a shared topic is
      reported as duplicate topics. */
  lemma DuplicateTopicsReported(plugs: seq<Record>, i: nat, j: nat)
    requires forall k :: 0 <= k < |plugs| ==> RecordOk(plugs[k])
    requires UniqueField(plugs, "hostname")
    requires forall k :: 0 <= k < |plugs| ==> Hashable(Get(plugs[k], "topic"))
    requires i < j < |plugs| && HashKey(Get(plugs[i], "topic")) == HashKey(Get(plugs[j], "topic"))
    ensures CheckConfig(plugs) == Fail(DuplicateTopics)
  {
    assert RequiredFields[0] in RequiredFields && RequiredFields[3] in RequiredFields;
    UniqueFieldIff(plugs, "hostname");
    var ts := FieldValues(plugs, "topic");
    assert ts[i] == Get(plugs[i], "topic") && ts[j] == Get(plugs[j], "topic");
    assert !Distinct(HashKeys(ts));
  }

  /** The empty configuration is valid. */
  lemma EmptyConfigPasses()
    ensures CheckConfig([]) == Pass
  {
  }

  // ---------------------------------------------------------------------
  // The older config_check of plug2mqtt.py
  // ---------------------------------------------------------------------

  /** `config_check`: the four field guards per record (exit 1), then
      `len()` of a generator expression, which always raises `TypeError`. */
  function LegacyConfigCheck(plugs: seq<Record>): (r: Outcome)
    ensures r.Fail?
    ensures (forall i :: 0 <= i < |plugs| ==> FieldError(plugs[i]).None?) ==> r == Fail(GeneratorHasNoLen)
    ensures (exists i :: 0 <= i < |plugs| && FieldError(plugs[i]).Some?) ==> r.error.Missing?
  {
    match FirstError(plugs, FieldError)
    case Some(e) => Fail(e)
    case None => Fail(GeneratorHasNoLen)
  }

  /** The older check reports the first record with a missing field, and
      once all records have their fields it fails on the generator. */
  lemma LegacyReportsFirstMissingField(plugs: seq<Record>, i: nat)
    requires i < |plugs| && FieldError(plugs[i]).Some?
    requires forall j :: 0 <= j < i ==> FieldError(plugs[j]).None?
    ensures LegacyConfigCheck(plugs) == Fail(FieldError(plugs[i]).value)
  {
    FirstErrorIs(plugs, FieldError, i);
  }

  /** Where record checks disagree only on `data`, the two validators agree:
      a missing-field error of `check_config` is the older check's error too. */
  lemma {:induction false} FieldErrorsAgree(plugs: seq<Record>)
    requires FirstError(plugs, RecordError).Some? && FirstError(plugs, RecordError).value.Missing?
    ensures FirstError(plugs, FieldError) == FirstError(plugs, RecordError)
  {
    if RecordError(plugs[0]).None? {
      FieldErrorsAgree(plugs[1..]);
    }
  }

  lemma LegacyAgreesOnMissingFields(plugs: seq<Record>)
    requires CheckConfig(plugs).Fail? && CheckConfig(plugs).error.Missing?
    ensures LegacyConfigCheck(plugs) == CheckConfig(plugs)
  {
    FieldErrorsAgree(plugs);
  }

  // ---------------------------------------------------------------------
  // The configurations of test_plug2mqtt.py
  // ---------------------------------------------------------------------

  function TestRecord(topic: string, hostname: string): Record {
    map["topic" := JStr(topic), "username" := JStr("foo@bar"),
        "password" := JStr("Changeme"), "hostname" := JStr(hostname)]
  }

  /** A record built by `TestRecord` passes the per-record checks and holds
      the hostname and topic it was built from. */
  lemma TestRecordOk(topic: string, hostname: string)
    requires |topic| > 0 && |hostname| > 0
    ensures RecordOk(TestRecord(topic, hostname))
    ensures Get(TestRecord(topic, hostname), "hostname") == JStr(hostname)
    ensures Get(TestRecord(topic, hostname), "topic") == JStr(topic)
  {
    var rec := TestRecord(topic, hostname);
    assert Get(rec, "data") == JNull;
  }

  const BaseConfig: seq<Record> :=
    [TestRecord("devices/plug/kitchen", "foo.iot"), TestRecord("devices/plug/cellar", "bar.iot")]

  lemma BaseConfigPasses()
    ensures CheckConfig(BaseConfig) == Pass
  {
    TestRecordOk("devices/plug/kitchen", "foo.iot");
    TestRecordOk("devices/plug/cellar", "bar.iot");
    assert "foo.iot"[0] != "bar.iot"[0];
    assert "devices/plug/kitchen"[13] != "devices/plug/cellar"[13];
    assert UniqueField(BaseConfig, "hostname") && UniqueField(BaseConfig, "topic");
  }

  lemma DuplicateHostnameTest()
    ensures CheckConfig([TestRecord("devices/plug/kitchen", "bar.iot"), BaseConfig[1]]) == Fail(DuplicateHostnames)
  {
    TestRecordOk("devices/plug/kitchen", "bar.iot");
    TestRecordOk("devices/plug/cellar", "bar.iot");
    DuplicateHostnamesReportedFirst([TestRecord("devices/plug/kitchen", "bar.iot"), BaseConfig[1]], 0, 1);
  }

  lemma DuplicateTopicTest()
    ensures CheckConfig([TestRecord("devices/plug/cellar", "foo.iot"), BaseConfig[1]]) == Fail(DuplicateTopics)
  {
    var plugs := [TestRecord("devices/plug/cellar", "foo.iot"), BaseConfig[1]];
    TestRecordOk("devices/plug/cellar", "foo.iot");
    TestRecordOk("devices/plug/cellar", "bar.iot");
    assert "foo.iot"[0] != "bar.iot"[0];
    assert UniqueField(plugs, "hostname");
    DuplicateTopicsReported(plugs, 0, 1);
  }

  lemma MissingFieldTests()
    ensures CheckConfig([map["username" := JStr("foo"), "password" := JStr("changeme"), "topic" := JStr("foo/bar")]])
      == Fail(Missing("hostname"))
    ensures CheckConfig([map["username" := JStr("foo"), "password" := JStr("changeme"), "hostname" := JStr("foo")]])
      == Fail(Missing("topic"))
  {
    var mh: Record := map["username" := JStr("foo"), "password" := JStr("changeme"), "topic" := JStr("foo/bar")];
    FieldOrder(mh, 0);
    FirstRecordErrorReported([mh], 0);
    var mt: Record := map["username" := JStr("foo"), "password" := JStr("changeme"), "hostname" := JStr("foo")];
    FieldOrder(mt, 3);
    FirstRecordErrorReported([mt], 0);
  }

  lemma DataNotDictTest()
    ensures CheckConfig([map["username" := JStr("foo"), "password" := JStr("changeme"), "hostname" := JStr("foo"),
                              "topic" := JStr("xxx"), "data" := JArr([JStr("foo"), JStr("bar")])]])
      == Fail(DataNotDict)
  {
    var dl: Record := map["username" := JStr("foo"), "password" := JStr("changeme"), "hostname" := JStr("foo"),
                          "topic" := JStr("xxx"), "data" := JArr([JStr("foo"), JStr("bar")])];
    assert !RecordOk(dl);
    FirstRecordErrorReported([dl], 0);
  }
}
