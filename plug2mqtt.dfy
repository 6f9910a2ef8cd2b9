/** One publish cycle of plug2mqtt.py's main loop: for each configured plug
    in order, log in and read its state, then publish `{"on": device_on}` on
    the plug's topic; a plug whose steps raise is skipped.  The vendor steps
    (`P110(...)`, `handshake`, `login`, `getDeviceInfo`) are one input per
    plug: the device-info response, or nothing when a step raised.  The
    broker is an output sequence. */
module Plug2Mqtt {
  import opened Values
  import opened Config

  /** One `mqtt.publish(topic, json.dumps(payload))`, before serialisation. */
  datatype Publish = Publish(topic: Json, payload: Json)

  /** `response["result"]["device_on"]`, where indexing anything but a dict
      with the key present raises, inside the `try`. */
  function DeviceOn(response: Json): (r: Option<Json>)
    ensures r.Some? <==>
      && response.JObj? && "result" in response.fields
      && response.fields["result"].JObj? && "device_on" in response.fields["result"].fields
    ensures r.Some? ==> r.value == response.fields["result"].fields["device_on"]
  {
    if response.JObj? && "result" in response.fields then
      var result := response.fields["result"];
      if result.JObj? && "device_on" in result.fields then Some(result.fields["device_on"]) else None
    else None
  }

  /** What `main` reads from a record outside the `try`: `plug["hostname"]`
      before it and `plug["topic"]` after it. */
  predicate Publishable(plugs: seq<Record>) {
    forall i :: 0 <= i < |plugs| ==> "hostname" in plugs[i] && "topic" in plugs[i]
  }

  /** What one plug contributes to a cycle: a single message on its own topic
      when its state was read, nothing when a step raised. */
  function PlugPublish(plug: Record, response: Option<Json>): (r: seq<Publish>)
    requires "topic" in plug
    ensures |r| <= 1
    ensures |r| == 1 <==> response.Some? && DeviceOn(response.value).Some?
    ensures |r| == 1 ==> r[0] == Publish(plug["topic"], JObj(map[ON := DeviceOn(response.value).value]))
  {
    if response.None? then []
    else
      match DeviceOn(response.value)
      case None => []
      case Some(on) => [Publish(plug["topic"], JObj(map[ON := on]))]
  }

  /** The lists of a sequence of lists, joined in order. */
  function Concat<T>(parts: seq<seq<T>>): seq<T> {
    if |parts| == 0 then [] else Concat(parts[..|parts| - 1]) + parts[|parts| - 1]
  }

  /** Joining splits at any point into the joins of the two halves. */
  lemma {:induction false} ConcatSplit<T>(parts: seq<seq<T>>, k: nat)
    requires k <= |parts|
    ensures Concat(parts) == Concat(parts[..k]) + Concat(parts[k..])
  {
    if k < |parts| {
      var n := |parts| - 1;
      ConcatSplit(parts[..n], k);
      assert parts[..n][..k] == parts[..k];
      assert parts[k..][..n - k] == parts[..n][k..];
    } else {
      assert parts[..k] == parts;
    }
  }

  /** Lists of at most one element join into no more elements than lists. */
  lemma {:induction false} ConcatLength<T>(parts: seq<seq<T>>)
    requires forall i :: 0 <= i < |parts| ==> |parts[i]| <= 1
    ensures |Concat(parts)| <= |parts|
  {
    if |parts| > 0 {
      ConcatLength(parts[..|parts| - 1]);
    }
  }

  /** Every plug's contribution to a cycle, in configuration order. */
  function Contributions(plugs: seq<Record>, responses: seq<Option<Json>>): (r: seq<seq<Publish>>)
    requires |plugs| == |responses| && Publishable(plugs)
    ensures |r| == |plugs|
    ensures forall i :: 0 <= i < |plugs| ==> r[i] == PlugPublish(plugs[i], responses[i])
  {
    seq(|plugs|, i requires 0 <= i < |plugs| => PlugPublish(plugs[i], responses[i]))
  }

  /** The messages of one cycle. */
  function Publishes(plugs: seq<Record>, responses: seq<Option<Json>>): seq<Publish>
    requires |plugs| == |responses| && Publishable(plugs)
  {
    Concat(Contributions(plugs, responses))
  }

  /** At most one message per plug. */
  lemma PublishesBound(plugs: seq<Record>, responses: seq<Option<Json>>)
    requires |plugs| == |responses| && Publishable(plugs)
    ensures |Publishes(plugs, responses)| <= |plugs|
  {
    ConcatLength(Contributions(plugs, responses));
  }

  /** A join is the join before position `i`, the list at `i`, then the
      join after it. */
  lemma ConcatAt<T>(parts: seq<seq<T>>, i: nat)
    requires i < |parts|
    ensures Concat(parts) == Concat(parts[..i]) + parts[i] + Concat(parts[i + 1..])
  {
    ConcatSplit(parts, i + 1);
    assert parts[..i + 1][..i] == parts[..i];
  }

  /** Plug `i` contributes exactly its own message, if any, between those of
      the plugs before it and those of the plugs after it. */
  lemma PublishesAt(plugs: seq<Record>, responses: seq<Option<Json>>, i: nat)
    requires |plugs| == |responses| && Publishable(plugs) && i < |plugs|
    ensures Publishes(plugs, responses) ==
      Concat(Contributions(plugs, responses)[..i]) + PlugPublish(plugs[i], responses[i]) +
      Concat(Contributions(plugs, responses)[i + 1..])
  {
    ConcatAt(Contributions(plugs, responses), i);
  }

  /** The loop body of `main`, lines 140-159, over one pass of `plugs`. */
  method PublishCycle(plugs: seq<Record>, responses: seq<Option<Json>>) returns (published: seq<Publish>)
    requires |plugs| == |responses| && Publishable(plugs)
    ensures published == Publishes(plugs, responses)
  {
    ghost var parts := Contributions(plugs, responses);
    published := [];
    for i := 0 to |plugs|
      invariant published == Concat(parts[..i])
    {
      assert parts[..i + 1][..i] == parts[..i];
      var response := responses[i];
      if response.None? {
        continue;
      }
      var deviceOn := DeviceOn(response.value);
      if deviceOn.None? {
        continue;
      }
      published := published + [Publish(plugs[i]["topic"], JObj(map[ON := deviceOn.value]))];
    }
    assert parts[..|plugs|] == parts;
  }

  /** The device-info response of a plug that reports `on`. */
  function Reports(on: bool): Json {
    JObj(map["result" := JObj(map["device_on" := JBool(on)])])
  }

  /** Three plugs whose second one cannot be reached: the first and the
      third are still published, in that order. */
  lemma MiddlePlugFails(plugs: seq<Record>, on0: bool, on2: bool)
    requires |plugs| == 3 && Publishable(plugs)
    ensures Publishes(plugs, [Some(Reports(on0)), None, Some(Reports(on2))]) ==
      [Publish(plugs[0]["topic"], JObj(map[ON := JBool(on0)])),
       Publish(plugs[2]["topic"], JObj(map[ON := JBool(on2)]))]
  {
    var parts := Contributions(plugs, [Some(Reports(on0)), None, Some(Reports(on2))]);
    assert parts == [parts[0], parts[1], parts[2]];
    assert parts[1] == [];
    ConcatAt(parts, 1);
    assert parts[..1] == [parts[0]] && Concat([parts[0]]) == parts[0] by {
      assert [parts[0]][..0] == [];
    }
    assert parts[2..] == [parts[2]] && Concat([parts[2]]) == parts[2] by {
      assert [parts[2]][..0] == [];
    }
  }
}
