/**
  The client of the remote lock API (`LockManager`). Each operation builds
  one HTTP request and turns the answer into a value or an error. The
  network call itself is not modelled: every operation is given the
  `Delivery` that the URL loading system produced for its request.
 */
module LockManager {
  import opened Wrappers
  import opened Json

  const BaseUrl: string := "https://connect.getseam.com"

  /** The entity a listing returns: a lock and what the API reports about it. */
  datatype DeviceProperties = DeviceProperties(name: string, model: Option<string>, locked: bool)

  datatype Device = Device(deviceId: string, properties: DeviceProperties)
  {
    /** The identity `Identifiable` asks for. */
    function Id(): string { deviceId }
  }

  datatype LockError =
    | FailedToUnlock
    | FailedToLock
    | FailedToCheckStatus
    | FailedToFetchDevices
    | InvalidResponse

  /** Everything an operation can throw: its own errors, an error of the URL
      loading system passed on unchanged, or the JSON parser's error. */
  datatype ClientError = Lock(error: LockError) | Transport(reason: string) | Serialization

  /** A response body after `JSONSerialization.jsonObject(with:)` has looked
      at it: either bytes that are not JSON at all, or a parsed value. */
  datatype Body = NotJson | Parsed(value: Json)

  /** What the URL loading system hands back: whether the response is an
      HTTP response, its status code and its body. */
  datatype Response = Response(isHttp: bool, statusCode: int, body: Body)

  datatype Delivery = Delivered(response: Response) | TransportFailed(reason: string)

  datatype Request = Request(httpMethod: string, url: string, headers: map<string, string>, body: Option<Json>)

  // ---------------------------------------------------------------- requests

  /** The token that an `Authorization: Bearer ...` header carries. */
  function BearerToken(headers: map<string, string>): Option<string>
  {
    if "Authorization" in headers && |headers["Authorization"]| >= 7 && headers["Authorization"][..7] == "Bearer "
    then Some(headers["Authorization"][7..])
    else None
  }

  /** The device identifier that a command body `{"device_id": ...}` names. */
  function CommandDeviceId(body: Option<Json>): Option<string>
  {
    if body.Some? && body.value.JObject? && body.value.fields.Keys == {"device_id"}
    then AsString(body.value.fields["device_id"])
    else None
  }

  /** A POST of `{"device_id": deviceId}` to a command endpoint. */
  function Command(path: string, apiKey: string, deviceId: string): Request
  {
    Request("POST", BaseUrl + path,
            map["Authorization" := "Bearer " + apiKey, "Content-Type" := "application/json"],
            Some(JObject(map["device_id" := JString(deviceId)])))
  }

  function UnlockRequest(apiKey: string, deviceId: string): (r: Request)
    ensures r.httpMethod == "POST" && r.url == BaseUrl + "/locks/unlock_door"
    ensures BearerToken(r.headers) == Some(apiKey)
    ensures CommandDeviceId(r.body) == Some(deviceId)
  {
    BearerRoundTrip(apiKey);
    Command("/locks/unlock_door", apiKey, deviceId)
  }

  function LockRequest(apiKey: string, deviceId: string): (r: Request)
    ensures r.httpMethod == "POST" && r.url == BaseUrl + "/locks/lock_door"
    ensures BearerToken(r.headers) == Some(apiKey)
    ensures CommandDeviceId(r.body) == Some(deviceId)
  {
    BearerRoundTrip(apiKey);
    Command("/locks/lock_door", apiKey, deviceId)
  }

  /** The status query puts the device identifier into the query string as
      it is, without percent-encoding it. */
  function StatusRequest(apiKey: string, deviceId: string): (r: Request)
    ensures r.httpMethod == "GET" && r.body.None?
    ensures r.url == BaseUrl + "/locks/get?device_id=" + deviceId
    ensures BearerToken(r.headers) == Some(apiKey)
  {
    BearerRoundTrip(apiKey);
    Request("GET", BaseUrl + "/locks/get?device_id=" + deviceId, map["Authorization" := "Bearer " + apiKey], None)
  }

  function DevicesRequest(apiKey: string): (r: Request)
    ensures r.httpMethod == "GET" && r.body.None? && r.url == BaseUrl + "/locks/list"
    ensures BearerToken(r.headers) == Some(apiKey)
  {
    BearerRoundTrip(apiKey);
    Request("GET", BaseUrl + "/locks/list", map["Authorization" := "Bearer " + apiKey], None)
  }

  lemma BearerRoundTrip(apiKey: string)
    ensures BearerToken(map["Authorization" := "Bearer " + apiKey]) == Some(apiKey)
    ensures BearerToken(map["Authorization" := "Bearer " + apiKey, "Content-Type" := "application/json"]) == Some(apiKey)
  {
    var h := "Bearer " + apiKey;
    assert h[..7] == "Bearer ";
    assert h[7..] == apiKey;
  }

  // --------------------------------------------------------------- responses

  /** The guard every operation opens with: an HTTP response with status 200. */
  predicate Accepted(d: Delivery)
  {
    d.Delivered? && d.response.isHttp && d.response.statusCode == 200
  }

  /** `try JSONSerialization.jsonObject(with: data)` with the default reading
      options, which refuse a top-level value that is neither an array nor an
      object, followed by `as? [String: Any]`: the parser's error is thrown,
      a parsed value that is not an object gives None. */
  function TopLevelObject(b: Body): (r: Result<Option<map<string, Json>>, ClientError>)
    ensures r.Failure? <==> b.NotJson? || !(b.value.JArray? || b.value.JObject?)
    ensures r.Failure? ==> r.error == Serialization
    ensures r.Success? ==> (r.value.Some? <==> b.value.JObject?)
    ensures r.Success? && r.value.Some? ==> b.value == JObject(r.value.value)
  {
    match b
    case NotJson => Failure(Serialization)
    case Parsed(j) =>
      if j.JArray? || j.JObject? then Success(AsObject(j)) else Failure(Serialization)
  }

  function UnlockDoor(d: Delivery): (r: Outcome<ClientError>)
    ensures r.Pass? <==> Accepted(d)
    ensures d.Delivered? && !Accepted(d) ==> r == Fail(Lock(FailedToUnlock))
    ensures d.TransportFailed? ==> r == Fail(Transport(d.reason))
  {
    match d
    case TransportFailed(reason) => Fail(Transport(reason))
    case Delivered(resp) =>
      if resp.isHttp && resp.statusCode == 200 then Pass else Fail(Lock(FailedToUnlock))
  }

  function LockDoor(d: Delivery): (r: Outcome<ClientError>)
    ensures r.Pass? <==> Accepted(d)
    ensures d.Delivered? && !Accepted(d) ==> r == Fail(Lock(FailedToLock))
    ensures d.TransportFailed? ==> r == Fail(Transport(d.reason))
  {
    match d
    case TransportFailed(reason) => Fail(Transport(reason))
    case Delivered(resp) =>
      if resp.isHttp && resp.statusCode == 200 then Pass else Fail(Lock(FailedToLock))
  }

  /** Unlock and lock never look at the body of the response. */
  lemma CommandsIgnoreBody(isHttp: bool, code: int, b1: Body, b2: Body)
    ensures UnlockDoor(Delivered(Response(isHttp, code, b1))) == UnlockDoor(Delivered(Response(isHttp, code, b2)))
    ensures LockDoor(Delivered(Response(isHttp, code, b1))) == LockDoor(Delivered(Response(isHttp, code, b2)))
  {
  }

  /** The Bool at `lock.properties.locked` of a top-level object, if every
      step of that path has the right type. */
  function LockedFlag(top: map<string, Json>): Option<bool>
  {
    var lock := Member(top, "lock");
    if lock.None? || !lock.value.JObject? then None
    else
      var props := Member(lock.value.fields, "properties");
      if props.None? || !props.value.JObject? then None
      else
        var locked := Member(props.value.fields, "locked");
        if locked.None? then None else AsBool(locked.value)
  }

  function CheckLockStatus(d: Delivery): (r: Result<bool, ClientError>)
    ensures d.TransportFailed? ==> r == Failure(Transport(d.reason))
    ensures d.Delivered? && !Accepted(d) ==> r == Failure(Lock(FailedToCheckStatus))
    ensures Accepted(d) && TopLevelObject(d.response.body).Failure? ==> r == Failure(Serialization)
    ensures r.Success? <==> Accepted(d) && TopLevelObject(d.response.body).Success?
                            && TopLevelObject(d.response.body).value.Some?
                            && LockedFlag(TopLevelObject(d.response.body).value.value).Some?
    ensures r.Success? ==> Some(r.value) == LockedFlag(TopLevelObject(d.response.body).value.value)
  {
    match d
    case TransportFailed(reason) => Failure(Transport(reason))
    case Delivered(resp) =>
      if !(resp.isHttp && resp.statusCode == 200) then Failure(Lock(FailedToCheckStatus))
      else
        match TopLevelObject(resp.body)
        case Failure(e) => Failure(e)
        case Success(json) =>
          if json.None? then Failure(Lock(InvalidResponse))
          else
            var locked := LockedFlag(json.value);
            if locked.None? then Failure(Lock(InvalidResponse)) else Success(locked.value)
  }

  /** The body the API documents for a status query, with any further fields
      beside the ones the client reads (`extraTop`, `extraLock`, `extraProps`). */
  function StatusBody(locked: bool, extraTop: map<string, Json>, extraLock: map<string, Json>,
                      extraProps: map<string, Json>): Json
  {
    JObject(extraTop["lock" := JObject(extraLock["properties" := JObject(extraProps["locked" := JBool(locked)])])])
  }

  /** A 200 response carrying the documented body yields exactly the flag it
      carries: true means locked, false means unlocked, whatever else the
      body holds. */
  lemma StatusRoundTrip(locked: bool, extraTop: map<string, Json>, extraLock: map<string, Json>,
                        extraProps: map<string, Json>)
    ensures CheckLockStatus(Delivered(Response(true, 200, Parsed(StatusBody(locked, extraTop, extraLock, extraProps)))))
            == Success(locked)
  {
  }

  /** The three ways a parsed 200 body is an invalid response. */
  lemma StatusInvalidResponse(top: map<string, Json>)
    ensures CheckLockStatus(Delivered(Response(true, 200, Parsed(JObject(top))))) == Failure(Lock(InvalidResponse))
            <==> (|| "lock" !in top || !top["lock"].JObject?
                  || "properties" !in top["lock"].fields || !top["lock"].fields["properties"].JObject?
                  || "locked" !in top["lock"].fields["properties"].fields
                  || !top["lock"].fields["properties"].fields["locked"].JBool?)
  {
  }

  /** A parsed top-level array is not an object: invalid response, not a
      parser error. */
  lemma StatusArrayBody(items: seq<Json>)
    ensures CheckLockStatus(Delivered(Response(true, 200, Parsed(JArray(items))))) == Failure(Lock(InvalidResponse))
    ensures GetDevices(Delivered(Response(true, 200, Parsed(JArray(items))))) == Failure(Lock(InvalidResponse))
  {
  }

  // ----------------------------------------------------------------- listing

  /** An entry of `locks` with a string `device_id` and an object
      `properties` holding a string `name`, a string `model` and a Bool
      `locked`; other fields do not matter. */
  ghost predicate WellFormedEntry(entry: map<string, Json>)
  {
    && "device_id" in entry && entry["device_id"].JString?
    && "properties" in entry && entry["properties"].JObject?
    && "name" in entry["properties"].fields && entry["properties"].fields["name"].JString?
    && "model" in entry["properties"].fields && entry["properties"].fields["model"].JString?
    && "locked" in entry["properties"].fields && entry["properties"].fields["locked"].JBool?
  }

  /** The closure given to `compactMap`: an entry becomes a device only when
      `device_id` is a string, `properties` an object, and its `name` and
      `model` strings and `locked` a Bool. */
  function ToDevice(entry: map<string, Json>): (r: Option<Device>)
    ensures r.Some? <==> WellFormedEntry(entry)
    ensures r.Some? ==>
              var p := entry["properties"].fields;
              r.value == Device(entry["device_id"].s, DeviceProperties(p["name"].s, Some(p["model"].s), p["locked"].b))
    ensures r.Some? ==> r.value.properties.model.Some? && entry["device_id"] == JString(r.value.Id())
  {
    var id := Member(entry, "device_id");
    var props := Member(entry, "properties");
    if id.None? || !id.value.JString? || props.None? || !props.value.JObject? then None
    else
      var p := props.value.fields;
      var name := Member(p, "name");
      var model := Member(p, "model");
      var locked := Member(p, "locked");
      if name.None? || !name.value.JString? || model.None? || !model.value.JString?
         || locked.None? || !locked.value.JBool? then None
      else Some(Device(id.value.s, DeviceProperties(name.value.s, Some(model.value.s), locked.value.b)))
  }

  /** `compactMap(ToDevice)`. */
  function Compact(entries: seq<map<string, Json>>): (r: seq<Device>)
    ensures |r| <= |entries|
  {
    if entries == [] then []
    else
      var rest := Compact(entries[1..]);
      match ToDevice(entries[0])
      case Some(dev) => [dev] + rest
      case None => rest
  }

  function GetDevices(d: Delivery): (r: Result<seq<Device>, ClientError>)
    ensures d.TransportFailed? ==> r == Failure(Transport(d.reason))
    ensures d.Delivered? && !Accepted(d) ==> r == Failure(Lock(FailedToFetchDevices))
    ensures Accepted(d) && TopLevelObject(d.response.body).Failure? ==> r == Failure(Serialization)
    ensures Accepted(d) && TopLevelObject(d.response.body).Success? && Locks(TopLevelObject(d.response.body).value).None?
            ==> r == Failure(Lock(InvalidResponse))
    ensures r.Success? <==> Accepted(d) && TopLevelObject(d.response.body).Success?
                            && Locks(TopLevelObject(d.response.body).value).Some?
    ensures r.Success? ==> r.value == Compact(Locks(TopLevelObject(d.response.body).value).value)
  {
    match d
    case TransportFailed(reason) => Failure(Transport(reason))
    case Delivered(resp) =>
      if !(resp.isHttp && resp.statusCode == 200) then Failure(Lock(FailedToFetchDevices))
      else
        match TopLevelObject(resp.body)
        case Failure(e) => Failure(e)
        case Success(json) =>
          var locks := Locks(json);
          if locks.None? then Failure(Lock(InvalidResponse)) else Success(Compact(locks.value))
  }

  /** `json?["locks"] as? [[String: Any]]` */
  function Locks(json: Option<map<string, Json>>): (r: Option<seq<map<string, Json>>>)
    ensures r.Some? <==> json.Some? && "locks" in json.value && json.value["locks"].JArray?
                         && forall i :: 0 <= i < |json.value["locks"].items| ==> json.value["locks"].items[i].JObject?
    ensures r.Some? ==> |r.value| == |json.value["locks"].items|
                        && forall i :: 0 <= i < |r.value| ==> json.value["locks"].items[i] == JObject(r.value[i])
  {
    if json.None? then None
    else
      var locks := Member(json.value, "locks");
      if locks.None? then None else AsObjectArray(locks.value)
  }

  /** The positions, from `from` on, of the entries that `ToDevice` accepts,
      in increasing order. */
  ghost function Kept(entries: seq<map<string, Json>>, from: nat): seq<nat>
    requires from <= |entries|
    decreases |entries| - from
  {
    if from == |entries| then []
    else (if ToDevice(entries[from]).Some? then [from] else []) + Kept(entries, from + 1)
  }

  /** The accepted positions lie in `[from, |entries|)`, increase, and are
      exactly those whose entry is well-formed. */
  lemma {:induction false} KeptPositions(entries: seq<map<string, Json>>, from: nat)
    requires from <= |entries|
    ensures var k := Kept(entries, from);
            && (forall i :: 0 <= i < |k| ==> from <= k[i] < |entries|)
            && (forall i, j :: 0 <= i < j < |k| ==> k[i] < k[j])
            && (forall p :: from <= p < |entries| ==> (p in k <==> ToDevice(entries[p]).Some?))
    decreases |entries| - from
  {
    if from < |entries| {
      KeptPositions(entries, from + 1);
    }
  }

  /** The i-th device of the listing is built from the i-th accepted position. */
  lemma {:induction false} CompactAlongKept(entries: seq<map<string, Json>>, from: nat)
    requires from <= |entries|
    ensures var r, k := Compact(entries[from..]), Kept(entries, from);
            && |r| == |k|
            && forall i :: 0 <= i < |k| ==> k[i] < |entries| && ToDevice(entries[k[i]]) == Some(r[i])
    decreases |entries| - from
  {
    if from < |entries| {
      CompactAlongKept(entries, from + 1);
      var r, k := Compact(entries[from..]), Kept(entries, from);
      var tail, k' := Compact(entries[from + 1..]), Kept(entries, from + 1);
      assert entries[from..][1..] == entries[from + 1..];
      assert entries[from..][0] == entries[from];
      match ToDevice(entries[from])
      case None =>
        assert r == tail && k == k';
      case Some(dev) =>
        assert r == [dev] + tail && k == [from] + k';
        forall i | 0 < i < |k|
          ensures k[i] < |entries| && ToDevice(entries[k[i]]) == Some(r[i])
        {
          assert k[i] == k'[i - 1] && r[i] == tail[i - 1];
        }
    }
  }

  /** The listing keeps exactly the well-formed entries, in their original
      order: the i-th device is the one built from the i-th accepted position,
      the accepted positions increase, and a position is accepted iff its
      entry is well-formed. */
  lemma CompactSelects(entries: seq<map<string, Json>>)
    ensures var r, k := Compact(entries), Kept(entries, 0);
            && |r| == |k|
            && (forall i :: 0 <= i < |k| ==> k[i] < |entries| && ToDevice(entries[k[i]]) == Some(r[i]))
            && (forall i, j :: 0 <= i < j < |k| ==> k[i] < k[j])
            && (forall p :: 0 <= p < |entries| ==> (p in k <==> ToDevice(entries[p]).Some?))
            && (forall p :: 0 <= p < |entries| ==> (p in k <==> WellFormedEntry(entries[p])))
  {
    assert entries[0..] == entries;
    CompactAlongKept(entries, 0);
    KeptPositions(entries, 0);
  }

  /** The entry the API documents for one lock. */
  function DeviceEntry(dev: Device, model: string): map<string, Json>
  {
    map["device_id" := JString(dev.deviceId),
        "properties" := JObject(map["name" := JString(dev.properties.name), "model" := JString(model),
                                    "locked" := JBool(dev.properties.locked)])]
  }

  function ListBody(devs: seq<Device>): Json
    requires forall i :: 0 <= i < |devs| ==> devs[i].properties.model.Some?
  {
    JObject(map["locks" := JArray(seq(|devs|, i requires 0 <= i < |devs| => JObject(DeviceEntry(devs[i], devs[i].properties.model.value))))])
  }

  /** Every device that has a model survives the trip through its
      documented entry. */
  lemma DeviceRoundTrip(dev: Device)
    requires dev.properties.model.Some?
    ensures ToDevice(DeviceEntry(dev, dev.properties.model.value)) == Some(dev)
  {
  }

  /** A listing of documented entries gives back exactly those devices. */
  lemma {:induction false} ListRoundTrip(devs: seq<Device>)
    requires forall i :: 0 <= i < |devs| ==> devs[i].properties.model.Some?
    ensures GetDevices(Delivered(Response(true, 200, Parsed(ListBody(devs))))) == Success(devs)
  {
    var entries := seq(|devs|, i requires 0 <= i < |devs| => DeviceEntry(devs[i], devs[i].properties.model.value));
    var body := ListBody(devs);
    var items := body.fields["locks"].items;
    assert forall i :: 0 <= i < |items| ==> items[i] == JObject(entries[i]);
    var locks := AsObjectArray(body.fields["locks"]);
    assert locks.Some?;
    assert forall i :: 0 <= i < |entries| ==> locks.value[i] == entries[i];
    assert locks.value == entries;
    CompactOfEntries(devs, entries);
  }

  lemma {:induction false} CompactOfEntries(devs: seq<Device>, entries: seq<map<string, Json>>)
    requires forall i :: 0 <= i < |devs| ==> devs[i].properties.model.Some?
    requires |entries| == |devs|
    requires forall i :: 0 <= i < |devs| ==> entries[i] == DeviceEntry(devs[i], devs[i].properties.model.value)
    ensures Compact(entries) == devs
  {
    if devs != [] {
      CompactOfEntries(devs[1..], entries[1..]);
      DeviceRoundTrip(devs[0]);
    }
  }
}
