/**
  The credential and lock controller of the phone app (the non-view part of
  `ContentView`): four pieces of view state that saving, loading and the
  lock commands guard and update. Each method of the class is specified by
  a step function on the state it changes; the lock client's answer, the
  platform's keychain answers and the watch's reachability are inputs.
  `describe` stands for `error.localizedDescription`, whose text Foundation
  produces.
 */
module ContentView {
  import opened Wrappers
  import opened Utf8
  import opened Keychain
  import LockManager
  import opened WatchConnectivity

  const EnterBoth: string := "Please enter both API Key and Device ID"
  const EncodingError: string := "Error encoding credentials"
  const Saved: string := "Credentials saved successfully"
  const SaveFailedMessage: string := "Failed to save credentials"
  const Loaded: string := "Credentials loaded"
  const EnterCredentials: string := "Please enter credentials"
  const CredentialsNotSet: string := "Credentials not set. Please enter credentials."

  datatype ViewState = ViewState(apiKey: string, deviceId: string, statusMessage: string, isSaving: bool)

  /** The guard of saving and of every lock command. */
  predicate HasCredentials(s: ViewState)
  {
    s.apiKey != "" && s.deviceId != ""
  }

  /** The state after saving, the store after it, and the push to the watch. */
  datatype SaveStep = SaveStep(state: ViewState, items: map<ItemKey, Bytes>, push: Option<Outgoing>)

  /** The state after a lock command, and the request sent to the lock API
      (None when no call is made). */
  datatype ActionStep = ActionStep(state: ViewState, request: Option<LockManager.Request>)

  /** Both saves of `saveToKeychain`: the second is tried only when the first
      did not throw, and when both succeed the store holds both new items. */
  function SaveBoth(items: map<ItemKey, Bytes>, apiKeyData: Bytes, deviceIdData: Bytes,
                    apiKeySave: SaveAnswers, deviceIdSave: SaveAnswers): (r: Effect)
    ensures r.outcome.Pass? ==>
              && SaveEffect(items, ItemKey(Service, "apiKey"), apiKeyData, false, apiKeySave).outcome.Pass?
              && Lookup(r.items, ItemKey(Service, "apiKey")) == Some(apiKeyData)
              && Lookup(r.items, ItemKey(Service, "deviceId")) == Some(deviceIdData)
  {
    var first := SaveEffect(items, ItemKey(Service, "apiKey"), apiKeyData, false, apiKeySave);
    SaveThenRead(items, ItemKey(Service, "apiKey"), apiKeyData, false, apiKeySave);
    SaveThenRead(first.items, ItemKey(Service, "deviceId"), deviceIdData, false, deviceIdSave);
    OtherItemsUntouched(first.items, ItemKey(Service, "deviceId"), ItemKey(Service, "apiKey"), deviceIdData, false,
                        deviceIdSave, Proceed);
    if first.outcome.Fail? then first
    else SaveEffect(first.items, ItemKey(Service, "deviceId"), deviceIdData, false, deviceIdSave)
  }

  function SaveToKeychainStep(s: ViewState, items: map<ItemKey, Bytes>, codec: Codec,
                              apiKeySave: SaveAnswers, deviceIdSave: SaveAnswers, reachable: bool): (r: SaveStep)
    ensures r.state.apiKey == s.apiKey && r.state.deviceId == s.deviceId
    ensures !HasCredentials(s) ==> r == SaveStep(s.(statusMessage := EnterBoth), items, None)
    ensures HasCredentials(s) && codec.encode(s.apiKey).Some? && codec.encode(s.deviceId).Some? ==>
              && r.push == SendCredentials(s.apiKey, s.deviceId, reachable)
              && (r.state.statusMessage == Saved || r.state.statusMessage == SaveFailedMessage)
    ensures HasCredentials(s) && (codec.encode(s.apiKey).None? || codec.encode(s.deviceId).None?) ==>
              r == SaveStep(s.(statusMessage := EncodingError), items, None)
    ensures HasCredentials(s) && codec.encode(s.apiKey).Some? && codec.encode(s.deviceId).Some? ==>
              var e := SaveBoth(items, codec.encode(s.apiKey).value, codec.encode(s.deviceId).value, apiKeySave, deviceIdSave);
              && r.items == e.items
              && (r.state.statusMessage == Saved <==> e.outcome.Pass?)
    ensures r.state.statusMessage == Saved ==> !r.state.isSaving
    ensures r.state.statusMessage != Saved ==> r.state.isSaving == s.isSaving
    ensures r.push.None? ==> !reachable || !HasCredentials(s) || codec.encode(s.apiKey).None? || codec.encode(s.deviceId).None?
  {
    if !HasCredentials(s) then SaveStep(s.(statusMessage := EnterBoth), items, None)
    else if codec.encode(s.apiKey).None? || codec.encode(s.deviceId).None? then
      SaveStep(s.(statusMessage := EncodingError), items, None)
    else
      var e := SaveBoth(items, codec.encode(s.apiKey).value, codec.encode(s.deviceId).value, apiKeySave, deviceIdSave);
      var state := if e.outcome.Pass? then s.(statusMessage := Saved, isSaving := false)
                   else s.(statusMessage := SaveFailedMessage);
      SaveStep(state, e.items, SendCredentials(s.apiKey, s.deviceId, reachable))
  }

  function LoadFromKeychainStep(s: ViewState, items: map<ItemKey, Bytes>, codec: Codec): (r: ViewState)
    ensures var apiKey, deviceId := ReadStringIn(items, codec, ItemKey(Service, "apiKey")),
                                    ReadStringIn(items, codec, ItemKey(Service, "deviceId"));
            if apiKey.Some? && deviceId.Some?
            then r == ViewState(apiKey.value, deviceId.value, Loaded, false)
            else r == s.(statusMessage := EnterCredentials, isSaving := true)
  {
    var apiKey := ReadStringIn(items, codec, ItemKey(Service, "apiKey"));
    var deviceId := ReadStringIn(items, codec, ItemKey(Service, "deviceId"));
    if apiKey.Some? && deviceId.Some? then
      s.(apiKey := apiKey.value, deviceId := deviceId.value, statusMessage := Loaded, isSaving := false)
    else s.(statusMessage := EnterCredentials, isSaving := true)
  }

  /** The guard shared by the three lock commands. */
  function NotSet(s: ViewState): ActionStep
  {
    ActionStep(s.(statusMessage := CredentialsNotSet, isSaving := true), None)
  }

  function UnlockDoorStep(s: ViewState, d: LockManager.Delivery, describe: LockManager.ClientError -> string): (r: ActionStep)
    ensures !HasCredentials(s) ==> r == NotSet(s)
    ensures HasCredentials(s) ==>
              && r.request == Some(LockManager.UnlockRequest(s.apiKey, s.deviceId))
              && r.state == s.(statusMessage := r.state.statusMessage)
              && (r.state.statusMessage == "Door Unlocked!" <==> LockManager.UnlockDoor(d).Pass?)
              && (LockManager.UnlockDoor(d).Fail? ==>
                    r.state.statusMessage == "Unlock Failed: " + describe(LockManager.UnlockDoor(d).error))
  {
    if !HasCredentials(s) then NotSet(s)
    else
      var message := match LockManager.UnlockDoor(d)
                     case Pass => "Door Unlocked!"
                     case Fail(e) => "Unlock Failed: " + describe(e);
      assert message[0] == 'D' <==> LockManager.UnlockDoor(d).Pass?;
      ActionStep(s.(statusMessage := message), Some(LockManager.UnlockRequest(s.apiKey, s.deviceId)))
  }

  function LockDoorStep(s: ViewState, d: LockManager.Delivery, describe: LockManager.ClientError -> string): (r: ActionStep)
    ensures !HasCredentials(s) ==> r == NotSet(s)
    ensures HasCredentials(s) ==>
              && r.request == Some(LockManager.LockRequest(s.apiKey, s.deviceId))
              && r.state == s.(statusMessage := r.state.statusMessage)
              && (r.state.statusMessage == "Door Locked!" <==> LockManager.LockDoor(d).Pass?)
              && (LockManager.LockDoor(d).Fail? ==>
                    r.state.statusMessage == "Lock Failed: " + describe(LockManager.LockDoor(d).error))
  {
    if !HasCredentials(s) then NotSet(s)
    else
      var message := match LockManager.LockDoor(d)
                     case Pass => "Door Locked!"
                     case Fail(e) => "Lock Failed: " + describe(e);
      assert message[0] == 'D' <==> LockManager.LockDoor(d).Pass?;
      ActionStep(s.(statusMessage := message), Some(LockManager.LockRequest(s.apiKey, s.deviceId)))
  }

  function CheckLockStatusStep(s: ViewState, d: LockManager.Delivery, describe: LockManager.ClientError -> string): (r: ActionStep)
    ensures !HasCredentials(s) ==> r == NotSet(s)
    ensures HasCredentials(s) ==>
              && r.request == Some(LockManager.StatusRequest(s.apiKey, s.deviceId))
              && r.state == s.(statusMessage := r.state.statusMessage)
              && (r.state.statusMessage == "Lock is Locked" <==> LockManager.CheckLockStatus(d) == Success(true))
              && (r.state.statusMessage == "Lock is Unlocked" <==> LockManager.CheckLockStatus(d) == Success(false))
              && (LockManager.CheckLockStatus(d).Failure? ==>
                    r.state.statusMessage == "Status Check Failed: " + describe(LockManager.CheckLockStatus(d).error))
  {
    if !HasCredentials(s) then NotSet(s)
    else
      var message := match LockManager.CheckLockStatus(d)
                     case Success(locked) => if locked then "Lock is Locked" else "Lock is Unlocked"
                     case Failure(e) => "Status Check Failed: " + describe(e);
      assert message[0] == 'L' <==> LockManager.CheckLockStatus(d).Success?;
      ActionStep(s.(statusMessage := message), Some(LockManager.StatusRequest(s.apiKey, s.deviceId)))
  }

  class ContentView {
    var apiKey: string
    var deviceId: string
    var statusMessage: string
    var isSaving: bool

    function State(): ViewState
      reads this
    {
      ViewState(apiKey, deviceId, statusMessage, isSaving)
    }

    constructor ()
      ensures State() == ViewState("", "", "Ready", false)
    {
      apiKey, deviceId, statusMessage, isSaving := "", "", "Ready", false;
    }

    /** `saveToKeychain()` */
    method SaveToKeychain(store: Store, codec: Codec, apiKeySave: SaveAnswers, deviceIdSave: SaveAnswers,
                          reachable: bool) returns (push: Option<Outgoing>)
      modifies this, store
      ensures SaveStep(State(), store.items, push)
              == SaveToKeychainStep(old(State()), old(store.items), codec, apiKeySave, deviceIdSave, reachable)
    {
      if apiKey == "" || deviceId == "" {
        statusMessage := EnterBoth;
        return None;
      }
      var apiKeyData := codec.encode(apiKey);
      var deviceIdData := codec.encode(deviceId);
      if apiKeyData.None? || deviceIdData.None? {
        statusMessage := EncodingError;
        return None;
      }
      var r := Save(store, apiKeyData.value, Service, "apiKey", false, apiKeySave);
      if r.Pass? {
        r := Save(store, deviceIdData.value, Service, "deviceId", false, deviceIdSave);
      }
      if r.Pass? {
        statusMessage := Saved;
        isSaving := false;
      } else {
        statusMessage := SaveFailedMessage;
      }
      push := SendCredentials(apiKey, deviceId, reachable);
    }

    /** `loadFromKeychain()` */
    method LoadFromKeychain(store: Store, codec: Codec)
      modifies this
      ensures State() == LoadFromKeychainStep(old(State()), store.items, codec)
    {
      var loadedApiKey := ReadString(store, codec, Service, "apiKey");
      var loadedDeviceId := ReadString(store, codec, Service, "deviceId");
      if loadedApiKey.Some? && loadedDeviceId.Some? {
        apiKey := loadedApiKey.value;
        deviceId := loadedDeviceId.value;
        statusMessage := Loaded;
        isSaving := false;
      } else {
        statusMessage := EnterCredentials;
        isSaving := true;
      }
    }

    /** `unlockDoor()`, given the delivery of its request. */
    method UnlockDoor(d: LockManager.Delivery, describe: LockManager.ClientError -> string)
      returns (request: Option<LockManager.Request>)
      modifies this
      ensures ActionStep(State(), request) == UnlockDoorStep(old(State()), d, describe)
    {
      if apiKey == "" || deviceId == "" {
        statusMessage := CredentialsNotSet;
        isSaving := true;
        return None;
      }
      request := Some(LockManager.UnlockRequest(apiKey, deviceId));
      var result := LockManager.UnlockDoor(d);
      match result
      case Pass => statusMessage := "Door Unlocked!";
      case Fail(e) => statusMessage := "Unlock Failed: " + describe(e);
    }

    /** `lockDoor()`, given the delivery of its request. */
    method LockDoor(d: LockManager.Delivery, describe: LockManager.ClientError -> string)
      returns (request: Option<LockManager.Request>)
      modifies this
      ensures ActionStep(State(), request) == LockDoorStep(old(State()), d, describe)
    {
      if apiKey == "" || deviceId == "" {
        statusMessage := CredentialsNotSet;
        isSaving := true;
        return None;
      }
      request := Some(LockManager.LockRequest(apiKey, deviceId));
      var result := LockManager.LockDoor(d);
      match result
      case Pass => statusMessage := "Door Locked!";
      case Fail(e) => statusMessage := "Lock Failed: " + describe(e);
    }

    /** `checkLockStatus()`, given the delivery of its request. */
    method CheckLockStatus(d: LockManager.Delivery, describe: LockManager.ClientError -> string)
      returns (request: Option<LockManager.Request>)
      modifies this
      ensures ActionStep(State(), request) == CheckLockStatusStep(old(State()), d, describe)
    {
      if apiKey == "" || deviceId == "" {
        statusMessage := CredentialsNotSet;
        isSaving := true;
        return None;
      }
      request := Some(LockManager.StatusRequest(apiKey, deviceId));
      var result := LockManager.CheckLockStatus(d);
      match result
      case Success(locked) => statusMessage := if locked then "Lock is Locked" else "Lock is Unlocked";
      case Failure(e) => statusMessage := "Status Check Failed: " + describe(e);
    }
  }

  // ---------------------------------------------------------------- lemmas

  /** Saving is not all-or-nothing: when the API key is saved and the device
      identifier is not, the new API key stays stored, the status reports a
      failure, and the device identifier item is the new one only if it
      already held that value. */
  lemma SaveIsNotAtomic(s: ViewState, items: map<ItemKey, Bytes>, codec: Codec,
                         apiKeySave: SaveAnswers, deviceIdSave: SaveAnswers, reachable: bool)
    requires HasCredentials(s) && codec.encode(s.apiKey).Some? && codec.encode(s.deviceId).Some?
    requires SaveEffect(items, ItemKey(Service, "apiKey"), codec.encode(s.apiKey).value, false, apiKeySave).outcome.Pass?
    requires SaveBoth(items, codec.encode(s.apiKey).value, codec.encode(s.deviceId).value, apiKeySave, deviceIdSave).outcome.Fail?
    ensures var r := SaveToKeychainStep(s, items, codec, apiKeySave, deviceIdSave, reachable);
            && r.state.statusMessage == SaveFailedMessage
            && Lookup(r.items, ItemKey(Service, "apiKey")) == Some(codec.encode(s.apiKey).value)
            && (Lookup(r.items, ItemKey(Service, "deviceId")) == Some(codec.encode(s.deviceId).value) ==>
                  Lookup(items, ItemKey(Service, "deviceId")) == Some(codec.encode(s.deviceId).value))
  {
  }

  /** When the API key's save throws, the device identifier's save is not
      tried: the store is what the first save left, the device identifier
      item is as before, the status reports a failure, and the push still
      happens. */
  lemma FirstSaveFailureSkipsSecond(s: ViewState, items: map<ItemKey, Bytes>, codec: Codec,
                                    apiKeySave: SaveAnswers, deviceIdSave: SaveAnswers, reachable: bool)
    requires HasCredentials(s) && codec.encode(s.apiKey).Some? && codec.encode(s.deviceId).Some?
    requires SaveEffect(items, ItemKey(Service, "apiKey"), codec.encode(s.apiKey).value, false, apiKeySave).outcome.Fail?
    ensures var r := SaveToKeychainStep(s, items, codec, apiKeySave, deviceIdSave, reachable);
            && r.items == SaveEffect(items, ItemKey(Service, "apiKey"), codec.encode(s.apiKey).value, false, apiKeySave).items
            && Lookup(r.items, ItemKey(Service, "deviceId")) == Lookup(items, ItemKey(Service, "deviceId"))
            && r.state == s.(statusMessage := SaveFailedMessage)
            && r.push == SendCredentials(s.apiKey, s.deviceId, reachable)
  {
    OtherItemsUntouched(items, ItemKey(Service, "apiKey"), ItemKey(Service, "deviceId"), codec.encode(s.apiKey).value,
                        false, apiKeySave, Proceed);
  }

  /** A successful save is what the next launch loads: the fields come back
      as they were saved and the input form is closed. */
  lemma SaveThenLoad(s: ViewState, later: ViewState, items: map<ItemKey, Bytes>, codec: Codec,
                      apiKeySave: SaveAnswers, deviceIdSave: SaveAnswers, reachable: bool)
    requires Lawful(codec)
    requires SaveToKeychainStep(s, items, codec, apiKeySave, deviceIdSave, reachable).state.statusMessage == Saved
    ensures var r := SaveToKeychainStep(s, items, codec, apiKeySave, deviceIdSave, reachable);
            LoadFromKeychainStep(later, r.items, codec) == ViewState(s.apiKey, s.deviceId, Loaded, false)
  {
  }

  /** A rejected unlock (any status but 200) reports the client's
      `failedToUnlock` and changes nothing else. */
  lemma UnlockRejected(s: ViewState, isHttp: bool, code: int, body: LockManager.Body,
                       describe: LockManager.ClientError -> string)
    requires HasCredentials(s) && !(isHttp && code == 200)
    ensures UnlockDoorStep(s, LockManager.Delivered(LockManager.Response(isHttp, code, body)), describe).state
            == s.(statusMessage := "Unlock Failed: " + describe(LockManager.Lock(LockManager.FailedToUnlock)))
  {
  }

  /** A status answer with the documented body shows the flag it carries. */
  lemma StatusShown(s: ViewState, locked: bool, describe: LockManager.ClientError -> string)
    requires HasCredentials(s)
    ensures var body := LockManager.StatusBody(locked, map[], map[], map[]);
            CheckLockStatusStep(s, LockManager.Delivered(LockManager.Response(true, 200, LockManager.Parsed(body))), describe).state
            == s.(statusMessage := if locked then "Lock is Locked" else "Lock is Unlocked")
  {
  }
}
