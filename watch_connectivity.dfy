/**
  The phone side of the credential relay (`WatchConnectivityManager`): the
  answer to a watch's request for credentials, and the push of freshly saved
  credentials. Session activation and reachability are not modelled;
  reachability is an input.
 */
module WatchConnectivity {
  import opened Wrappers
  import opened Utf8
  import opened Keychain

  const Service: string := "LockAppService"
  const CredentialsNotFound: string := "Credentials not found"

  /** A value of a property-list message, as far as `as? String` can tell. */
  datatype Value = Text(s: string) | NonText

  type Message = map<string, Value>

  /** A message handed to `sendMessage`, and whether it asks for a reply. */
  datatype Outgoing = Outgoing(payload: map<string, string>, withReplyHandler: bool)

  /** `message["request"] as? String == "credentials"` */
  predicate IsCredentialsRequest(message: Message)
  {
    "request" in message && message["request"] == Text("credentials")
  }

  /** `session(_:didReceiveMessage:replyHandler:)`: the one reply given to the
      reply handler, or None when the handler is not called. The store is only
      read. */
  function Respond(message: Message, store: Store, codec: Codec): (reply: Option<map<string, string>>)
    reads store
    ensures reply.Some? <==> IsCredentialsRequest(message)
    ensures reply.Some? ==>
              var apiKey, deviceId := ReadString(store, codec, Service, "apiKey"), ReadString(store, codec, Service, "deviceId");
              if apiKey.Some? && deviceId.Some?
              then reply.value == map["apiKey" := apiKey.value, "deviceId" := deviceId.value]
              else reply.value == map["error" := CredentialsNotFound]
  {
    if !IsCredentialsRequest(message) then None
    else
      var apiKeyData := Read(store, Service, "apiKey");
      var deviceIdData := Read(store, Service, "deviceId");
      if apiKeyData.Some? && deviceIdData.Some? && codec.decode(apiKeyData.value).Some?
         && codec.decode(deviceIdData.value).Some?
      then Some(map["apiKey" := codec.decode(apiKeyData.value).value, "deviceId" := codec.decode(deviceIdData.value).value])
      else Some(map["error" := CredentialsNotFound])
  }

  /** A reply never carries half a credential pair: it holds both fields and
      nothing else, or the error and nothing else. */
  lemma ReplyNeverPartial(message: Message, store: Store, codec: Codec)
    requires Respond(message, store, codec).Some?
    ensures var r := Respond(message, store, codec).value;
            || (r.Keys == {"apiKey", "deviceId"} && "error" !in r)
            || (r.Keys == {"error"} && "apiKey" !in r && "deviceId" !in r)
  {
  }

  /** The reply holds both credentials exactly when both items are stored and
      decode, and then they are the stored ones. */
  lemma ReplyCarriesStoredPair(message: Message, store: Store, codec: Codec)
    requires IsCredentialsRequest(message)
    ensures var r := Respond(message, store, codec).value;
            && ("apiKey" in r <==> ReadString(store, codec, Service, "apiKey").Some?
                                   && ReadString(store, codec, Service, "deviceId").Some?)
            && ("apiKey" in r ==> r["apiKey"] == ReadString(store, codec, Service, "apiKey").value
                                  && r["deviceId"] == ReadString(store, codec, Service, "deviceId").value)
  {
  }

  /** Once both credentials have been encoded and saved, a request is
      answered with exactly that pair. */
  lemma ReplyAfterSaves(message: Message, store: Store, codec: Codec, items: map<ItemKey, Bytes>,
                        apiKey: string, deviceId: string, first: SaveAnswers, second: SaveAnswers)
    requires IsCredentialsRequest(message) && Lawful(codec)
    requires codec.encode(apiKey).Some? && codec.encode(deviceId).Some?
    requires var e1 := SaveEffect(items, ItemKey(Service, "apiKey"), codec.encode(apiKey).value, false, first);
             var e2 := SaveEffect(e1.items, ItemKey(Service, "deviceId"), codec.encode(deviceId).value, false, second);
             e1.outcome.Pass? && e2.outcome.Pass? && store.items == e2.items
    ensures Respond(message, store, codec) == Some(map["apiKey" := apiKey, "deviceId" := deviceId])
  {
  }

  /** `sendCredentialsToWatch(apiKey:deviceId:)`: nothing is sent to an
      unreachable watch; otherwise both fields go out without a reply
      handler. */
  function SendCredentials(apiKey: string, deviceId: string, reachable: bool): (sent: Option<Outgoing>)
    ensures sent.Some? <==> reachable
    ensures sent.Some? ==> !sent.value.withReplyHandler && sent.value.payload.Keys == {"apiKey", "deviceId"}
                           && sent.value.payload["apiKey"] == apiKey && sent.value.payload["deviceId"] == deviceId
  {
    if !reachable then None
    else Some(Outgoing(map["apiKey" := apiKey, "deviceId" := deviceId], false))
  }
}
