# LockApp: credential store, relay and lock client

A Dafny model of the decision logic of a phone/watch app pair that locks,
unlocks and queries a door lock through the Seam cloud API:

- **Lock client** (`LockManager`, `lock_manager.dfy`): the requests for
  unlock, lock, status and device listing, and how each turns the response
  (is it HTTP, its status code, its body as parsed JSON) into a value or a
  `LockError`. JSON values and the conditional casts the client applies to
  them are in `json.dfy`.
- **Credential store** (`Keychain`, `keychain.dfy`): the platform keychain
  is a class `Store` holding a map from (service, account) to bytes, with
  its primitives as methods whose failures are injected `Answer`s; the
  helper's `save`, `read`, `delete`, `areCredentialsSet`, `saveString`,
  `readString` and `KeychainError(status:)` are modelled over it. Each
  state-changing helper is specified by a function of the old store
  (`SaveEffect`, `DeleteEffect`, `SaveStringEffect`), and the promised
  properties are lemmas about those functions.
- **Credential relay** (`WatchConnectivity`, `watch_connectivity.dfy`): the
  phone's reply to a watch's credentials request, and the push of saved
  credentials to a reachable watch.
- **Controller** (`ContentView`, `content_view.dfy`): a class with the four
  view fields `apiKey`, `deviceId`, `statusMessage` and `isSaving`; saving,
  loading and the three lock commands are methods specified by step
  functions of the old state, the store contents and the injected client
  answer, with lemmas relating them.

`utf8.dfy` holds the UTF-8 conversions as an injected pair of partial
functions (`Codec`) and the one law the model relies on (`Lawful`: decoding
an encoding gives the string back). `wrappers.dfy` holds `Option`, `Result`
and `Outcome`.

Where the documented design and the code disagree, the model follows the
code:

- `areCredentialsSet` checks only that an item exists for each account, not
  that it is non-empty.
- A listed device needs a string `model`: an entry without one is dropped,
  so every returned device has `model` set, although the type allows none.
- `locks` must be an array of objects as a whole (`as? [[String: Any]]`): a
  single element that is not an object makes the listing an invalid
  response, instead of just dropping that element.
- A body that is not JSON, or whose top level is neither an array nor an
  object (the parser's default options refuse such fragments), throws the
  parser's own error, not `invalidResponse`.
- The lock commands use the credentials held in the view's fields, loaded
  once from the store; they do not read the store on each call. On failure
  the status message does change (to the failure text).

## Model

| member | source | states |
|---|---|---|
| Json.AsObject | LockAppShared/Sources/LockAppShared/LockManager.swift:87 | `as? [String: Any]` succeeds exactly on an object and gives its fields |
| Json.AsString | LockAppShared/Sources/LockAppShared/LockManager.swift:117 | `as? String` succeeds exactly on a string and gives it |
| Json.AsBool | LockAppShared/Sources/LockAppShared/LockManager.swift:90 | `as? Bool` succeeds exactly on a JSON boolean and gives it |
| Json.Member | LockAppShared/Sources/LockAppShared/LockManager.swift:88 | a dictionary lookup gives the value iff the key is present |
| Json.AsObjectArray | LockAppShared/Sources/LockAppShared/LockManager.swift:112 | `as? [[String: Any]]` succeeds exactly on an array all of whose elements are objects, and gives their fields in order |
| LockManager.TopLevelObject | LockAppShared/Sources/LockAppShared/LockManager.swift:111 | parsing throws the parser's error exactly for a body that is not JSON or whose top level is neither an array nor an object; a parsed value casts to an object exactly when it is one |
| LockManager.Locks | LockAppShared/Sources/LockAppShared/LockManager.swift:112 | `json?["locks"] as? [[String: Any]]` is non-nil exactly when the body is an object whose `locks` is an array of objects, and then gives those objects in order |
| LockManager.UnlockRequest | LockAppShared/Sources/LockAppShared/LockManager.swift:34-41 | a POST to `/locks/unlock_door` whose Authorization header carries exactly `Bearer <apiKey>` and whose JSON body has the single key `device_id` mapped to `deviceId` |
| LockManager.LockRequest | LockAppShared/Sources/LockAppShared/LockManager.swift:55-62 | the same for `/locks/lock_door` |
| LockManager.StatusRequest | LockAppShared/Sources/LockAppShared/LockManager.swift:77-80 | a GET of `/locks/get?device_id=<deviceId>`, without a body, with the bearer token `apiKey` |
| LockManager.DevicesRequest | LockAppShared/Sources/LockAppShared/LockManager.swift:101-104 | a GET of `/locks/list`, without a body, with the bearer token `apiKey` |
| LockManager.UnlockDoor | LockAppShared/Sources/LockAppShared/LockManager.swift:43-46 | succeeds iff the response is HTTP with status 200; any other response, a non-HTTP one included, fails with `failedToUnlock`; a transport error is passed on |
| LockManager.LockDoor | LockAppShared/Sources/LockAppShared/LockManager.swift:64-67 | succeeds iff HTTP status 200; otherwise `failedToLock`; a transport error is passed on |
| LockManager.CommandsIgnoreBody | LockAppShared/Sources/LockAppShared/LockManager.swift:43-67 | unlock and lock decide on the response without looking at its body |
| LockManager.CheckLockStatus | LockAppShared/Sources/LockAppShared/LockManager.swift:82-93 | a non-200 or non-HTTP response fails with `failedToCheckStatus` before the body is looked at; a body the parser refuses throws the parser's error; success iff the body is an object with a Bool at `lock.properties.locked`, and the result is exactly that Bool |
| LockManager.StatusRoundTrip | LockAppShared/Sources/LockAppShared/LockManager.swift:87-93 | a 200 answer with the documented body `{"lock":{"properties":{"locked":b}}}`, with any extra fields at every level, yields exactly `b` |
| LockManager.StatusInvalidResponse | LockAppShared/Sources/LockAppShared/LockManager.swift:87-92 | for a parsed top-level object, `invalidResponse` is thrown iff `lock` is missing or not an object, or `properties` is, or `locked` is missing or not a Bool |
| LockManager.StatusArrayBody | LockAppShared/Sources/LockAppShared/LockManager.swift:87-114 | a top-level array parses but is not an object: both status and listing throw `invalidResponse` |
| LockManager.ToDevice | LockAppShared/Sources/LockAppShared/LockManager.swift:116-125 | an entry becomes a device iff it has a string `device_id` and an object `properties` with a string `name`, a string `model` and a Bool `locked`; the device is built from exactly those values, so its id is `device_id` and it always has a model |
| LockManager.Compact | LockAppShared/Sources/LockAppShared/LockManager.swift:116-126 | the filtered listing is never longer than `locks` |
| LockManager.GetDevices | LockAppShared/Sources/LockAppShared/LockManager.swift:106-126 | checks in order: transport error passed on, non-200 gives `failedToFetchDevices`, parser error, then a missing `locks` or one that is not an array of objects gives `invalidResponse`; success exactly otherwise, and then the devices are the filtered `locks` |
| LockManager.KeptPositions | LockAppShared/Sources/LockAppShared/LockManager.swift:116-125 | the positions the filter accepts lie within `locks`, increase, and are exactly the positions of well-formed entries |
| LockManager.CompactAlongKept | LockAppShared/Sources/LockAppShared/LockManager.swift:116-126 | the i-th device of the filtered listing is the one built from the i-th accepted entry |
| LockManager.CompactSelects | LockAppShared/Sources/LockAppShared/LockManager.swift:116-126 | the listing keeps exactly the well-formed entries in input order: the i-th device is built from the i-th accepted position, accepted positions increase, and a position is accepted iff its entry has a string `device_id`, an object `properties` and in it a string `name`, a string `model` and a Bool `locked` |
| LockManager.DeviceRoundTrip | LockAppShared/Sources/LockAppShared/LockManager.swift:117-122 | a device with a model, written as the documented entry, is decoded back to itself |
| LockManager.ListRoundTrip | LockAppShared/Sources/LockAppShared/LockManager.swift:106-126 | a 200 listing of documented entries gives back exactly those devices, in order |
| Keychain.FromStatus | LockAppShared/Sources/LockAppShared/KeychainHelper.swift:133-142 | `errSecItemNotFound` gives `itemNotFound`, `errSecDuplicateItem` gives `duplicateItem`, every other status gives `unexpectedError`; the status can be recovered from the error |
| Keychain.Store.ItemUpdate | LockAppShared/Sources/LockAppShared/KeychainHelper.swift:23 | the platform update: not found for an absent item, otherwise the injected answer, writing only on success |
| Keychain.Store.ItemAdd | LockAppShared/Sources/LockAppShared/KeychainHelper.swift:31 | the platform add: duplicate for a present item, otherwise the injected answer, writing only on success |
| Keychain.Store.ItemDelete | LockAppShared/Sources/LockAppShared/KeychainHelper.swift:75 | the platform delete: not found for an absent item, otherwise the injected answer, removing only on success |
| Keychain.Store.CopyMatching | LockAppShared/Sources/LockAppShared/KeychainHelper.swift:54-55 | the platform lookup gives the stored bytes iff an item exists for the key |
| Keychain.Read | LockAppShared/Sources/LockAppShared/KeychainHelper.swift:44-61 | the stored bytes for (service, account), nil if there are none |
| Keychain.ReadString | LockAppShared/Sources/LockAppShared/KeychainHelper.swift:117-122 | nil when no item is stored, otherwise the decoding of the stored bytes |
| Keychain.Save | LockAppShared/Sources/LockAppShared/KeychainHelper.swift:14-37 | the new store and the outcome are those of `SaveEffect`: update in place when asked and the item exists, delete-then-add otherwise, with `saveFailed` carrying the failing status and the branch's message |
| Keychain.Delete | LockAppShared/Sources/LockAppShared/KeychainHelper.swift:68-81 | the new store and the outcome are those of `DeleteEffect` |
| Keychain.SaveString | LockAppShared/Sources/LockAppShared/KeychainHelper.swift:105-110 | a string that does not encode throws `saveFailed(-1, ...)` and leaves the store alone; otherwise it is a save with `updateIfExists` false |
| Keychain.AreCredentialsSet | LockAppShared/Sources/LockAppShared/KeychainHelper.swift:88-97 | true iff every listed account has an item (so true for an empty list); when false, the reads stopped at the first account without an item |
| Keychain.SaveThenRead | LockAppShared/Sources/LockAppShared/KeychainHelper.swift:14-36 | after a successful save the item holds exactly the saved data, in either branch |
| Keychain.OtherItemsUntouched | LockAppShared/Sources/LockAppShared/KeychainHelper.swift:15-19 | save and delete leave every other (service, account) item as it was |
| Keychain.OverwriteNeverDuplicate | LockAppShared/Sources/LockAppShared/KeychainHelper.swift:29-34 | without `updateIfExists`, and unless the platform refuses the delete, the save succeeds iff the add is allowed and never fails as a duplicate; a failure carries the add's status and "Save operation failed" |
| Keychain.RefusedDeleteIsDuplicate | LockAppShared/Sources/LockAppShared/KeychainHelper.swift:29-34 | if the platform refuses the delete of an existing item, the add meets it and the save fails with `errSecDuplicateItem`, store unchanged |
| Keychain.FailedOverwriteLosesItem | LockAppShared/Sources/LockAppShared/KeychainHelper.swift:29-34 | delete-then-add is not atomic: a refused add after a successful delete throws and leaves no item |
| Keychain.UpdateInPlace | LockAppShared/Sources/LockAppShared/KeychainHelper.swift:21-27 | with `updateIfExists` and an existing item, the item is replaced in place; a refusal throws `saveFailed` with "Update operation failed" and changes nothing |
| Keychain.DeleteThenRead | LockAppShared/Sources/LockAppShared/KeychainHelper.swift:75-80 | delete succeeds iff the item is absent or the platform proceeds, and afterwards there is no item; a failure is `deleteFailed` with the platform's status and keeps the store |
| Keychain.SaveStringThenReadString | LockAppShared/Sources/LockAppShared/KeychainHelper.swift:105-122 | a string saved with `saveString` reads back with `readString` |
| WatchConnectivity.Respond | LockApp/WatchConnectivityManager.swift:57-73 | a reply is given (once) iff `request` is the string "credentials"; it is `{apiKey, deviceId}` with the stored values when both read and decode, and exactly `{"error": "Credentials not found"}` otherwise; the store is only read |
| WatchConnectivity.ReplyNeverPartial | LockApp/WatchConnectivityManager.swift:59-71 | a reply holds both credential fields and nothing else, or the error and nothing else |
| WatchConnectivity.ReplyCarriesStoredPair | LockApp/WatchConnectivityManager.swift:60-66 | the reply carries credentials iff both stored strings are readable, and then they are those strings |
| WatchConnectivity.ReplyAfterSaves | LockApp/WatchConnectivityManager.swift:59-66 | after the API key and device id have been encoded and saved, a request is answered with exactly that pair |
| WatchConnectivity.SendCredentials | LockApp/WatchConnectivityManager.swift:43-53 | nothing is sent when the watch is unreachable; otherwise exactly `{"apiKey", "deviceId"}` with the given values and no reply handler |
| ContentView.SaveToKeychainStep | LockApp/ContentView.swift:111-135 | an empty field sets "Please enter both API Key and Device ID" and neither writes nor pushes; a field that does not encode sets "Error encoding credentials" and neither writes nor pushes; otherwise the store is that of the two saves, the status is "Credentials saved successfully" iff both saves succeed (then `isSaving` false) and "Failed to save credentials" otherwise (`isSaving` kept), and the push happens either way; the credential fields never change |
| ContentView.SaveBoth | LockApp/ContentView.swift:124-125 | the two saves in order; when both succeed the store holds the new API key and device id items |
| ContentView.LoadFromKeychainStep | LockApp/ContentView.swift:138-151 | both fields and `isSaving = false` are set only when both items read and decode; otherwise "Please enter credentials", `isSaving = true`, fields unchanged |
| ContentView.UnlockDoorStep | LockApp/ContentView.swift:154-170 | with an empty field: "Credentials not set. Please enter credentials.", `isSaving = true`, no request; otherwise the unlock request for the fields is sent, only the status changes, and it is "Door Unlocked!" iff the client succeeds, else "Unlock Failed: " and the error's description |
| ContentView.LockDoorStep | LockApp/ContentView.swift:173-189 | the same for locking, with "Door Locked!" and "Lock Failed: " |
| ContentView.CheckLockStatusStep | LockApp/ContentView.swift:192-208 | the same guard; "Lock is Locked" iff the client returns true, "Lock is Unlocked" iff false, else "Status Check Failed: " and the description |
| ContentView.ContentView.constructor | LockApp/ContentView.swift:5-8 | the initial state: empty fields, "Ready", not saving |
| ContentView.ContentView.SaveToKeychain | LockApp/ContentView.swift:111-135 | the new view state, store and push are those of `SaveToKeychainStep` |
| ContentView.ContentView.LoadFromKeychain | LockApp/ContentView.swift:138-151 | the new view state is that of `LoadFromKeychainStep` |
| ContentView.ContentView.UnlockDoor | LockApp/ContentView.swift:154-170 | the new view state and the request sent are those of `UnlockDoorStep` |
| ContentView.ContentView.LockDoor | LockApp/ContentView.swift:173-189 | the new view state and the request sent are those of `LockDoorStep` |
| ContentView.ContentView.CheckLockStatus | LockApp/ContentView.swift:192-208 | the new view state and the request sent are those of `CheckLockStatusStep` |
| ContentView.SaveIsNotAtomic | LockApp/ContentView.swift:123-131 | when the API key is saved and the device id is not, the status reports failure, the new API key stays stored, and the device id item is the new one only if it already was |
| ContentView.FirstSaveFailureSkipsSecond | LockApp/ContentView.swift:124-131 | when the API key save throws, the device id save is not tried: the store is what the first save left, the device id item is unchanged, the status reports failure and the push still happens |
| ContentView.SaveThenLoad | LockApp/ContentView.swift:123-151 | after "Credentials saved successfully", loading gives back the saved fields with `isSaving` false |
| ContentView.UnlockRejected | LockApp/ContentView.swift:160-168 | an unlock answered with anything but HTTP 200 shows "Unlock Failed: " with `failedToUnlock`'s description and changes nothing else |
| ContentView.StatusShown | LockApp/ContentView.swift:198-202 | a status answer with the documented body shows "Lock is Locked" or "Lock is Unlocked" according to its flag |

## Left out

- Networking: `URLSession`, `async`/`await` and the `MainActor` hops. Each lock command is given the `Delivery` for its request as an input; concurrent commands and their races are not modelled, and each action runs start to finish.
- `URL(string:)!` builds the status URL by interpolating the device id as it is; a device id that does not form a valid URL is not modelled (the model keeps the string concatenation).
- JSON byte parsing: a body is either "not JSON" or a parsed value. Numbers are `real`s; Foundation's bridging of a numeric 0 or 1 to `Bool` in `as? Bool` is not modelled (only JSON booleans cast to `Bool`). Keys are unique, as in a parsed dictionary.
- UTF-8: the conversions are an injected `Codec`; the round-trip lemmas assume only `Lawful`. The bytes of a real UTF-8 encoding are not modelled.
- Keychain.Read: returns nil exactly when no item is stored; the platform's other read failures (a locked device, missing entitlements), for which the source also returns nil, are not modelled. Refused update, add and delete calls are modelled as injected `Answer`s.
- The Security framework's query dictionaries and item classes, other than the (service, account) key they select.
- All `print` logging, `KeychainError.errorDescription` and the text of `localizedDescription`, which the controller takes as the injected `describe`.
- The watch session's activation and delegate callbacks; reachability is a Boolean input; the `sendMessage` error handler only logs.
- The SwiftUI `body` (including the "Edit Credentials" button that sets `isSaving`), previews, and the singleton `shared` instances.
- The `devices` published property, which no modelled code assigns; the build manifest; the app entry point; the notification names, which no modelled code posts.
- The watch app, including its credential request flow, which is not part of the core.
