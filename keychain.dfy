/**
  The credential store (`KeychainHelper`) over the platform's generic
  password items. The platform store is a map from (service, account) to the
  stored bytes; its primitives (`SecItemUpdate`, `SecItemAdd`,
  `SecItemDelete`, `SecItemCopyMatching`) are methods of `Store` whose
  failures for reasons outside this model are injected as `Answer`s.
 */
module Keychain {
  import opened Wrappers
  import opened Utf8

  const errSecSuccess: int := 0
  const errSecItemNotFound: int := -25300
  const errSecDuplicateItem: int := -25299
  const errSecInteractionNotAllowed: int := -25308

  datatype ItemKey = ItemKey(service: string, account: string)

  /** A failure status the platform may report for a reason this model does
      not track (a locked device, a missing entitlement, ...). "Not found" and
      "duplicate" are not among them: the store's contents decide those. */
  type PlatformFailure = s: int | s != errSecSuccess && s != errSecItemNotFound && s != errSecDuplicateItem
    witness errSecInteractionNotAllowed

  /** How the platform answers one primitive call whose item exists (or, for
      an add, does not): it proceeds, or refuses with a failure status. */
  datatype Answer = Proceed | Refuse(status: PlatformFailure)

  datatype KeychainError =
    | SaveFailed(status: int, message: string)
    | DeleteFailed(status: int, message: string)
    | ItemNotFound
    | DuplicateItem
    | UnexpectedError(status: int)
  {
    /** The status an error stands for. */
    function Status(): int
    {
      match this
      case SaveFailed(s, _) => s
      case DeleteFailed(s, _) => s
      case ItemNotFound => errSecItemNotFound
      case DuplicateItem => errSecDuplicateItem
      case UnexpectedError(s) => s
    }
  }

  /** `KeychainError(status:)`: the two statuses with a case of their own get
      it, every other status is kept in `unexpectedError`, so the status can
      always be recovered from the error. */
  function FromStatus(status: int): (e: KeychainError)
    ensures e.Status() == status
    ensures e.ItemNotFound? <==> status == errSecItemNotFound
    ensures e.DuplicateItem? <==> status == errSecDuplicateItem
    ensures e.UnexpectedError? <==> status != errSecItemNotFound && status != errSecDuplicateItem
  {
    if status == errSecItemNotFound then ItemNotFound
    else if status == errSecDuplicateItem then DuplicateItem
    else UnexpectedError(status)
  }

  /** The status a primitive reports when its item is in the state it needs. */
  function AnswerStatus(a: Answer): (s: int)
    ensures s == errSecSuccess <==> a.Proceed?
  {
    if a.Proceed? then errSecSuccess else a.status
  }

  class Store {
    var items: map<ItemKey, Bytes>

    constructor ()
      ensures items == map[]
    {
      items := map[];
    }

    /** `SecItemCopyMatching` for one item, returning its data. */
    function CopyMatching(key: ItemKey): (r: Option<Bytes>)
      reads this
      ensures r.Some? <==> key in items
      ensures r.Some? ==> r.value == items[key]
    {
      if key in items then Some(items[key]) else None
    }

    /** `SecItemUpdate`: not found for an absent item, otherwise the answer. */
    method ItemUpdate(key: ItemKey, data: Bytes, answer: Answer) returns (status: int)
      modifies this
      ensures status == if key in old(items) then AnswerStatus(answer) else errSecItemNotFound
      ensures items == if key in old(items) && answer.Proceed? then old(items)[key := data] else old(items)
    {
      if key !in items {
        status := errSecItemNotFound;
      } else {
        status := AnswerStatus(answer);
        if answer.Proceed? { items := items[key := data]; }
      }
    }

    /** `SecItemAdd`: a duplicate for a present item, otherwise the answer. */
    method ItemAdd(key: ItemKey, data: Bytes, answer: Answer) returns (status: int)
      modifies this
      ensures status == if key in old(items) then errSecDuplicateItem else AnswerStatus(answer)
      ensures items == if key !in old(items) && answer.Proceed? then old(items)[key := data] else old(items)
    {
      if key in items {
        status := errSecDuplicateItem;
      } else {
        status := AnswerStatus(answer);
        if answer.Proceed? { items := items[key := data]; }
      }
    }

    /** `SecItemDelete`: not found for an absent item, otherwise the answer. */
    method ItemDelete(key: ItemKey, answer: Answer) returns (status: int)
      modifies this
      ensures status == if key in old(items) then AnswerStatus(answer) else errSecItemNotFound
      ensures items == if key in old(items) && answer.Proceed? then old(items) - {key} else old(items)
    {
      if key !in items {
        status := errSecItemNotFound;
      } else {
        status := AnswerStatus(answer);
        if answer.Proceed? { items := items - {key}; }
      }
    }
  }

  // ------------------------------------------------ the helper, as functions

  /** The platform's answers to the primitives one `save` may call. */
  datatype SaveAnswers = SaveAnswers(update: Answer, delete: Answer, add: Answer)

  /** The store after an operation, and what the operation threw. */
  datatype Effect = Effect(items: map<ItemKey, Bytes>, outcome: Outcome<KeychainError>)

  function Lookup(items: map<ItemKey, Bytes>, key: ItemKey): Option<Bytes>
  {
    if key in items then Some(items[key]) else None
  }

  /** What `save(data, service:, account:, updateIfExists:)` does to the store. */
  function SaveEffect(items: map<ItemKey, Bytes>, key: ItemKey, data: Bytes, updateIfExists: bool,
                      answers: SaveAnswers): Effect
  {
    if updateIfExists && key in items then
      if answers.update.Proceed? then Effect(items[key := data], Pass)
      else Effect(items, Fail(SaveFailed(answers.update.status, "Update operation failed")))
    else
      var afterDelete := if key in items && answers.delete.Proceed? then items - {key} else items;
      var status := if key in afterDelete then errSecDuplicateItem else AnswerStatus(answers.add);
      if status == errSecSuccess then Effect(afterDelete[key := data], Pass)
      else Effect(afterDelete, Fail(SaveFailed(status, "Save operation failed")))
  }

  /** What `delete(service:, account:)` does to the store. */
  function DeleteEffect(items: map<ItemKey, Bytes>, key: ItemKey, answer: Answer): Effect
  {
    if key in items && answer.Refuse? then
      Effect(items, Fail(DeleteFailed(answer.status, "Delete operation failed")))
    else
      Effect(items - {key}, Pass)
  }

  /** `saveString`: a string that cannot be encoded throws before the store
      is touched; otherwise it is saved with `updateIfExists` false. */
  function SaveStringEffect(items: map<ItemKey, Bytes>, codec: Codec, s: string, key: ItemKey,
                            answers: SaveAnswers): Effect
  {
    match codec.encode(s)
    case None => Effect(items, Fail(SaveFailed(-1, "Failed to convert string to data")))
    case Some(data) => SaveEffect(items, key, data, false, answers)
  }

  function ReadStringIn(items: map<ItemKey, Bytes>, codec: Codec, key: ItemKey): Option<string>
  {
    match Lookup(items, key)
    case None => None
    case Some(data) => codec.decode(data)
  }

  // ------------------------------------------- the helper, over the store

  /** `read(service:, account:)` */
  function Read(store: Store, service: string, account: string): (r: Option<Bytes>)
    reads store
    ensures r == Lookup(store.items, ItemKey(service, account))
  {
    store.CopyMatching(ItemKey(service, account))
  }

  /** `readString(service:, account:)`: nil when nothing is stored or the
      stored bytes do not decode. */
  function ReadString(store: Store, codec: Codec, service: string, account: string): (r: Option<string>)
    reads store
    ensures ItemKey(service, account) !in store.items ==> r.None?
    ensures r == ReadStringIn(store.items, codec, ItemKey(service, account))
  {
    match Read(store, service, account)
    case None => None
    case Some(data) => codec.decode(data)
  }

  method Save(store: Store, data: Bytes, service: string, account: string, updateIfExists: bool,
              answers: SaveAnswers) returns (r: Outcome<KeychainError>)
    modifies store
    ensures Effect(store.items, r) == SaveEffect(old(store.items), ItemKey(service, account), data, updateIfExists, answers)
  {
    var key := ItemKey(service, account);
    if updateIfExists && Read(store, service, account).Some? {
      var status := store.ItemUpdate(key, data, answers.update);
      if status != errSecSuccess {
        return Fail(SaveFailed(status, "Update operation failed"));
      }
      r := Pass;
    } else {
      var _ := store.ItemDelete(key, answers.delete);
      var status := store.ItemAdd(key, data, answers.add);
      if status != errSecSuccess {
        return Fail(SaveFailed(status, "Save operation failed"));
      }
      r := Pass;
    }
  }

  method Delete(store: Store, service: string, account: string, answer: Answer) returns (r: Outcome<KeychainError>)
    modifies store
    ensures Effect(store.items, r) == DeleteEffect(old(store.items), ItemKey(service, account), answer)
  {
    var status := store.ItemDelete(ItemKey(service, account), answer);
    if status != errSecSuccess && status != errSecItemNotFound {
      return Fail(DeleteFailed(status, "Delete operation failed"));
    }
    r := Pass;
  }

  method SaveString(store: Store, codec: Codec, s: string, service: string, account: string,
                    answers: SaveAnswers) returns (r: Outcome<KeychainError>)
    modifies store
    ensures Effect(store.items, r) == SaveStringEffect(old(store.items), codec, s, ItemKey(service, account), answers)
  {
    var data := codec.encode(s);
    if data.None? {
      return Fail(SaveFailed(-1, "Failed to convert string to data"));
    }
    r := Save(store, data.value, service, account, false, answers);
  }

  /** `areCredentialsSet(service:, accounts:)`: reads the accounts in order
      and stops at the first one that has no item; `probes` counts the reads. */
  method AreCredentialsSet(store: Store, service: string, accounts: seq<string>) returns (r: bool, ghost probes: nat)
    ensures r <==> forall i :: 0 <= i < |accounts| ==> ItemKey(service, accounts[i]) in store.items
    ensures r ==> probes == |accounts|
    ensures !r ==> 0 < probes <= |accounts| && ItemKey(service, accounts[probes - 1]) !in store.items
                   && forall i :: 0 <= i < probes - 1 ==> ItemKey(service, accounts[i]) in store.items
  {
    probes := 0;
    for n := 0 to |accounts|
      invariant probes == n
      invariant forall i :: 0 <= i < n ==> ItemKey(service, accounts[i]) in store.items
    {
      probes := probes + 1;
      if Read(store, service, accounts[n]).None? {
        return false, probes;
      }
    }
    r := true;
  }

  // ---------------------------------------------------------------- lemmas

  /** After a successful save the item holds exactly the saved data, in the
      update branch and in the delete-then-add branch alike. */
  lemma SaveThenRead(items: map<ItemKey, Bytes>, key: ItemKey, data: Bytes, updateIfExists: bool,
                     answers: SaveAnswers)
    ensures var e := SaveEffect(items, key, data, updateIfExists, answers);
            e.outcome.Pass? ==> Lookup(e.items, key) == Some(data)
  {
  }

  /** Save and delete leave every other item as it was. */
  lemma OtherItemsUntouched(items: map<ItemKey, Bytes>, key: ItemKey, other: ItemKey, data: Bytes,
                            updateIfExists: bool, answers: SaveAnswers, answer: Answer)
    requires other != key
    ensures Lookup(SaveEffect(items, key, data, updateIfExists, answers).items, other) == Lookup(items, other)
    ensures Lookup(DeleteEffect(items, key, answer).items, other) == Lookup(items, other)
  {
  }

  /** Without `updateIfExists` the old item is deleted first, so, unless the
      platform refuses that delete, the add cannot meet a duplicate: the save
      succeeds exactly when the add is allowed. */
  lemma OverwriteNeverDuplicate(items: map<ItemKey, Bytes>, key: ItemKey, data: Bytes, answers: SaveAnswers)
    requires answers.delete.Proceed?
    ensures var e := SaveEffect(items, key, data, false, answers);
            && (e.outcome.Pass? <==> answers.add.Proceed?)
            && (e.outcome.Fail? ==> e.outcome.error == SaveFailed(answers.add.status, "Save operation failed"))
            && e.outcome != Fail(SaveFailed(errSecDuplicateItem, "Save operation failed"))
  {
  }

  /** A refused delete in the delete-then-add branch leaves the old item in
      place, and the add then fails as a duplicate. */
  lemma RefusedDeleteIsDuplicate(items: map<ItemKey, Bytes>, key: ItemKey, data: Bytes, answers: SaveAnswers)
    requires key in items && answers.delete.Refuse?
    ensures SaveEffect(items, key, data, false, answers)
            == Effect(items, Fail(SaveFailed(errSecDuplicateItem, "Save operation failed")))
  {
  }

  /** Delete-then-add is not atomic: when the add is refused after the
      delete went through, the save fails and the old item is gone. */
  lemma FailedOverwriteLosesItem(items: map<ItemKey, Bytes>, key: ItemKey, data: Bytes, answers: SaveAnswers)
    requires key in items && answers.delete.Proceed? && answers.add.Refuse?
    ensures var e := SaveEffect(items, key, data, false, answers);
            e.outcome.Fail? && Lookup(e.items, key).None?
  {
  }

  /** The update branch: an existing item is changed in place, and a refusal
      throws with the update message and changes nothing. */
  lemma UpdateInPlace(items: map<ItemKey, Bytes>, key: ItemKey, data: Bytes, answers: SaveAnswers)
    requires key in items
    ensures var e := SaveEffect(items, key, data, true, answers);
            if answers.update.Proceed? then e == Effect(items[key := data], Pass)
            else e == Effect(items, Fail(SaveFailed(answers.update.status, "Update operation failed")))
  {
  }

  /** A successful delete, including one of an absent item, leaves no item;
      only a refusal of a present item throws. */
  lemma DeleteThenRead(items: map<ItemKey, Bytes>, key: ItemKey, answer: Answer)
    ensures var e := DeleteEffect(items, key, answer);
            && (e.outcome.Pass? <==> key !in items || answer.Proceed?)
            && (e.outcome.Pass? ==> Lookup(e.items, key).None?)
            && (e.outcome.Fail? ==> e.items == items && e.outcome.error.DeleteFailed?
                                    && e.outcome.error.status == answer.status)
  {
  }

  /** A string saved with `saveString` reads back with `readString`. */
  lemma SaveStringThenReadString(items: map<ItemKey, Bytes>, codec: Codec, s: string, key: ItemKey,
                                 answers: SaveAnswers)
    requires Lawful(codec)
    ensures var e := SaveStringEffect(items, codec, s, key, answers);
            e.outcome.Pass? ==> ReadStringIn(e.items, codec, key) == Some(s)
  {
  }
}
