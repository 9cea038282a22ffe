/** The token store: two string slots, `access_token` and `refresh_token`, in
    the platform's key-value storage (secure storage on devices,
    `localStorage` on the web; both are one map here). Every storage call may
    fault; the caller's `fault` argument says whether this call does. */
module TokenService {
  import opened Common

  /** The two kinds of token the service keeps. */
  datatype TokenKind = Access | Refresh

  /** The storage key of each slot. */
  function StorageKey(kind: TokenKind): (key: string)
  {
    match kind
    case Access => "access_token"
    case Refresh => "refresh_token"
  }

  const SaveFailed: string := "Failed to save token"
  const RemoveFailed: string := "Failed to remove token"

  /** The two slots live under distinct keys, so no operation on one slot can
      reach the other. */
  lemma StorageKeysDistinct(k1: TokenKind, k2: TokenKind)
    ensures StorageKey(k1) == StorageKey(k2) <==> k1 == k2
  {
    if k1 != k2 {
      assert StorageKey(k1)[0] != StorageKey(k2)[0];
    }
  }

  /** The value stored under `key`, `null` when the key is absent. */
  function Lookup(slots: map<string, string>, key: string): (v: Option<string>)
    ensures v.Some? <==> key in slots
    ensures v.Some? ==> v.value == slots[key]
  {
    if key in slots then Some(slots[key]) else None
  }

  /** `has()`: the stored value is neither `null` nor the empty string. */
  predicate Present(v: Option<string>)
  {
    v != None && v != Some("")
  }

  lemma PresentIsTruthy(v: Option<string>)
    ensures Present(v) <==> TruthyText(v)
  {
  }

  class TokenStore {
    /** The platform storage: key to stored string. */
    var slots: map<string, string>

    constructor (initial: map<string, string>)
      ensures slots == initial
    {
      slots := initial;
    }

    /** `save(token)`: writes the slot; a storage fault leaves it as it was
        and rejects with "Failed to save token". */
    method Save(kind: TokenKind, token: string, fault: bool) returns (r: Outcome)
      modifies this
      ensures r == (if fault then Rejected(SaveFailed) else Resolved)
      ensures slots == if fault then old(slots) else old(slots)[StorageKey(kind) := token]
    {
      if fault {
        r := Rejected(SaveFailed);
      } else {
        slots := slots[StorageKey(kind) := token];
        r := Resolved;
      }
    }

    /** `get()`: never rejects; a storage fault reads as `null`. */
    method Get(kind: TokenKind, fault: bool) returns (v: Option<string>)
      ensures v == if fault then None else Lookup(slots, StorageKey(kind))
    {
      if fault {
        v := None;
      } else {
        v := Lookup(slots, StorageKey(kind));
      }
    }

    /** `remove()`: deletes the slot (absent already is fine); a storage
        fault leaves it and rejects with "Failed to remove token". */
    method Remove(kind: TokenKind, fault: bool) returns (r: Outcome)
      modifies this
      ensures r == (if fault then Rejected(RemoveFailed) else Resolved)
      ensures slots == if fault then old(slots) else old(slots) - {StorageKey(kind)}
    {
      if fault {
        r := Rejected(RemoveFailed);
      } else {
        slots := slots - {StorageKey(kind)};
        r := Resolved;
      }
    }

    /** `has()`: true iff `get()` yields a non-empty string. */
    method Has(kind: TokenKind, fault: bool) returns (b: bool)
      ensures b <==> !fault && StorageKey(kind) in slots && slots[StorageKey(kind)] != ""
    {
      var v := Get(kind, fault);
      b := v != None && v != Some("");
    }

    /** `saveTokens(access, refresh)`: both saves are started; each slot is
        written unless its own save faults, and the combined promise rejects
        when either save does. */
    method SaveTokens(access: string, refresh: string, accessFault: bool, refreshFault: bool)
      returns (r: Outcome)
      modifies this
      ensures r == (if accessFault || refreshFault then Rejected(SaveFailed) else Resolved)
      ensures !accessFault ==> Lookup(slots, StorageKey(Access)) == Some(access)
      ensures accessFault ==> Lookup(slots, StorageKey(Access)) == Lookup(old(slots), StorageKey(Access))
      ensures !refreshFault ==> Lookup(slots, StorageKey(Refresh)) == Some(refresh)
      ensures refreshFault ==> Lookup(slots, StorageKey(Refresh)) == Lookup(old(slots), StorageKey(Refresh))
      ensures forall k :: k != StorageKey(Access) && k != StorageKey(Refresh) ==>
                Lookup(slots, k) == Lookup(old(slots), k)
    {
      StorageKeysDistinct(Access, Refresh);
      var ra := Save(Access, access, accessFault);
      var rr := Save(Refresh, refresh, refreshFault);
      r := if ra.Rejected? then ra else rr;
    }

    /** `removeTokens()`: both removals are started; each slot is deleted
        unless its own removal faults. */
    method RemoveTokens(accessFault: bool, refreshFault: bool) returns (r: Outcome)
      modifies this
      ensures r == (if accessFault || refreshFault then Rejected(RemoveFailed) else Resolved)
      ensures !accessFault ==> Lookup(slots, StorageKey(Access)) == None
      ensures accessFault ==> Lookup(slots, StorageKey(Access)) == Lookup(old(slots), StorageKey(Access))
      ensures !refreshFault ==> Lookup(slots, StorageKey(Refresh)) == None
      ensures refreshFault ==> Lookup(slots, StorageKey(Refresh)) == Lookup(old(slots), StorageKey(Refresh))
      ensures forall k :: k != StorageKey(Access) && k != StorageKey(Refresh) ==>
                Lookup(slots, k) == Lookup(old(slots), k)
    {
      StorageKeysDistinct(Access, Refresh);
      var ra := Remove(Access, accessFault);
      var rr := Remove(Refresh, refreshFault);
      r := if ra.Rejected? then ra else rr;
    }
  }

  /** The round trips on one store: `save` then `get` returns the token,
      `remove` then `get` returns `null`, and the other slot is untouched. */
  method SaveGetRemoveScenario(initial: map<string, string>, kind: TokenKind, token: string)
    returns (afterSave: Option<string>, other: Option<string>, afterRemove: Option<string>)
    ensures afterSave == Some(token)
    ensures other == Lookup(initial, StorageKey(if kind == Access then Refresh else Access))
    ensures afterRemove == None
  {
    var otherKind := if kind == Access then Refresh else Access;
    StorageKeysDistinct(kind, otherKind);
    var store := new TokenStore(initial);
    var _ := store.Save(kind, token, false);
    afterSave := store.Get(kind, false);
    other := store.Get(otherKind, false);
    var _ := store.Remove(kind, false);
    afterRemove := store.Get(kind, false);
  }
}
