/**
 * The vendor session store: a vendor id and a bearer token, held in memory and
 * mirrored into the browser's string key-value storage so that a reload
 * restores them.
 */
module Auth {
  import opened Wrappers
  import opened JsString

  const TokenKey := "vendorToken"
  const VendorIdKey := "vendorId"

  /** `getItem`: the stored string, or null when the key is absent. */
  function Lookup(storage: map<string, string>, key: string): Option<string> {
    if key in storage then Some(storage[key]) else None
  }

  /** The in-memory session; `None` stands for the `null` initial state. */
  datatype Session = Session(vendorId: Option<string>, token: Option<string>)

  const NoSession := Session(None, None)

  /** The session never holds one field without the other. */
  predicate BothOrNeither(s: Session) {
    s.vendorId.Some? <==> s.token.Some?
  }

  /** Both stored values are present and non-empty. */
  predicate CanRestore(storage: map<string, string>) {
    Truthy(Lookup(storage, TokenKey)) && Truthy(Lookup(storage, VendorIdKey))
  }

  /**
   * The session the mount effect leaves, starting from the null initial state:
   * both stored values when both are truthy, and no session otherwise.
   */
  function Restored(storage: map<string, string>): (s: Session)
    ensures BothOrNeither(s)
    ensures s.vendorId.Some? <==> CanRestore(storage)
    ensures s.vendorId.Some? ==>
      Truthy(s.vendorId) && Truthy(s.token) &&
      s.vendorId == Lookup(storage, VendorIdKey) && s.token == Lookup(storage, TokenKey)
  {
    if CanRestore(storage) then Session(Lookup(storage, VendorIdKey), Lookup(storage, TokenKey)) else NoSession
  }

  /** The storage after `login`: the token under `vendorToken`, then the id under `vendorId`. */
  function LoginStorage(storage: map<string, string>, vendorId: string, token: string): map<string, string> {
    storage[TokenKey := token][VendorIdKey := vendorId]
  }

  /** The storage after `logout`: both keys removed. */
  function LogoutStorage(storage: map<string, string>): map<string, string> {
    storage - {TokenKey, VendorIdKey}
  }

  /** What a reload can see of a session: one holding an empty value reads back as no session. */
  function Normalized(s: Session): Session {
    if Truthy(s.vendorId) && Truthy(s.token) then s else NoSession
  }

  /** `login` writes exactly the two session keys and leaves every other entry as it was. */
  lemma LoginTouchesOnlySessionKeys(storage: map<string, string>, vendorId: string, token: string)
    ensures Lookup(LoginStorage(storage, vendorId, token), TokenKey) == Some(token)
    ensures Lookup(LoginStorage(storage, vendorId, token), VendorIdKey) == Some(vendorId)
    ensures forall k :: k != TokenKey && k != VendorIdKey ==>
      Lookup(LoginStorage(storage, vendorId, token), k) == Lookup(storage, k)
  {
  }

  /** `logout` removes exactly the two session keys and leaves every other entry as it was. */
  lemma LogoutTouchesOnlySessionKeys(storage: map<string, string>)
    ensures Lookup(LogoutStorage(storage), TokenKey) == None
    ensures Lookup(LogoutStorage(storage), VendorIdKey) == None
    ensures forall k :: k != TokenKey && k != VendorIdKey ==>
      Lookup(LogoutStorage(storage), k) == Lookup(storage, k)
  {
  }

  /**
   * Round trip: a reload after `login(v, t)` restores exactly `(v, t)` when
   * both are non-empty, and restores no session when either is empty.
   */
  lemma LoginRoundTrip(storage: map<string, string>, vendorId: string, token: string)
    ensures Restored(LoginStorage(storage, vendorId, token)) ==
      if vendorId != "" && token != "" then Session(Some(vendorId), Some(token)) else NoSession
  {
    LoginTouchesOnlySessionKeys(storage, vendorId, token);
  }

  /** A reload after `logout` restores no session, whatever else storage holds. */
  lemma LogoutRoundTrip(storage: map<string, string>)
    ensures Restored(LogoutStorage(storage)) == NoSession
  {
    LogoutTouchesOnlySessionKeys(storage);
  }

  /** The provider's state: the storage it mirrors into and the two session fields. */
  class SessionStore {
    var storage: map<string, string>
    var vendorId: Option<string>
    var token: Option<string>

    function Current(): Session
      reads this
    {
      Session(vendorId, token)
    }

    /**
     * Both-or-neither, and storage agrees with memory: a reload at this moment
     * would restore the current session (up to empty values).
     */
    ghost predicate Valid()
      reads this
    {
      BothOrNeither(Current()) && Restored(storage) == Normalized(Current())
    }

    /** Mounting the provider: null fields, then the restore effect. */
    constructor (stored: map<string, string>)
      ensures Valid()
      ensures storage == stored && Current() == Restored(stored)
    {
      storage := stored;
      vendorId := None;
      token := None;
      new;
      Restore();
    }

    /** The mount effect: set both fields from storage only when both stored values are truthy. */
    method Restore()
      modifies this
      ensures storage == old(storage)
      ensures Current() == if CanRestore(storage) then Restored(storage) else old(Current())
      ensures old(Valid()) ==> Valid() && Current() == old(Current())
    {
      var storedToken := Lookup(storage, TokenKey);
      var storedVendorId := Lookup(storage, VendorIdKey);
      if Truthy(storedToken) && Truthy(storedVendorId) {
        token := storedToken;
        vendorId := storedVendorId;
      }
    }

    /** `login`: write both keys, then set both fields to exactly the given values. */
    method Login(newVendorId: string, newToken: string)
      modifies this
      ensures storage == LoginStorage(old(storage), newVendorId, newToken)
      ensures Current() == Session(Some(newVendorId), Some(newToken))
      ensures Valid()
    {
      storage := storage[TokenKey := newToken];
      storage := storage[VendorIdKey := newVendorId];
      token := Some(newToken);
      vendorId := Some(newVendorId);
      LoginRoundTrip(old(storage), newVendorId, newToken);
    }

    /** `logout`: remove both keys, then clear both fields. */
    method Logout()
      modifies this
      ensures storage == LogoutStorage(old(storage))
      ensures Current() == NoSession
      ensures Valid()
    {
      storage := storage - {TokenKey};
      storage := storage - {VendorIdKey};
      token := None;
      vendorId := None;
      assert storage == LogoutStorage(old(storage));
      LogoutRoundTrip(old(storage));
    }
  }

  /**
   * Log in, then reload: the new provider restores exactly the logged-in
   * session when both values are non-empty, and no session otherwise; other
   * storage entries survive.
   */
  method ReloadAfterLogin(stored: map<string, string>, newVendorId: string, newToken: string)
    returns (restored: Session, storage: map<string, string>)
    ensures restored == if newVendorId != "" && newToken != "" then Session(Some(newVendorId), Some(newToken)) else NoSession
    ensures forall k :: k != TokenKey && k != VendorIdKey ==> Lookup(storage, k) == Lookup(stored, k)
  {
    var store := new SessionStore(stored);
    store.Login(newVendorId, newToken);
    var reloaded := new SessionStore(store.storage);
    restored, storage := reloaded.Current(), reloaded.storage;
    LoginRoundTrip(stored, newVendorId, newToken);
    LoginTouchesOnlySessionKeys(stored, newVendorId, newToken);
  }

  /** Log out, then reload: the new provider restores no session, whatever was logged in before. */
  method ReloadAfterLogout(stored: map<string, string>) returns (before: Session, restored: Session)
    ensures restored == NoSession
    ensures before == Restored(stored)
  {
    var store := new SessionStore(stored);
    before := store.Current();
    store.Logout();
    var reloaded := new SessionStore(store.storage);
    restored := reloaded.Current();
  }
}
