/** The password gate (src/stores/auth.store.ts). Local storage and session
    storage are the maps `local` and `session`; the browser's `btoa`, which
    the store uses to encode the password, is the store's `encode` function,
    required only to be injective and to keep non-empty strings non-empty. */
module AuthStores {
  import opened Types

  /** Local storage key of the encoded password. */
  const STORAGE_KEY := "app_password"
  /** Session storage key of the login flag. */
  const AUTH_SESSION_KEY := "is_authenticated"
  /** The shortest password the store accepts. */
  const MIN_PASSWORD_LENGTH := 4

  /** What the model needs of `btoa`: different passwords have different
      encodings, and a non-empty password has a non-empty one. */
  ghost predicate FaithfulEncoding(encode: string -> string)
  {
    (forall a, b :: encode(a) == encode(b) ==> a == b) &&
    (forall a :: a != "" ==> encode(a) != "")
  }

  /** The key is present with a non-empty value (what `!!getItem(key)` tests). */
  predicate Truthy(m: map<string, string>, key: string)
  {
    key in m && m[key] != ""
  }

  /** A password `setPassword` and `resetPassword` accept: not empty and
      at least four characters long. */
  predicate Acceptable(password: string)
  {
    password != "" && |password| >= MIN_PASSWORD_LENGTH
  }

  /** The stored encoding matches this password. */
  predicate Matches(encode: string -> string, local: map<string, string>, password: string)
  {
    Truthy(local, STORAGE_KEY) && encode(password) == local[STORAGE_KEY]
  }

  /** With an injective encoding, at most one password matches. */
  lemma MatchUnique(encode: string -> string, local: map<string, string>, p: string, q: string)
    requires FaithfulEncoding(encode)
    requires Matches(encode, local, p) && Matches(encode, local, q)
    ensures p == q
  {
  }

  class AuthStore {
    const encode: string -> string
    var isAuthenticated: bool
    var hasPassword: bool
    var local: map<string, string>
    var session: map<string, string>

    constructor (encode: string -> string, local: map<string, string>, session: map<string, string>)
      ensures this.encode == encode && this.local == local && this.session == session
      ensures !isAuthenticated && !hasPassword
    {
      this.encode := encode;
      this.local := local;
      this.session := session;
      isAuthenticated := false;
      hasPassword := false;
    }

    /** `init`: a password exists iff one is stored; the user is logged in
        iff the session flag reads "true". */
    method Init()
      modifies this
      ensures hasPassword == Truthy(local, STORAGE_KEY)
      ensures isAuthenticated == (AUTH_SESSION_KEY in session && session[AUTH_SESSION_KEY] == "true")
      ensures local == old(local) && session == old(session)
    {
      hasPassword := STORAGE_KEY in local && local[STORAGE_KEY] != "";
      isAuthenticated := AUTH_SESSION_KEY in session && session[AUTH_SESSION_KEY] == "true";
    }

    /** `setPassword`: a short or empty password is refused and nothing
        changes; otherwise its encoding is stored and the user is logged in. */
    method SetPassword(password: string) returns (ok: bool)
      modifies this
      ensures ok == Acceptable(password)
      ensures !ok ==> local == old(local) && session == old(session) &&
                      isAuthenticated == old(isAuthenticated) && hasPassword == old(hasPassword)
      ensures ok ==> local == old(local)[STORAGE_KEY := encode(password)] &&
                     session == old(session)[AUTH_SESSION_KEY := "true"] &&
                     hasPassword && isAuthenticated
    {
      if password == "" || |password| < MIN_PASSWORD_LENGTH {
        return false;
      }
      var encrypted := encode(password);
      local := local[STORAGE_KEY := encrypted];
      hasPassword := true;
      isAuthenticated := true;
      session := session[AUTH_SESSION_KEY := "true"];
      return true;
    }

    /** `verifyPassword`: succeeds iff a password is stored and this one's
        encoding equals it; only success logs in, and failure does not log out. */
    method VerifyPassword(password: string) returns (ok: bool)
      modifies this
      ensures ok == Matches(encode, old(local), password)
      ensures ok ==> isAuthenticated && session == old(session)[AUTH_SESSION_KEY := "true"]
      ensures !ok ==> isAuthenticated == old(isAuthenticated) && session == old(session)
      ensures local == old(local) && hasPassword == old(hasPassword)
    {
      if STORAGE_KEY !in local || local[STORAGE_KEY] == "" {
        return false;
      }
      var storedPassword := local[STORAGE_KEY];
      var encrypted := encode(password);
      ok := encrypted == storedPassword;
      if ok {
        isAuthenticated := true;
        session := session[AUTH_SESSION_KEY := "true"];
      }
    }

    /** `logout`: logged out and the session flag removed; the stored
        password stays. */
    method Logout()
      modifies this
      ensures !isAuthenticated && session == old(session) - {AUTH_SESSION_KEY}
      ensures local == old(local) && hasPassword == old(hasPassword)
    {
      isAuthenticated := false;
      session := session - {AUTH_SESSION_KEY};
    }

    /** `resetPassword`: the stored encoding is replaced only when the user
        is logged in, a password is stored, the old one matches it and the
        new one is acceptable; the login state never changes. */
    method ResetPassword(oldPassword: string, newPassword: string) returns (ok: bool)
      modifies this
      ensures ok == (old(isAuthenticated) && Matches(encode, old(local), oldPassword) && Acceptable(newPassword))
      ensures ok ==> local == old(local)[STORAGE_KEY := encode(newPassword)]
      ensures !ok ==> local == old(local)
      ensures isAuthenticated == old(isAuthenticated) && hasPassword == old(hasPassword) && session == old(session)
    {
      if !isAuthenticated {
        return false;
      }
      if STORAGE_KEY !in local || local[STORAGE_KEY] == "" {
        return false;
      }
      var storedPassword := local[STORAGE_KEY];
      var oldEncrypted := encode(oldPassword);
      if oldEncrypted != storedPassword {
        return false;
      }
      if newPassword == "" || |newPassword| < MIN_PASSWORD_LENGTH {
        return false;
      }
      local := local[STORAGE_KEY := encode(newPassword)];
      return true;
    }

    /** `clearAll`: the stored password and the session flag removed, and
        neither a password nor a login remains. */
    method ClearAll()
      modifies this
      ensures local == old(local) - {STORAGE_KEY} && session == old(session) - {AUTH_SESSION_KEY}
      ensures !hasPassword && !isAuthenticated
    {
      local := local - {STORAGE_KEY};
      session := session - {AUTH_SESSION_KEY};
      hasPassword := false;
      isAuthenticated := false;
    }
  }

  /** After a password is set, exactly that password verifies. */
  method SetThenVerify(store: AuthStore, p: string, q: string) returns (set_ok: bool, verified: bool)
    requires FaithfulEncoding(store.encode)
    modifies store
    ensures set_ok == Acceptable(p)
    ensures set_ok ==> verified == (q == p) && store.isAuthenticated
  {
    set_ok := store.SetPassword(p);
    verified := store.VerifyPassword(q);
    if set_ok && verified {
      MatchUnique(store.encode, store.local, p, q);
    }
  }

  /** After a successful reset the new password verifies and any other,
      the old one included, does not. */
  method ResetThenVerify(store: AuthStore, oldPassword: string, newPassword: string, q: string)
    returns (reset_ok: bool, verified: bool)
    requires FaithfulEncoding(store.encode)
    requires store.isAuthenticated && Matches(store.encode, store.local, oldPassword)
    modifies store
    ensures reset_ok == Acceptable(newPassword)
    ensures reset_ok ==> verified == (q == newPassword)
    ensures !reset_ok ==> verified == (q == oldPassword)
  {
    reset_ok := store.ResetPassword(oldPassword, newPassword);
    verified := store.VerifyPassword(q);
  }

  /** A logout followed by a re-initialisation leaves the user logged out
      while the stored password still counts. */
  method LogoutThenInit(store: AuthStore) returns (hadPassword: bool)
    modifies store
    ensures hadPassword == Truthy(old(store.local), STORAGE_KEY)
    ensures !store.isAuthenticated && store.hasPassword == hadPassword
  {
    hadPassword := Truthy(store.local, STORAGE_KEY);
    store.Logout();
    store.Init();
  }

  /** After `clearAll` a re-initialisation finds neither a password nor a
      login, and no password verifies. */
  method ClearThenInit(store: AuthStore, q: string) returns (verified: bool)
    modifies store
    ensures !store.hasPassword && !store.isAuthenticated && !verified
  {
    store.ClearAll();
    store.Init();
    verified := store.VerifyPassword(q);
  }
}
