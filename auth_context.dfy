/**
 * The authentication context shared by every page (frontend/src/auth/AuthContext.tsx): the token,
 * kept in step with the browser's `localStorage` under the key "token", and the avatar and voice the
 * user picked. `localStorage` is a field of the provider, a map from key to value; the avatar and
 * voice shapes are the ones the pages hand to `setAvatar` and `setVoice`.
 */
module Auth {
  import opened Wrappers
  import opened Text

  /** The avatar stored in the context: `id`, `name`, `image_url` and `avatar_type`. */
  datatype ChosenAvatar = ChosenAvatar(id: string, name: string, imageUrl: Option<string>, avatarType: Option<string>)

  datatype ChosenVoice = ChosenVoice(id: string, name: string)

  const TokenKey: string := "token"

  datatype AuthState = AuthState(
    token: Option<string>,
    storage: map<string, string>,
    avatar: Option<ChosenAvatar>,
    voice: Option<ChosenVoice>)

  /** The value `localStorage.getItem("token")` returns. */
  function StoredToken(storage: map<string, string>): (r: Option<string>)
    ensures r.Some? <==> TokenKey in storage
    ensures r.Some? ==> r.value == storage[TokenKey]
  {
    if TokenKey in storage then Some(storage[TokenKey]) else None
  }

  /**
   * The provider as first rendered over a storage that already holds `storage`: the token is the
   * stored one, or null when none is stored, and the avatar and voice start null.
   */
  function Mounted(storage: map<string, string>): (r: AuthState)
    ensures r.token.Some? <==> TokenKey in storage
    ensures TokenKey in storage ==> r.token == Some(storage[TokenKey])
    ensures r.storage == storage && r.avatar.None? && r.voice.None?
  {
    AuthState(StoredToken(storage), storage, None, None)
  }

  /** `setToken(t)`: the state takes `t` as it is; storage keeps `t` only when it is truthy. */
  function AfterSetToken(s: AuthState, t: Option<string>): (r: AuthState)
    ensures r.token == t && r.avatar == s.avatar && r.voice == s.voice
    ensures InSync(r)
  {
    var storage := if Truthy(t) then s.storage[TokenKey := t.value] else s.storage - {TokenKey};
    s.(token := t, storage := storage)
  }

  /** Storage agrees with the state: it holds the token exactly when the token is truthy. */
  predicate InSync(s: AuthState) {
    StoredToken(s.storage) == if Truthy(s.token) then s.token else None
  }

  /**
   * `setToken(t)` on storage: it holds `t` under "token" when `t` is non-empty and no "token" entry
   * otherwise; other keys are untouched.
   */
  lemma SetTokenEffect(s: AuthState, t: Option<string>)
    ensures Truthy(t) ==> TokenKey in AfterSetToken(s, t).storage && AfterSetToken(s, t).storage[TokenKey] == t.value
    ensures !Truthy(t) ==> TokenKey !in AfterSetToken(s, t).storage
    ensures forall k :: k != TokenKey ==>
      (k in AfterSetToken(s, t).storage <==> k in s.storage) &&
      (k in s.storage ==> AfterSetToken(s, t).storage[k] == s.storage[k])
  {
  }

  /**
   * After `setToken("")` the page still holds the token "" (falsy, so every page treats the user as
   * logged out), and a reload starts from a null token.
   */
  lemma EmptyTokenIsNotPersisted(s: AuthState)
    ensures AfterSetToken(s, Some("")).token == Some("")
    ensures Mounted(AfterSetToken(s, Some("")).storage).token.None?
  {
  }

  /** A reload after `setToken(t)` starts from `t` when it is non-empty and from null otherwise. */
  lemma ReloadAfterSetToken(s: AuthState, t: Option<string>)
    ensures Mounted(AfterSetToken(s, t).storage).token == if Truthy(t) then t else None
  {
  }

  /** The provider mounts in sync unless storage was left holding an empty token by someone else. */
  lemma MountedInSync(storage: map<string, string>)
    ensures InSync(Mounted(storage)) <==> !(TokenKey in storage && storage[TokenKey] == "")
  {
  }

  /** `AuthProvider`'s three state hooks and the `localStorage` they talk to. */
  class AuthProvider {
    var token: Option<string>
    var storage: map<string, string>
    var avatar: Option<ChosenAvatar>
    var voice: Option<ChosenVoice>

    function State(): AuthState
      reads this
    {
      AuthState(token, storage, avatar, voice)
    }

    /** `useState(() => localStorage.getItem("token"))` and the two null hooks. */
    constructor (initialStorage: map<string, string>)
      ensures State() == Mounted(initialStorage)
    {
      token := StoredToken(initialStorage);
      storage := initialStorage;
      avatar := None;
      voice := None;
    }

    method SetToken(t: Option<string>)
      modifies this
      ensures State() == AfterSetToken(old(State()), t)
    {
      token := t;
      if t.Some? && t.value != "" {
        storage := storage[TokenKey := t.value];
      } else {
        storage := storage - {TokenKey};
      }
    }

    method SetAvatar(a: Option<ChosenAvatar>)
      modifies this
      ensures State() == old(State()).(avatar := a)
    {
      avatar := a;
    }

    method SetVoice(v: Option<ChosenVoice>)
      modifies this
      ensures State() == old(State()).(voice := v)
    {
      voice := v;
    }
  }
}
