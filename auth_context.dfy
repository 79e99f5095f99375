/** The authentication provider: the signed-in user, the loading flag, and
    the stored access token that `login`, `logout` and the user fetch write. */
module AuthProvider {
  import opened Common
  import opened LocalStorage

  type User = map<string, string>

  datatype AuthView = AuthView(storage: Store, currentUser: Option<User>, loading: bool)

  function Initial(storage: Store): (v: AuthView)
    ensures v.currentUser == None && v.loading
  {
    AuthView(storage, None, true)
  }

  /** `fetchCurrentUser`: the view afterwards and the token sent, if a request
      was made. A failure forgets the access token but keeps the refresh token
      and the user already shown. */
  function FetchCurrentUserStep(v: AuthView, outcome: HttpOutcome<User>): (r: (AuthView, Option<string>))
    ensures !r.0.loading
    ensures r.1.Some? <==> HasToken(v.storage, AccessKey)
    ensures r.1.Some? ==> r.1.value == v.storage[AccessKey]
    ensures !HasToken(v.storage, AccessKey) ==> r.0 == v.(loading := false)
    ensures HasToken(v.storage, AccessKey) && outcome.Success? ==>
      r.0 == v.(currentUser := Some(outcome.data), loading := false)
    ensures HasToken(v.storage, AccessKey) && !outcome.Success? ==>
      r.0 == v.(storage := RemoveItem(v.storage, AccessKey), loading := false)
    ensures RefreshKey in v.storage ==> RefreshKey in r.0.storage && r.0.storage[RefreshKey] == v.storage[RefreshKey]
  {
    if !HasToken(v.storage, AccessKey) then (v.(loading := false), None)
    else if outcome.Success? then (v.(currentUser := Some(outcome.data), loading := false), Some(v.storage[AccessKey]))
    else (v.(storage := RemoveItem(v.storage, AccessKey), loading := false), Some(v.storage[AccessKey]))
  }

  /** `login(token)`: store the token, then fetch the user with it. */
  function LoginStep(v: AuthView, token: string, outcome: HttpOutcome<User>): (r: (AuthView, Option<string>))
    ensures token != "" ==> r.1 == Some(token)
    ensures token != "" && outcome.Success? ==> r.0.currentUser == Some(outcome.data) && r.0.storage == SetItem(v.storage, AccessKey, token)
    ensures token == "" ==> r.1 == None && r.0 == v.(storage := SetItem(v.storage, AccessKey, token), loading := false)
  {
    FetchCurrentUserStep(v.(storage := SetItem(v.storage, AccessKey, token)), outcome)
  }

  /** `logout`: forget the access token and the user. */
  function LogoutStep(v: AuthView): (r: AuthView)
    ensures r.currentUser == None && AccessKey !in r.storage && r.loading == v.loading
    ensures r.storage == RemoveItem(v.storage, AccessKey)
  {
    v.(storage := RemoveItem(v.storage, AccessKey), currentUser := None)
  }

  /** Logging out twice is logging out once, and a user fetch after a logout
      makes no request. */
  lemma LogoutIdempotent(v: AuthView, outcome: HttpOutcome<User>)
    ensures LogoutStep(LogoutStep(v)) == LogoutStep(v)
    ensures FetchCurrentUserStep(LogoutStep(v), outcome) == (LogoutStep(v).(loading := false), None)
  {
    assert RemoveItem(RemoveItem(v.storage, AccessKey), AccessKey) == RemoveItem(v.storage, AccessKey);
  }

  class Auth {
    var storage: Store
    var currentUser: Option<User>
    var loading: bool

    function State(): AuthView
      reads this
    {
      AuthView(storage, currentUser, loading)
    }

    constructor(storage: Store)
      ensures State() == Initial(storage)
    {
      this.storage := storage;
      currentUser := None;
      loading := true;
    }

    method FetchCurrentUser(outcome: HttpOutcome<User>) returns (sent: Option<string>)
      modifies this
      ensures (State(), sent) == FetchCurrentUserStep(old(State()), outcome)
    {
      if !HasToken(storage, AccessKey) {
        loading := false;
        return None;
      }
      sent := Some(storage[AccessKey]);
      if outcome.Success? {
        currentUser := Some(outcome.data);
      } else {
        storage := RemoveItem(storage, AccessKey);
      }
      loading := false;
    }

    method Login(token: string, outcome: HttpOutcome<User>) returns (sent: Option<string>)
      modifies this
      ensures (State(), sent) == LoginStep(old(State()), token, outcome)
    {
      storage := SetItem(storage, AccessKey, token);
      sent := FetchCurrentUser(outcome);
    }

    method Logout()
      modifies this
      ensures State() == LogoutStep(old(State()))
    {
      storage := RemoveItem(storage, AccessKey);
      currentUser := None;
    }
  }
}
