/** The profile page: loading the signed-in user's profile with one
    refresh-and-retry after a 401, and merging a profile update. */
module ProfilePage {
  import opened Common
  import opened LocalStorage
  import opened TokenRefresh

  /** A user record as a map from field name to value. */
  type UserData = map<string, string>

  const LoadFailed: string := "Failed to load profile"
  const RetryFailed: string := "Failed to fetch profile after refresh"
  const UpdateFailed: string := "Failed to update profile"

  function DetailOf<T>(o: HttpOutcome<T>): Option<string> {
    if o.HttpError? then o.message else None
  }

  datatype ProfileView = ProfileView(
    storage: Store,
    userData: Option<UserData>,
    loading: bool,
    error: Option<string>,
    atLogin: bool)

  function Initial(storage: Store): (v: ProfileView)
    ensures v.userData == None && v.loading && v.error == None && !v.atLogin
  {
    ProfileView(storage, None, true, None, false)
  }

  /** `fetchProfile`: the view afterwards and the access tokens sent. Unlike
      the fitness-plan page, a successful retry leaves an earlier error
      standing and a failed retry stays on the page. */
  function FetchProfileStep(v: ProfileView, first: HttpOutcome<UserData>, answer: RefreshAnswer, retry: HttpOutcome<UserData>): (r: (ProfileView, seq<string>))
    ensures !r.0.loading && |r.1| <= 2
    ensures !HasToken(v.storage, AccessKey) ==> r.1 == [] && r.0 == v.(error := Some(LoadFailed), loading := false)
    ensures HasToken(v.storage, AccessKey) ==> |r.1| >= 1 && r.1[0] == v.storage[AccessKey]
    ensures HasToken(v.storage, AccessKey) && first.Success? ==>
      r.0 == v.(userData := Some(first.data), error := None, loading := false)
    ensures HasToken(v.storage, AccessKey) && !first.Success? && !first.IsUnauthorized() ==>
      r.0 == v.(error := Some(OrElse(DetailOf(first), LoadFailed)), loading := false)
    ensures |r.1| == 2 <==>
      HasToken(v.storage, AccessKey) && first.IsUnauthorized() && HasToken(v.storage, RefreshKey)
      && answer.Refreshed? && answer.access != ""
    ensures |r.1| == 2 ==>
      && r.1[1] == answer.access && r.0.storage == SetItem(v.storage, AccessKey, answer.access) && r.0.atLogin == v.atLogin
      && (retry.Success? ==> r.0.userData == Some(retry.data) && r.0.error == v.error)
      && (!retry.Success? ==> r.0.userData == v.userData && r.0.error == Some(RetryFailed))
    ensures r.0.atLogin && !v.atLogin ==>
      && first.IsUnauthorized() && r.0.userData == v.userData
      && AccessKey !in r.0.storage && RefreshKey !in r.0.storage
  {
    if !HasToken(v.storage, AccessKey) then (v.(error := Some(LoadFailed), loading := false), [])
    else
      var token := v.storage[AccessKey];
      if first.Success? then (v.(userData := Some(first.data), error := None, loading := false), [token])
      else if first.IsUnauthorized() then
        var refresh := RefreshToken(v.storage, answer);
        var afterRefresh := v.(storage := refresh.storage, atLogin := v.atLogin || refresh.toLogin, loading := false);
        if refresh.token.Some? && refresh.token.value != "" then
          var newToken := refresh.token.value;
          if retry.Success? then (afterRefresh.(userData := Some(retry.data)), [token, newToken])
          else (afterRefresh.(error := Some(RetryFailed)), [token, newToken])
        else (afterRefresh, [token])
      else (v.(error := Some(OrElse(DetailOf(first), LoadFailed)), loading := false), [token])
  }

  /** `{ ...prev, ...response.data }`: the response's fields win, and spreading
      `null` adds nothing. */
  function MergeProfile(prev: Option<UserData>, update: UserData): (r: UserData)
    ensures r.Keys == update.Keys + (if prev.Some? then prev.value.Keys else {})
    ensures forall k :: k in update ==> r[k] == update[k]
    ensures prev.Some? ==> forall k :: k in prev.value && k !in update ==> r[k] == prev.value[k]
  {
    (if prev.Some? then prev.value else map[]) + update
  }

  /** Applying the same update twice is the same as once. */
  lemma MergeProfileIdempotent(prev: Option<UserData>, update: UserData)
    ensures MergeProfile(Some(MergeProfile(prev, update)), update) == MergeProfile(prev, update)
  {
  }

  /** The authorization header of the update request: the stored token, or
      the text `null` when none is stored. */
  function UpdateHeader(st: Store): (h: string)
    ensures AccessKey in st ==> h == "Bearer " + st[AccessKey]
    ensures AccessKey !in st ==> h == "Bearer null"
  {
    "Bearer " + (if AccessKey in st then st[AccessKey] else "null")
  }

  /** `handleUpdateProfile`: the view afterwards and what the call returns. */
  function UpdateProfileStep(v: ProfileView, outcome: HttpOutcome<UserData>): (r: (ProfileView, bool))
    ensures r.1 <==> outcome.Success?
    ensures outcome.Success? ==> r.0 == v.(userData := Some(MergeProfile(v.userData, outcome.data)), error := None)
    ensures !outcome.Success? ==> r.0 == v.(error := Some(OrElse(DetailOf(outcome), UpdateFailed)))
  {
    if outcome.Success? then (v.(userData := Some(MergeProfile(v.userData, outcome.data)), error := None), true)
    else (v.(error := Some(OrElse(DetailOf(outcome), UpdateFailed))), false)
  }

  class Profile {
    var storage: Store
    var userData: Option<UserData>
    var loading: bool
    var error: Option<string>
    var atLogin: bool

    function State(): ProfileView
      reads this
    {
      ProfileView(storage, userData, loading, error, atLogin)
    }

    constructor(storage: Store)
      ensures State() == Initial(storage)
    {
      this.storage := storage;
      userData := None;
      loading := true;
      error := None;
      atLogin := false;
    }

    method RefreshAccessToken(answer: RefreshAnswer) returns (token: Option<string>)
      modifies this
      ensures var r := RefreshToken(old(storage), answer);
              token == r.token && storage == r.storage && atLogin == (old(atLogin) || r.toLogin)
      ensures userData == old(userData) && error == old(error) && loading == old(loading)
    {
      if !HasToken(storage, RefreshKey) {
        storage := RemoveItem(RemoveItem(storage, AccessKey), RefreshKey);
        atLogin := true;
        return None;
      }
      match answer
      case Refreshed(access) =>
        storage := SetItem(storage, AccessKey, access);
        token := Some(access);
      case Rejected =>
        storage := RemoveItem(RemoveItem(storage, AccessKey), RefreshKey);
        atLogin := true;
        token := None;
    }

    method FetchProfile(first: HttpOutcome<UserData>, answer: RefreshAnswer, retry: HttpOutcome<UserData>) returns (sent: seq<string>)
      modifies this
      ensures var r := FetchProfileStep(old(State()), first, answer, retry);
              State() == r.0 && sent == r.1
    {
      sent := [];
      if !HasToken(storage, AccessKey) {
        error := Some(OrElse(None, LoadFailed));
      } else {
        sent := [storage[AccessKey]];
        if first.Success? {
          userData := Some(first.data);
          error := None;
        } else if first.IsUnauthorized() {
          var newToken := RefreshAccessToken(answer);
          if newToken.Some? && newToken.value != "" {
            sent := sent + [newToken.value];
            if retry.Success? {
              userData := Some(retry.data);
            } else {
              error := Some(RetryFailed);
            }
          }
        } else {
          error := Some(OrElse(DetailOf(first), LoadFailed));
        }
      }
      loading := false;
    }

    method HandleUpdateProfile(outcome: HttpOutcome<UserData>) returns (header: string, ok: bool)
      modifies this
      ensures var r := UpdateProfileStep(old(State()), outcome);
              State() == r.0 && ok == r.1
      ensures header == UpdateHeader(old(storage))
    {
      header := UpdateHeader(storage);
      if outcome.Success? {
        userData := Some(MergeProfile(userData, outcome.data));
        error := None;
        ok := true;
      } else {
        error := Some(OrElse(DetailOf(outcome), UpdateFailed));
        ok := false;
      }
    }
  }
}
