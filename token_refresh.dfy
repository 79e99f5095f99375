/** The access-token refresh both the fitness-plan page and the profile page
    run after a 401: trade the stored refresh token for a new access token,
    or clear both tokens and go to the login page. */
module TokenRefresh {
  import opened Common
  import opened LocalStorage

  /** What the refresh endpoint does with the refresh token. */
  datatype RefreshAnswer = Refreshed(access: string) | Rejected

  /** The storage afterwards, the token handed back (`null` as `None`),
      whether a request was made, and whether the page went to `/login`. */
  datatype Refresh = Refresh(storage: Store, token: Option<string>, requested: bool, toLogin: bool)

  function RefreshToken(st: Store, answer: RefreshAnswer): (r: Refresh)
    ensures r.requested <==> HasToken(st, RefreshKey)
    ensures r.token.Some? <==> HasToken(st, RefreshKey) && answer.Refreshed?
    ensures r.token.Some? ==>
      r.token.value == answer.access && r.storage == SetItem(st, AccessKey, answer.access) && !r.toLogin
    ensures r.token.None? ==>
      r.toLogin && r.storage == RemoveItem(RemoveItem(st, AccessKey), RefreshKey)
    ensures r.toLogin <==> r.token.None?
  {
    if !HasToken(st, RefreshKey) then Refresh(RemoveItem(RemoveItem(st, AccessKey), RefreshKey), None, false, true)
    else match answer
      case Refreshed(access) => Refresh(SetItem(st, AccessKey, access), Some(access), true, false)
      case Rejected => Refresh(RemoveItem(RemoveItem(st, AccessKey), RefreshKey), None, true, true)
  }

  /** After a refresh the session is either renewed (the refresh token kept,
      the new access token stored) or gone (neither token left); no other
      stored key changes. */
  lemma RefreshRenewsOrEndsSession(st: Store, answer: RefreshAnswer)
    ensures var r := RefreshToken(st, answer);
            (r.token.Some? && HasToken(r.storage, RefreshKey) && AccessKey in r.storage && r.storage[AccessKey] == r.token.value)
            || (r.token.None? && !HasToken(r.storage, RefreshKey) && !HasToken(r.storage, AccessKey))
    ensures var r := RefreshToken(st, answer);
            forall k :: k != AccessKey && k != RefreshKey ==> (k in r.storage <==> k in st) && (k in st ==> r.storage[k] == st[k])
  {
  }
}
