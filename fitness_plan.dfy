/** The fitness-plan page: loading its list of tasks with one refresh-and-retry
    after a 401, paging the list five tasks at a time, and the page bar. */
module FitnessPlanPage {
  import opened Common
  import opened LocalStorage
  import opened TokenRefresh
  import Paging
  import TaskListComponent

  type Task = TaskListComponent.Task

  const TasksPerPage: nat := 5
  const FetchFailed: string := "Failed to fetch tasks"

  /** The text an error response carries, if any. */
  function ErrorText<T>(o: HttpOutcome<T>): Option<string> {
    if o.HttpError? then o.message else None
  }

  datatype PlanView = PlanView(
    storage: Store,
    tasks: seq<Task>,
    error: Option<string>,
    loading: bool,
    currentPage: int,
    atLogin: bool)

  function Initial(storage: Store): (v: PlanView)
    ensures v.tasks == [] && v.error == None && v.loading && v.currentPage == 1 && !v.atLogin
  {
    PlanView(storage, [], None, true, 1, false)
  }

  /** `fetchTasks`: the view afterwards and the access tokens sent, in order.
      `first` answers the request made with the stored token, `answer` the
      refresh, `retry` the request made with the refreshed token. */
  function FetchTasksStep(v: PlanView, first: HttpOutcome<seq<Task>>, answer: RefreshAnswer, retry: HttpOutcome<seq<Task>>): (r: (PlanView, seq<string>))
    ensures !r.0.loading && r.0.currentPage == v.currentPage && |r.1| <= 2
    ensures !HasToken(v.storage, AccessKey) ==>
      r.1 == [] && r.0 == v.(error := Some(FetchFailed), loading := false)
    ensures HasToken(v.storage, AccessKey) ==> |r.1| >= 1 && r.1[0] == v.storage[AccessKey]
    ensures HasToken(v.storage, AccessKey) && first.Success? ==>
      r.0 == v.(tasks := first.data, error := None, loading := false) && |r.1| == 1
    ensures HasToken(v.storage, AccessKey) && !first.Success? && !first.IsUnauthorized() ==>
      r.0 == v.(error := Some(OrElse(ErrorText(first), FetchFailed)), loading := false) && |r.1| == 1
    ensures |r.1| == 2 <==>
      HasToken(v.storage, AccessKey) && first.IsUnauthorized() && HasToken(v.storage, RefreshKey)
      && answer.Refreshed? && answer.access != ""
    ensures |r.1| == 2 ==>
      && r.1[1] == answer.access && r.0.storage == SetItem(v.storage, AccessKey, answer.access)
      && (retry.Success? ==> r.0.tasks == retry.data && r.0.error == None && r.0.atLogin == v.atLogin)
      && (!retry.Success? ==> r.0.tasks == v.tasks && r.0.error == Some(OrElse(ErrorText(retry), FetchFailed)) && r.0.atLogin)
    ensures r.0.atLogin && !v.atLogin ==> HasToken(v.storage, AccessKey) && first.IsUnauthorized()
    ensures r.0.tasks != v.tasks ==> r.0.error == None
  {
    if !HasToken(v.storage, AccessKey) then (v.(error := Some(FetchFailed), loading := false), [])
    else
      var token := v.storage[AccessKey];
      if first.Success? then (v.(tasks := first.data, error := None, loading := false), [token])
      else if first.IsUnauthorized() then
        var refresh := RefreshToken(v.storage, answer);
        var afterRefresh := v.(storage := refresh.storage, atLogin := v.atLogin || refresh.toLogin, loading := false);
        if refresh.token.Some? && refresh.token.value != "" then
          var newToken := refresh.token.value;
          if retry.Success? then (afterRefresh.(tasks := retry.data, error := None), [token, newToken])
          else (afterRefresh.(error := Some(OrElse(ErrorText(retry), FetchFailed)), atLogin := true), [token, newToken])
        else (afterRefresh, [token])
      else (v.(error := Some(OrElse(ErrorText(first), FetchFailed)), loading := false), [token])
  }

  /** A 401 with no usable refresh token ends the session: both tokens are
      removed, the page goes to `/login`, and the list and error stay. */
  lemma UnauthorizedWithoutRefreshEndsSession(v: PlanView, first: HttpOutcome<seq<Task>>, answer: RefreshAnswer, retry: HttpOutcome<seq<Task>>)
    requires HasToken(v.storage, AccessKey) && first.IsUnauthorized()
    requires !HasToken(v.storage, RefreshKey) || answer.Rejected?
    ensures var r := FetchTasksStep(v, first, answer, retry);
            && r.1 == [v.storage[AccessKey]]
            && AccessKey !in r.0.storage && RefreshKey !in r.0.storage && r.0.atLogin
            && r.0.tasks == v.tasks && r.0.error == v.error
  {
  }

  // -------------------------------------------------------------- paging

  /** The tasks shown on a page: `tasks.slice(page * 5 - 5, page * 5)`. */
  function CurrentTasks(tasks: seq<Task>, page: int): seq<Task>
  {
    Paging.PageOneBased(tasks, page, TasksPerPage)
  }

  function TotalPagesOf(tasks: seq<Task>): nat
  {
    Paging.TotalPages(|tasks|, TasksPerPage)
  }

  /** Every task is on exactly the page `index / 5 + 1`, and pages past the
      last are empty. */
  lemma CurrentTasksWindow(tasks: seq<Task>, page: int)
    requires page >= 1
    ensures var shown := CurrentTasks(tasks, page);
            && |shown| <= TasksPerPage
            && (shown != [] <==> page <= TotalPagesOf(tasks))
            && forall k :: 0 <= k < |shown| ==> shown[k] == tasks[(page - 1) * TasksPerPage + k]
  {
    Paging.PageOneBasedWindow(tasks, page, TasksPerPage);
  }

  /** The page bar is shown only for more than one page of tasks. */
  predicate ShowsPagination(tasks: seq<Task>) {
    |tasks| > TasksPerPage
  }

  lemma ShowsPaginationIffSeveralPages(tasks: seq<Task>)
    ensures ShowsPagination(tasks) <==> TotalPagesOf(tasks) >= 2
  {
  }

  /** The previous-page button: one back, never below page 1. */
  function PrevPage(p: int): (r: int)
    ensures r >= 1 && (p > 1 ==> r == p - 1) && (p <= 1 ==> r == 1)
  {
    Max(p - 1, 1)
  }

  /** The next-page button: one on, never past the last page. */
  function NextPage(p: int, totalPages: int): (r: int)
    ensures r <= totalPages && (p < totalPages ==> r == p + 1) && (p >= totalPages ==> r == totalPages)
    ensures 1 <= p <= totalPages ==> 1 <= r <= totalPages
  {
    Min(p + 1, totalPages)
  }

  datatype PageItem = PrevButton(disabled: bool) | Item(number: int, active: bool) | Ellipsis | NextButton(disabled: bool)

  /** The window of page numbers around the current one, lowest first. */
  function MiddleItems(lo: int, hi: int, p: int): seq<PageItem>
    decreases hi - lo
  {
    if hi < lo then [] else MiddleItems(lo, hi - 1, p) + [Item(hi, hi == p)]
  }

  /** The bar `renderPaginationItems` builds for page `p` of `tp`. */
  function PaginationBar(p: int, tp: int): seq<PageItem>
  {
    [PrevButton(p == 1), Item(1, p == 1)]
    + (if p > 3 then [Ellipsis] else [])
    + MiddleItems(Max(2, p - 1), Min(tp - 1, p + 1), p)
    + (if p < tp - 2 && tp > 3 then [Ellipsis] else [])
    + (if tp > 1 then [Item(tp, p == tp)] else [])
    + [NextButton(p == tp || tp == 0)]
  }

  method RenderPaginationItems(p: int, tp: int) returns (items: seq<PageItem>)
    ensures items == PaginationBar(p, tp)
  {
    items := [PrevButton(p == 1)];
    items := items + [Item(1, p == 1)];
    if p > 3 {
      items := items + [Ellipsis];
    }
    ghost var head := items;
    assert head == [PrevButton(p == 1), Item(1, p == 1)] + (if p > 3 then [Ellipsis] else []);
    var lo := Max(2, p - 1);
    var number := lo;
    while number <= Min(tp - 1, p + 1)
      invariant lo <= number <= Max(lo, Min(tp - 1, p + 1) + 1)
      invariant items == head + MiddleItems(lo, number - 1, p)
      decreases Min(tp - 1, p + 1) - number
    {
      items := items + [Item(number, number == p)];
      number := number + 1;
    }
    ghost var middle := head + MiddleItems(lo, Min(tp - 1, p + 1), p);
    assert items == middle;
    ghost var c: seq<PageItem> := if p < tp - 2 && tp > 3 then [Ellipsis] else [];
    if p < tp - 2 && tp > 3 {
      items := items + [Ellipsis];
    }
    assert items == middle + c;
    ghost var d: seq<PageItem> := if tp > 1 then [Item(tp, p == tp)] else [];
    if tp > 1 {
      items := items + [Item(tp, p == tp)];
    }
    assert items == middle + c + d;
    items := items + [NextButton(p == tp || tp == 0)];
    assert items == middle + c + d + [NextButton(p == tp || tp == 0)];
  }

  function CountActive(items: seq<PageItem>): nat
  {
    if items == [] then 0 else (if items[0].Item? && items[0].active then 1 else 0) + CountActive(items[1..])
  }

  lemma {:induction false} CountActiveConcat(a: seq<PageItem>, b: seq<PageItem>)
    ensures CountActive(a + b) == CountActive(a) + CountActive(b)
  {
    if a != [] {
      assert (a + b)[1..] == a[1..] + b;
      CountActiveConcat(a[1..], b);
    } else {
      assert a + b == b;
    }
  }

  lemma {:induction false} CountActiveMiddle(lo: int, hi: int, p: int)
    ensures CountActive(MiddleItems(lo, hi, p)) == if lo <= p <= hi then 1 else 0
    decreases hi - lo
  {
    if hi >= lo {
      CountActiveMiddle(lo, hi - 1, p);
      CountActiveConcat(MiddleItems(lo, hi - 1, p), [Item(hi, hi == p)]);
    }
  }

  /** When the current page exists, the bar highlights exactly one item; it
      starts with the previous button and page 1 and ends with the next
      button, disabled exactly at the ends. */
  lemma PaginationBarShape(p: int, tp: int)
    ensures var bar := PaginationBar(p, tp);
            && |bar| >= 3 && bar[0] == PrevButton(p == 1) && bar[1] == Item(1, p == 1)
            && bar[|bar| - 1] == NextButton(p == tp || tp == 0)
    ensures 1 <= p <= tp ==> CountActive(PaginationBar(p, tp)) == 1
  {
    var lo, hi := Max(2, p - 1), Min(tp - 1, p + 1);
    var a := [PrevButton(p == 1), Item(1, p == 1)];
    var b := if p > 3 then [Ellipsis] else [];
    var m := MiddleItems(lo, hi, p);
    var c := if p < tp - 2 && tp > 3 then [Ellipsis] else [];
    var d := if tp > 1 then [Item(tp, p == tp)] else [];
    var e := [NextButton(p == tp || tp == 0)];
    CountActiveConcat(a, b);
    CountActiveConcat(a + b, m);
    CountActiveConcat(a + b + m, c);
    CountActiveConcat(a + b + m + c, d);
    CountActiveConcat(a + b + m + c + d, e);
    CountActiveMiddle(lo, hi, p);
    assert CountActive(a) == (if p == 1 then 1 else 0);
    assert CountActive(d) == (if tp > 1 && p == tp then 1 else 0);
  }

  /** `handlePlanGenerated` and `onUpdateTask` of the page. */
  function PlanGeneratedStep(v: PlanView, tasks: seq<Task>): (r: PlanView)
    ensures r == v.(tasks := tasks, currentPage := 1)
  {
    v.(tasks := tasks, currentPage := 1)
  }

  class FitnessPlan {
    var storage: Store
    var tasks: seq<Task>
    var error: Option<string>
    var loading: bool
    var currentPage: int
    var atLogin: bool

    function State(): PlanView
      reads this
    {
      PlanView(storage, tasks, error, loading, currentPage, atLogin)
    }

    constructor(storage: Store)
      ensures State() == Initial(storage)
    {
      this.storage := storage;
      tasks := [];
      error := None;
      loading := true;
      currentPage := 1;
      atLogin := false;
    }

    method RefreshAccessToken(answer: RefreshAnswer) returns (token: Option<string>)
      modifies this
      ensures var r := RefreshToken(old(storage), answer);
              token == r.token && storage == r.storage && atLogin == (old(atLogin) || r.toLogin)
      ensures tasks == old(tasks) && error == old(error) && loading == old(loading) && currentPage == old(currentPage)
    {
      if !HasToken(storage, RefreshKey) {
        storage := RemoveItem(RemoveItem(storage, AccessKey), RefreshKey);
        atLogin := true;
        return None;
      }
      match answer
      case Refreshed(access) =>
        storage := SetItem(storage, AccessKey, access);
        token := Some(access);
      case Rejected =>
        storage := RemoveItem(RemoveItem(storage, AccessKey), RefreshKey);
        atLogin := true;
        token := None;
    }

    method FetchTasks(first: HttpOutcome<seq<Task>>, answer: RefreshAnswer, retry: HttpOutcome<seq<Task>>) returns (sent: seq<string>)
      modifies this
      ensures var r := FetchTasksStep(old(State()), first, answer, retry);
              State() == r.0 && sent == r.1
    {
      loading := true;
      sent := [];
      if !HasToken(storage, AccessKey) {
        error := Some(FetchFailed);
      } else {
        sent := [storage[AccessKey]];
        if first.Success? {
          tasks := first.data;
          error := None;
        } else if first.IsUnauthorized() {
          var newToken := RefreshAccessToken(answer);
          if newToken.Some? && newToken.value != "" {
            sent := sent + [newToken.value];
            if retry.Success? {
              tasks := retry.data;
              error := None;
            } else {
              error := Some(OrElse(ErrorText(retry), FetchFailed));
              atLogin := true;
            }
          }
        } else {
          error := Some(OrElse(ErrorText(first), FetchFailed));
        }
      }
      loading := false;
    }

    method HandlePlanGenerated(generated: seq<Task>)
      modifies this
      ensures State() == PlanGeneratedStep(old(State()), generated)
    {
      tasks := generated;
      currentPage := 1;
    }

    method OnUpdateTask(updated: Task)
      modifies this
      ensures State() == old(State()).(tasks := TaskListComponent.ReplaceTask(old(tasks), updated.id, updated))
    {
      tasks := TaskListComponent.ReplaceTask(tasks, updated.id, updated);
    }

    method ClickPrev()
      modifies this
      ensures State() == old(State()).(currentPage := PrevPage(old(currentPage)))
    {
      currentPage := Max(currentPage - 1, 1);
    }

    method ClickNext()
      modifies this
      ensures State() == old(State()).(currentPage := NextPage(old(currentPage), TotalPagesOf(old(tasks))))
    {
      currentPage := Min(currentPage + 1, TotalPagesOf(tasks));
    }

    method ClickPage(number: int)
      modifies this
      ensures State() == old(State()).(currentPage := number)
    {
      currentPage := number;
    }
  }
}
