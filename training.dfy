/** The training page: the bundled exercise list is cut down to the
    exercises whose animation loads, then shown eight to a page with
    pages counted from zero. */
module TrainingPage {
  import Paging
  import Sequences

  datatype Exercise = Exercise(exerciseId: string, name: string, gifUrl: string)

  const ExercisesPerPage: nat := 8

  function ImagePath(e: Exercise): string {
    "/sample/" + e.gifUrl
  }

  /** The image check succeeds for the paths in `loadable`. */
  predicate ImageExists(loadable: set<string>, e: Exercise) {
    ImagePath(e) in loadable
  }

  function ValidExercises(all: seq<Exercise>, loadable: set<string>): seq<Exercise>
  {
    Sequences.Where(all, e => ImageExists(loadable, e))
  }

  /** The kept list is an order-preserving selection: an exercise is there
      exactly when its image loads. */
  lemma ValidExercisesSpec(all: seq<Exercise>, loadable: set<string>)
    ensures Sequences.IsSubsequence(ValidExercises(all, loadable), all)
    ensures forall k :: 0 <= k < |ValidExercises(all, loadable)| ==> ImageExists(loadable, ValidExercises(all, loadable)[k])
    ensures forall k :: 0 <= k < |all| && ImageExists(loadable, all[k]) ==> all[k] in ValidExercises(all, loadable)
  {
    Sequences.WhereIsSubsequence(all, e => ImageExists(loadable, e));
  }

  function TotalPages(valid: seq<Exercise>): nat
  {
    Paging.TotalPages(|valid|, ExercisesPerPage)
  }

  function CurrentExercises(valid: seq<Exercise>, page: int): seq<Exercise>
  {
    Paging.PageZeroBased(valid, page, ExercisesPerPage)
  }

  /** Page p (from 0) holds the exercises 8p .. 8p+7, at most eight of them,
      and is non-empty exactly for p < totalPages. */
  lemma CurrentExercisesWindow(valid: seq<Exercise>, page: int)
    requires page >= 0
    ensures var shown := CurrentExercises(valid, page);
            && |shown| <= ExercisesPerPage
            && (shown != [] <==> page < TotalPages(valid))
            && forall k :: 0 <= k < |shown| ==> shown[k] == valid[page * ExercisesPerPage + k]
  {
    Paging.ZeroBasedIsShiftedOneBased(valid, page, ExercisesPerPage);
    Paging.PageOneBasedWindow(valid, page + 1, ExercisesPerPage);
  }

  /** The image-check loop: one check per exercise, in list order, keeping
      those that load. */
  method CheckImages(all: seq<Exercise>, loadable: set<string>) returns (filtered: seq<Exercise>)
    ensures filtered == ValidExercises(all, loadable)
  {
    filtered := [];
    var i := 0;
    while i < |all|
      invariant 0 <= i <= |all|
      invariant filtered == ValidExercises(all[..i], loadable)
    {
      var e := all[i];
      WhereSnoc(all[..i], e, loadable);
      assert all[..i + 1] == all[..i] + [e];
      if ImagePath(e) in loadable {
        filtered := filtered + [e];
      }
      i := i + 1;
    }
    assert all[..|all|] == all;
  }

  class Training {
    var validExercises: seq<Exercise>
    var loading: bool
    var currentPage: int

    constructor()
      ensures validExercises == [] && loading && currentPage == 0
    {
      validExercises := [];
      loading := true;
      currentPage := 0;
    }

    /** `filterValidExercises`: the list is shown as loading while the
      images are checked, then replaced by the exercises that passed. */
    method FilterValidExercises(all: seq<Exercise>, loadable: set<string>)
      modifies this
      ensures validExercises == ValidExercises(all, loadable)
      ensures !loading && currentPage == old(currentPage)
    {
      loading := true;
      var filtered := CheckImages(all, loadable);
      validExercises := filtered;
      loading := false;
    }

    /** `handlePageClick`: the selected index becomes the page. */
    method HandlePageClick(selected: int)
      modifies this
      ensures currentPage == selected
      ensures validExercises == old(validExercises) && loading == old(loading)
    {
      currentPage := selected;
    }
  }

  /** Appending one exercise to the checked prefix appends it to the kept
      list exactly when its image loads. */
  lemma {:induction false} WhereSnoc(s: seq<Exercise>, e: Exercise, loadable: set<string>)
    ensures ValidExercises(s + [e], loadable)
         == ValidExercises(s, loadable) + (if ImageExists(loadable, e) then [e] else [])
    decreases |s|
  {
    if s == [] {
      assert [] + [e] == [e];
      assert [e][1..] == [];
    } else {
      WhereSnoc(s[1..], e, loadable);
      assert (s + [e])[1..] == s[1..] + [e];
    }
  }
}
