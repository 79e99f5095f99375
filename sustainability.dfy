/** Sustainability actions: each user's own list, and the points an action
    earns from its type and amount. */
module SustainabilityViews {
  import Sequences

  type UserId = int

  datatype Action = Action(id: int, user: UserId, actionType: string, value: real, pointsEarned: int, pointsProcessed: bool)

  /** `points_map.get(action_type, 1)`. */
  function Rate(actionType: string): (r: int)
    ensures actionType == "recycle" ==> r == 10
    ensures actionType == "bike" ==> r == 5
    ensures actionType == "public_transport" ==> r == 2
    ensures actionType !in {"recycle", "bike", "public_transport"} ==> r == 1
  {
    if actionType == "recycle" then 10
    else if actionType == "bike" then 5
    else if actionType == "public_transport" then 2
    else 1
  }

  /** Python's `int(x)` on a number: the integer part, dropping the
      fraction toward zero. */
  function TruncateTowardZero(x: real): (r: int)
    ensures x >= 0.0 ==> r as real <= x < r as real + 1.0
    ensures x < 0.0 ==> r as real - 1.0 < x <= r as real
  {
    if x >= 0.0 then x.Floor else -((-x).Floor)
  }

  /** `_calculate_points`. */
  function CalculatePoints(actionType: string, value: real): int
  {
    TruncateTowardZero(value * Rate(actionType) as real)
  }

  /** The points are the whole part of value times rate: never more than
      the product for a non-negative amount, and within one of it; the sign
      of the amount does not change their size. */
  lemma PointsBounds(actionType: string, value: real)
    ensures value >= 0.0 ==> 0 <= CalculatePoints(actionType, value)
    ensures value >= 0.0 ==> CalculatePoints(actionType, value) as real <= value * Rate(actionType) as real
                               < CalculatePoints(actionType, value) as real + 1.0
    ensures CalculatePoints(actionType, -value) == -CalculatePoints(actionType, value)
  {
    var x := value * Rate(actionType) as real;
    assert -value * Rate(actionType) as real == -x;
    if x < 0.0 {
      assert -(-x) == x;
    }
  }

  /** An amount that is a whole number of units earns exactly
      `units * rate`. */
  lemma WholeUnitsEarnExactly(actionType: string, units: int)
    ensures CalculatePoints(actionType, units as real) == units * Rate(actionType)
  {
    var x := units as real * Rate(actionType) as real;
    assert x == (units * Rate(actionType)) as real;
  }

  function OwnActions(actions: seq<Action>, user: UserId): (r: seq<Action>)
  {
    Sequences.Where(actions, (a: Action) => a.user == user)
  }

  class ActionStore {
    var actions: seq<Action>

    constructor()
      ensures actions == []
    {
      actions := [];
    }

    /** `get_queryset`: a user sees only their own actions. */
    method ListActions(user: UserId) returns (r: seq<Action>)
      ensures forall k :: 0 <= k < |r| ==> r[k].user == user && r[k] in actions
      ensures forall k :: 0 <= k < |actions| && actions[k].user == user ==> actions[k] in r
    {
      r := OwnActions(actions, user);
    }

    /** `perform_create`: the action is saved for the requester, then its
      points are computed and saved on it. */
    method PerformCreate(user: UserId, actionType: string, value: real, newId: int) returns (created: Action)
      modifies this
      ensures created == Action(newId, user, actionType, value, CalculatePoints(actionType, value), false)
      ensures actions == old(actions) + [created]
    {
      actions := actions + [Action(newId, user, actionType, value, 0, false)];
      var last := |actions| - 1;
      actions := actions[last := actions[last].(pointsEarned := CalculatePoints(actionType, value))];
      created := actions[last];
    }
  }
}
