/** The route guard of `src/middleware/permissions.rs`: a request proceeds
    only when the authenticated caller holds every required permission. */
module PermissionGuard {
  import opened Wrappers
  import opened AppErrors
  import opened Text

  /** What the authentication middleware attached to the request. */
  datatype AuthState = AuthState(employeeId: Uuid, permissions: seq<int>)

  /** Whether the next handler runs, or the request is answered with an
      error instead. */
  datatype Decision = RunNext | Reject(error: AppError)

  /** `required.iter().all(|r| held.contains(r))`, walked left to right. */
  function HasAll(required: seq<int>, held: seq<int>): (r: bool)
    ensures r <==> forall i :: 0 <= i < |required| ==> required[i] in held
  {
    if required == [] then true
    else
      assert forall i :: 1 <= i < |required| ==> required[i] == required[1..][i - 1];
      required[0] in held && HasAll(required[1..], held)
  }

  /** The walk succeeds exactly when every element of the required list,
      whatever its position, is held. */
  lemma HasAllIsInclusion(required: seq<int>, held: seq<int>)
    ensures HasAll(required, held) <==> forall x :: x in required ==> x in held
  {
    if HasAll(required, held) {
      forall x | x in required ensures x in held {
        var i :| 0 <= i < |required| && required[i] == x;
      }
    } else {
      var i :| 0 <= i < |required| && required[i] !in held;
      var missing := required[i];
      assert missing in required && missing !in held;
    }
  }

  /** Rust's `{:?}` rendering of a `Vec<i32>`: the decimal ids between
      brackets, separated by a comma and a space. */
  function DebugList(ids: seq<int>): (s: string)
    ensures |s| >= 2 && s[0] == '[' && s[|s| - 1] == ']'
    ensures ids == [] <==> s == "[]"
    ensures |ids| == 1 ==> s == "[" + IntToString(ids[0]) + "]"
  {
    "[" + Join(seq(|ids|, i requires 0 <= i < |ids| => IntToString(ids[i])), ", ") + "]"
  }

  const INSUFFICIENT_PREFIX := "Permissions insuffisantes. Permissions requises: "
  const HELD_LABEL := ", Permissions actuelles: "

  /** The text of the rejection for missing permissions: the required list,
      then the list the caller holds, both in `{:?}` form. */
  function InsufficientMessage(required: seq<int>, held: seq<int>): (m: string)
    ensures |m| > |INSUFFICIENT_PREFIX| && m[..|INSUFFICIENT_PREFIX|] == INSUFFICIENT_PREFIX
    ensures m[|INSUFFICIENT_PREFIX|] == '[' && m[|m| - 1] == ']'
  {
    INSUFFICIENT_PREFIX + DebugList(required) + HELD_LABEL + DebugList(held)
  }

  /** `require_permissions`: a missing authentication state is rejected
      before any permission is looked at; an insufficient set is rejected
      without running the next handler. */
  function RequirePermissions(required: seq<int>, state: Option<AuthState>): (d: Decision)
    ensures state.None? ==> d == Reject(Validation("Authentification requise"))
    ensures d.RunNext? <==> state.Some? && forall x :: x in required ==> x in state.value.permissions
    ensures d.Reject? ==> d.error.Validation?
    ensures state.Some? && d.Reject? ==>
              d.error == Validation(InsufficientMessage(required, state.value.permissions))
  {
    match state
    case None => Reject(Validation("Authentification requise"))
    case Some(auth) =>
      HasAllIsInclusion(required, auth.permissions);
      if HasAll(required, auth.permissions) then RunNext
      else Reject(Validation(InsufficientMessage(required, auth.permissions)))
  }

  /** The two lists of the example below, in `{:?}` form. */
  lemma DebugListSmall()
    ensures DebugList([1]) == "[1]"
    ensures DebugList([1, 2]) == "[1, 2]"
  {
    assert IntToString(1) == "1" && IntToString(2) == "2";
    var pieces := seq(2, i requires 0 <= i < 2 => IntToString([1, 2][i]));
    assert pieces == ["1", "2"];
    assert Join(pieces, ", ") == "1, 2";
  }

  /** A caller holding only id 1 on a route requiring ids 1 and 2 is told
      both lists. */
  lemma InsufficientMessageExample(id: Uuid)
    ensures RequirePermissions([1, 2], Some(AuthState(id, [1]))) ==
            Reject(Validation("Permissions insuffisantes. Permissions requises: " + "[1, 2]"
                              + ", Permissions actuelles: " + "[1]"))
  {
    var m := InsufficientMessage([1, 2], [1]);
    assert m == INSUFFICIENT_PREFIX + "[1, 2]" + HELD_LABEL + "[1]" by { DebugListSmall(); }
    assert !HasAll([1, 2], [1]) by { assert [1, 2][1] !in [1]; }
  }

  /** A route that requires nothing admits every authenticated caller. */
  lemma EmptyRequirementPasses(auth: AuthState)
    ensures RequirePermissions([], Some(auth)) == RunNext
  {
  }

  /** The decision depends only on the set of required ids: neither their
      order nor repetitions matter. */
  lemma DecisionIgnoresOrderAndDuplicates(r1: seq<int>, r2: seq<int>, state: Option<AuthState>)
    requires forall x :: x in r1 <==> x in r2
    ensures RequirePermissions(r1, state).RunNext? == RequirePermissions(r2, state).RunNext?
  {
  }

  /** Holding more never hurts: a caller admitted with `held` is admitted
      with any superset of it. */
  lemma MorePermissionsStillPass(required: seq<int>, id: Uuid, held: seq<int>, more: seq<int>)
    requires RequirePermissions(required, Some(AuthState(id, held))).RunNext?
    requires forall x :: x in held ==> x in more
    ensures RequirePermissions(required, Some(AuthState(id, more))).RunNext?
  {
  }
}
