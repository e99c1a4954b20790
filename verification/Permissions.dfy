// Permission rows, the queries that read them under SQL's three-valued logic, and the
// service functions on permission requests.
module Permissions {
  import opened Common
  import opened Text

  type UserId = nat

  datatype Kind = ROOT | ADMIN | DEVELOPER | SUPPORT

  datatype Status = PENDING | APPROVED | DENIED | CANCELLED | SUPERSEDED

  datatype Permission = Permission(
    id: nat,
    user: UserId,
    kind: Kind,
    grantedBy: Option<UserId>,
    expires: Option<Time>,
    reason: Option<string>,
    disabled: bool)

  datatype Request = Request(
    requester: UserId,
    kind: Kind,
    reason: Option<string>,
    status: Status,
    decisionReason: Option<string>,
    decidedBy: Option<UserId>,
    decidedAt: Option<Time>)

  // The two tables; a request's id is its position.
  datatype Desk = Desk(requests: seq<Request>, permissions: seq<Permission>)

  datatype RequestError = NotFound | NotAllowed

  const DEVELOPER_ACCESS: set<Kind> := {DEVELOPER, ADMIN, ROOT}

  // ---------------------------------------------------------------- three-valued conditions

  datatype Tri = Yes | No | Unknown

  function Or3(a: Tri, b: Tri): Tri {
    if a == Yes || b == Yes then Yes else if a == No && b == No then No else Unknown
  }

  function And3(a: Tri, b: Tri): Tri {
    if a == No || b == No then No else if a == Yes && b == Yes then Yes else Unknown
  }

  function Truth(b: bool): Tri {
    if b then Yes else No
  }

  // A comparison with NULL is unknown.
  function After(t: Option<Time>, now: Time): Tri {
    if t.None? then Unknown else Truth(t.value > now)
  }

  function NotAfter(t: Option<Time>, now: Time): Tri {
    if t.None? then Unknown else Truth(t.value <= now)
  }

  // disabled IS FALSE AND (expiration_date > now OR expiration_date IS NULL)
  function ActiveClause(p: Permission, now: Time): Tri {
    And3(Truth(!p.disabled), Or3(After(p.expires, now), Truth(p.expires.None?)))
  }

  // disabled IS TRUE OR expiration_date <= now
  function InactiveClause(p: Permission, now: Time): Tri {
    Or3(Truth(p.disabled), NotAfter(p.expires, now))
  }

  // WHERE keeps the rows whose condition is true.
  predicate Active(p: Permission, now: Time) {
    ActiveClause(p, now) == Yes
  }

  predicate Inactive(p: Permission, now: Time) {
    InactiveClause(p, now) == Yes
  }

  function CountInactive(ps: seq<Permission>, now: Time): nat {
    if |ps| == 0 then 0
    else CountInactive(ps[..|ps| - 1], now) + if Inactive(ps[|ps| - 1], now) then 1 else 0
  }

  function CountActive(ps: seq<Permission>, now: Time): nat {
    if |ps| == 0 then 0
    else CountActive(ps[..|ps| - 1], now) + if Active(ps[|ps| - 1], now) then 1 else 0
  }

  // The two independently written conditions split every table: no row is in both and none in neither.
  lemma {:induction false} QueriesPartition(ps: seq<Permission>, now: Time)
    ensures forall i :: 0 <= i < |ps| ==> (Active(ps[i], now) <==> !Inactive(ps[i], now))
    ensures forall i :: 0 <= i < |ps| ==>
              (Active(ps[i], now) <==> !ps[i].disabled && (ps[i].expires.Some? ==> now < ps[i].expires.value))
    ensures CountActive(ps, now) + CountInactive(ps, now) == |ps|
  {
    if |ps| == 0 {
    } else {
      QueriesPartition(ps[..|ps| - 1], now);
    }
  }

  // get_active_permissions_for_user and get_active_user_permissions
  function ActiveKinds(ps: seq<Permission>, user: UserId, now: Time): set<Kind> {
    set i | 0 <= i < |ps| && ps[i].user == user && Active(ps[i], now) :: ps[i].kind
  }

  predicate HasDeveloperAccess(kinds: set<Kind>) {
    DEVELOPER_ACCESS * kinds != {}
  }

  // An active row of the user that opens the developer pages.
  predicate IsDeveloperGrant(p: Permission, user: UserId, now: Time) {
    p.user == user && p.kind in DEVELOPER_ACCESS && Active(p, now)
  }

  lemma {:induction false} DeveloperAccessLaw(ps: seq<Permission>, user: UserId, now: Time)
    ensures HasDeveloperAccess(ActiveKinds(ps, user, now)) <==>
              exists i :: 0 <= i < |ps| && IsDeveloperGrant(ps[i], user, now)
  {
    var kinds := ActiveKinds(ps, user, now);
    if HasDeveloperAccess(kinds) {
      var k :| k in DEVELOPER_ACCESS * kinds;
      var i :| 0 <= i < |ps| && ps[i].user == user && Active(ps[i], now) && ps[i].kind == k;
      assert IsDeveloperGrant(ps[i], user, now);
    }
    forall i | 0 <= i < |ps| && IsDeveloperGrant(ps[i], user, now) ensures HasDeveloperAccess(kinds) {
      assert ps[i].kind in DEVELOPER_ACCESS * kinds;
    }
  }

  datatype ModeError = InvalidMode(mode: string)

  function IsAuthorized(held: set<Kind>, required: set<Kind>, mode: string): Result<bool, ModeError> {
    if ROOT in held then Ok(true)
    else if mode == "all" then Ok(required <= held)
    else if mode == "any" then Ok(!(required !! held))
    else Err(InvalidMode(mode))
  }

  // ROOT is always admitted; "all" asks for every required permission, "any" for one of them, and
  // no other mode is known.
  lemma {:induction false} AuthorizationLaw(held: set<Kind>, required: set<Kind>, mode: string)
    ensures IsAuthorized(held, required, mode).Err? <==> ROOT !in held && mode != "all" && mode != "any"
    ensures IsAuthorized(held, required, mode) == Ok(true) <==>
              || ROOT in held
              || (mode == "all" && forall k :: k in required ==> k in held)
              || (mode == "any" && exists k :: k in required && k in held)
  {
    if mode == "any" && ROOT !in held && required !! held {
      assert forall k :: k in required ==> k !in held;
    }
  }

  // Holding more permissions never loses access.
  lemma {:induction false} AuthorizationIsMonotone(held: set<Kind>, more: set<Kind>, required: set<Kind>, mode: string)
    requires IsAuthorized(held, required, mode) == Ok(true)
    ensures IsAuthorized(held + more, required, mode) == Ok(true)
  {
    AuthorizationLaw(held, required, mode);
    AuthorizationLaw(held + more, required, mode);
  }

  // count(distinct user_id) of the dashboard: the users with an active developer-like row.
  function DeveloperUsers(ps: seq<Permission>, now: Time): set<UserId> {
    set i | 0 <= i < |ps| && ps[i].kind in DEVELOPER_ACCESS && Active(ps[i], now) :: ps[i].user
  }

  function DeveloperAccessMetric(ps: seq<Permission>, now: Time): nat {
    |DeveloperUsers(ps, now)|
  }

  predicate Admitted(ps: seq<Permission>, user: UserId, now: Time) {
    IsAuthorized(ActiveKinds(ps, user, now), {DEVELOPER, ADMIN}, "any") == Ok(true)
  }

  // The page guard and the request guard agree on who has developer access.
  lemma {:induction false} GuardsAgree(ps: seq<Permission>, user: UserId, now: Time)
    ensures Admitted(ps, user, now) <==> HasDeveloperAccess(ActiveKinds(ps, user, now))
    ensures Admitted(ps, user, now) <==> user in DeveloperUsers(ps, now)
  {
    var kinds := ActiveKinds(ps, user, now);
    if user in DeveloperUsers(ps, now) {
      var i :| 0 <= i < |ps| && ps[i].kind in DEVELOPER_ACCESS && Active(ps[i], now) && ps[i].user == user;
      assert ps[i].kind in kinds;
      assert ps[i].kind in DEVELOPER_ACCESS * kinds;
    }
    if HasDeveloperAccess(kinds) {
      var k :| k in DEVELOPER_ACCESS * kinds;
      assert k == ROOT || k in {DEVELOPER, ADMIN};
      var i :| 0 <= i < |ps| && ps[i].user == user && Active(ps[i], now) && ps[i].kind == k;
    }
    if Admitted(ps, user, now) && ROOT !in kinds {
      var k :| k in {DEVELOPER, ADMIN} && k in kinds;
      assert k in DEVELOPER_ACCESS * kinds;
    }
    if ROOT in kinds { assert ROOT in DEVELOPER_ACCESS * kinds; }
  }

  // The dashboard number is the number of users the developer pages would admit.
  lemma {:induction false} MetricCountsAdmittedUsers(ps: seq<Permission>, users: set<UserId>, now: Time)
    requires forall i :: 0 <= i < |ps| ==> ps[i].user in users
    ensures DeveloperAccessMetric(ps, now) == |set u | u in users && Admitted(ps, u, now)|
  {
    var admitted := set u | u in users && Admitted(ps, u, now);
    forall u ensures u in admitted <==> u in DeveloperUsers(ps, now) {
      GuardsAgree(ps, u, now);
    }
    assert admitted == DeveloperUsers(ps, now);
  }

  // ---------------------------------------------------------------- rows

  function FindPermission(ps: seq<Permission>, user: UserId, kind: Kind): (r: Option<nat>)
    ensures r.Some? ==> r.value < |ps| && ps[r.value].user == user && ps[r.value].kind == kind
    ensures r.None? ==> forall i :: 0 <= i < |ps| ==> !(ps[i].user == user && ps[i].kind == kind)
  {
    if |ps| == 0 then None
    else
      var n := |ps| - 1;
      var before := FindPermission(ps[..n], user, kind);
      if before.Some? then before
      else if ps[n].user == user && ps[n].kind == kind then Some(n)
      else
        assert forall i :: 0 <= i < n ==> ps[i] == ps[..n][i];
        None
  }

  predicate IsPendingOf(r: Request, user: UserId, kind: Kind) {
    r.requester == user && r.kind == kind && r.status == PENDING
  }

  function FindPending(rs: seq<Request>, user: UserId, kind: Kind): (r: Option<nat>)
    ensures r.Some? ==> r.value < |rs| && IsPendingOf(rs[r.value], user, kind)
    ensures r.None? ==> forall i :: 0 <= i < |rs| ==> !IsPendingOf(rs[i], user, kind)
  {
    if |rs| == 0 then None
    else
      var n := |rs| - 1;
      var before := FindPending(rs[..n], user, kind);
      if before.Some? then before
      else if IsPendingOf(rs[n], user, kind) then Some(n)
      else
        assert forall i :: 0 <= i < n ==> rs[i] == rs[..n][i];
        None
  }

  const APPROVAL_NOTE := "Approved permission request"

  // (decision_reason or "Approved permission request").strip()
  function GrantReason(reason: Option<string>): string {
    Strip(if reason.Some? && reason.value != "" then reason.value else APPROVAL_NOTE)
  }

  // The reason written on a grant: the decider's words without the white space around them, or the
  // standing note when there are none.
  lemma {:induction false} GrantReasonLaw(left: string, core: string, right: string)
    requires AllSpace(left) && Stripped(core) && AllSpace(right)
    ensures GrantReason(None) == GrantReason(Some("")) == "Approved permission request"
    ensures left + core + right != "" ==> GrantReason(Some(left + core + right)) == core
  {
    StripPadded(left, core, right);
    StripFixed(APPROVAL_NOTE);
  }

  function Regrant(p: Permission, actor: UserId, reason: Option<string>): Permission {
    p.(disabled := false, expires := None, grantedBy := Some(actor), reason := Some(GrantReason(reason)))
  }

  // The unique constraint on (user, type) makes this the only row of the pair.
  function Grant(
    ps: seq<Permission>, user: UserId, kind: Kind, actor: UserId, reason: Option<string>): seq<Permission> {
    match FindPermission(ps, user, kind)
    case Some(i) => ps[i := Regrant(ps[i], actor, reason)]
    case None => ps + [Permission(|ps|, user, kind, Some(actor), None, Some(GrantReason(reason)), false)]
  }

  function Decide(r: Request, status: Status, actor: UserId, reason: Option<string>, now: Time): Request {
    r.(status := status, decisionReason := Cleaned(reason), decidedBy := Some(actor), decidedAt := Some(now))
  }

  // ---------------------------------------------------------------- the service functions

  function CreateRequest(
    d: Desk, user: UserId, kind: Kind, reason: Option<string>, now: Time): Result<(Desk, nat), RequestError> {
    if kind == DEVELOPER && HasDeveloperAccess(ActiveKinds(d.permissions, user, now)) then Err(NotAllowed)
    else
      match FindPending(d.requests, user, kind)
      case Some(i) => Ok((d, i))
      case None =>
        Ok((d.(requests := d.requests + [Request(user, kind, Cleaned(reason), PENDING, None, None, None)]),
           |d.requests|))
  }

  function Approve(d: Desk, id: nat, actor: UserId, reason: Option<string>, now: Time): Result<Desk, RequestError> {
    if id >= |d.requests| then Err(NotFound)
    else if d.requests[id].status != PENDING then Ok(d)
    else
      var r := d.requests[id];
      Ok(Desk(d.requests[id := Decide(r, APPROVED, actor, reason, now)],
              Grant(d.permissions, r.requester, r.kind, actor, reason)))
  }

  function Deny(d: Desk, id: nat, actor: UserId, reason: Option<string>, now: Time): Result<Desk, RequestError> {
    if id >= |d.requests| then Err(NotFound)
    else if d.requests[id].status != PENDING then Ok(d)
    else Ok(d.(requests := d.requests[id := Decide(d.requests[id], DENIED, actor, reason, now)]))
  }

  function Cancel(d: Desk, id: nat, user: UserId): Result<Desk, RequestError> {
    if id >= |d.requests| then Err(NotFound)
    else if d.requests[id].requester != user || d.requests[id].status != PENDING then Ok(d)
    else Ok(d.(requests := d.requests[id := d.requests[id].(status := CANCELLED)]))
  }

  predicate IsOf(p: Permission, user: UserId, kind: Kind) {
    p.user == user && p.kind == kind
  }

  // The request as its decider leaves it.
  function DecidedBy(r: Request, status: Status, actor: UserId, words: Option<string>, now: Time): Request {
    Request(r.requester, r.kind, r.reason, status, words, Some(actor), Some(now))
  }

  // Enabled, without an expiry, on this decider's word.
  predicate GrantedBy(p: Permission, user: UserId, kind: Kind, actor: UserId, reason: string) {
    && p.user == user && p.kind == kind && !p.disabled && p.expires == None
    && p.grantedBy == Some(actor) && p.reason == Some(reason)
  }

  class PermissionService {
    var requests: seq<Request>
    var permissions: seq<Permission>

    ghost function Tables(): Desk
      reads this
    {
      Desk(requests, permissions)
    }

    constructor (requests: seq<Request>, permissions: seq<Permission>)
      ensures Tables() == Desk(requests, permissions)
    {
      this.requests, this.permissions := requests, permissions;
    }

    method CreatePermissionRequest(user: UserId, kind: Kind, reason: Option<string>, now: Time)
      returns (r: Result<nat, RequestError>)
      modifies this
      ensures match CreateRequest(old(Tables()), user, kind, reason, now)
              case Ok(made) => r == Ok(made.1) && Tables() == made.0
              case Err(e) => r == Err(e) && Tables() == old(Tables())
      ensures permissions == old(permissions)
      ensures r.Err? <==>
                kind == DEVELOPER && exists i :: 0 <= i < |permissions| && IsDeveloperGrant(permissions[i], user, now)
      ensures r.Ok? ==>
                && r.value < |requests| && requests[r.value].requester == user && requests[r.value].kind == kind
                && requests[r.value].status == PENDING
      ensures r.Ok? && r.value >= |old(requests)| ==>
                && requests[r.value] == Request(user, kind, Cleaned(reason), PENDING, None, None, None)
                && r.value == |old(requests)|
                && forall i :: 0 <= i < |old(requests)| ==>
                     !(old(requests)[i].requester == user && old(requests)[i].kind == kind &&
                       old(requests)[i].status == PENDING)
      ensures |requests| <= |old(requests)| + 1
      ensures forall i :: 0 <= i < |old(requests)| ==> i < |requests| && requests[i] == old(requests)[i]
    {
      DeveloperAccessLaw(permissions, user, now);
      if kind == DEVELOPER && HasDeveloperAccess(ActiveKinds(permissions, user, now)) {
        return Err(NotAllowed);
      }
      var pending := FindPending(requests, user, kind);
      if pending.Some? {
        return Ok(pending.value);
      }
      requests := requests + [Request(user, kind, Cleaned(reason), PENDING, None, None, None)];
      return Ok(|requests| - 1);
    }

    method ApprovePermissionRequest(id: nat, actor: UserId, reason: Option<string>, now: Time)
      returns (r: Result<Request, RequestError>)
      modifies this
      ensures match Approve(old(Tables()), id, actor, reason, now)
              case Ok(after) => id < |requests| && r == Ok(requests[id]) && Tables() == after
              case Err(e) => r == Err(e) && Tables() == old(Tables())
      ensures |requests| == |old(requests)|
      ensures forall i :: 0 <= i < |requests| && i != id ==> requests[i] == old(requests)[i]
      ensures r.Ok? <==> id < |old(requests)|
      ensures r.Ok? && old(requests)[id].status != PENDING ==> Tables() == old(Tables())
      ensures r.Ok? && old(requests)[id].status == PENDING ==>
                && r.value == DecidedBy(old(requests)[id], APPROVED, actor, Cleaned(reason), now)
                && exists p :: 0 <= p < |permissions| &&
                     GrantedBy(permissions[p], r.value.requester, r.value.kind, actor, GrantReason(reason))
      ensures forall p :: 0 <= p < |old(permissions)| ==>
                && p < |permissions|
                && (!(r.Ok? && IsOf(old(permissions)[p], r.value.requester, r.value.kind)) ==>
                      permissions[p] == old(permissions)[p])
    {
      if id >= |requests| {
        return Err(NotFound);
      }
      var request := requests[id];
      if request.status != PENDING {
        return Ok(request);
      }
      var at := FindPermission(permissions, request.requester, request.kind);
      if at.Some? {
        var row := permissions[at.value];
        row := row.(disabled := false);
        row := row.(expires := None);
        row := row.(grantedBy := Some(actor));
        row := row.(reason := Some(GrantReason(reason)));
        permissions := permissions[at.value := row];
        assert GrantedBy(permissions[at.value], request.requester, request.kind, actor, GrantReason(reason));
      } else {
        var row := Permission(|permissions|, request.requester, request.kind, Some(actor), None,
                              Some(GrantReason(reason)), false);
        permissions := permissions + [row];
        assert GrantedBy(permissions[|permissions| - 1], request.requester, request.kind, actor, GrantReason(reason));
      }
      request := request.(status := APPROVED);
      request := request.(decisionReason := Cleaned(reason));
      request := request.(decidedBy := Some(actor));
      request := request.(decidedAt := Some(now));
      requests := requests[id := request];
      return Ok(request);
    }

    method DenyPermissionRequest(id: nat, actor: UserId, reason: Option<string>, now: Time)
      returns (r: Result<Request, RequestError>)
      modifies this
      ensures match Deny(old(Tables()), id, actor, reason, now)
              case Ok(after) => id < |requests| && r == Ok(requests[id]) && Tables() == after
              case Err(e) => r == Err(e) && Tables() == old(Tables())
      ensures permissions == old(permissions)
      ensures |requests| == |old(requests)|
      ensures forall i :: 0 <= i < |requests| && i != id ==> requests[i] == old(requests)[i]
      ensures r.Ok? <==> id < |old(requests)|
      ensures r.Ok? && old(requests)[id].status != PENDING ==> Tables() == old(Tables())
      ensures r.Ok? && old(requests)[id].status == PENDING ==>
                r.value == DecidedBy(old(requests)[id], DENIED, actor, Cleaned(reason), now)
    {
      if id >= |requests| {
        return Err(NotFound);
      }
      var request := requests[id];
      if request.status != PENDING {
        return Ok(request);
      }
      request := request.(status := DENIED);
      request := request.(decisionReason := Cleaned(reason));
      request := request.(decidedBy := Some(actor));
      request := request.(decidedAt := Some(now));
      requests := requests[id := request];
      return Ok(request);
    }

    method CancelPermissionRequest(id: nat, user: UserId) returns (r: Result<Request, RequestError>)
      modifies this
      ensures match Cancel(old(Tables()), id, user)
              case Ok(after) => id < |requests| && r == Ok(requests[id]) && Tables() == after
              case Err(e) => r == Err(e) && Tables() == old(Tables())
      ensures permissions == old(permissions)
      ensures |requests| == |old(requests)|
      ensures forall i :: 0 <= i < |requests| && i != id ==> requests[i] == old(requests)[i]
      ensures r.Ok? <==> id < |old(requests)|
      ensures r.Ok? ==>
                var own := old(requests)[id].requester == user && old(requests)[id].status == PENDING;
                r.value == if own then old(requests)[id].(status := CANCELLED) else old(requests)[id]
    {
      if id >= |requests| {
        return Err(NotFound);
      }
      var request := requests[id];
      if request.requester != user || request.status != PENDING {
        return Ok(request);
      }
      request := request.(status := CANCELLED);
      requests := requests[id := request];
      return Ok(request);
    }
  }
}
