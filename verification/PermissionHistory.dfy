// Every run of the permission request services: what the two tables remember of it.
module PermissionHistory {
  import opened Common
  import opened Permissions
  import opened Text

  datatype Op =
    | CreateOp(user: UserId, kind: Kind, reason: Option<string>, createdAt: Time)
    | ApproveOp(id: nat, actor: UserId, note: Option<string>, approvedAt: Time)
    | DenyOp(id: nat, actor: UserId, note: Option<string>, deniedAt: Time)
    | CancelOp(id: nat, canceller: UserId)

  // A failing call changes nothing.
  function Next(d: Desk, op: Op): Desk {
    match op
    case CreateOp(user, kind, reason, now) =>
      (match CreateRequest(d, user, kind, reason, now) case Ok(made) => made.0 case Err(_) => d)
    case ApproveOp(id, actor, note, now) =>
      (match Approve(d, id, actor, note, now) case Ok(after) => after case Err(_) => d)
    case DenyOp(id, actor, note, now) =>
      (match Deny(d, id, actor, note, now) case Ok(after) => after case Err(_) => d)
    case CancelOp(id, user) =>
      (match Cancel(d, id, user) case Ok(after) => after case Err(_) => d)
  }

  function Run(d: Desk, ops: seq<Op>): Desk {
    if |ops| == 0 then d else Next(Run(d, ops[..|ops| - 1]), ops[|ops| - 1])
  }

  // ---------------------------------------------------------------- the history, kept apart from the tables

  datatype Approval = Approval(user: UserId, kind: Kind, actor: UserId, note: Option<string>)

  // The approvals of a run, in order: approve calls that met a pending request.
  function Approvals(d: Desk, ops: seq<Op>): seq<Approval> {
    if |ops| == 0 then []
    else
      var before, op := Run(d, ops[..|ops| - 1]), ops[|ops| - 1];
      Approvals(d, ops[..|ops| - 1]) +
      if op.ApproveOp? && op.id < |before.requests| && before.requests[op.id].status == PENDING then
        [Approval(before.requests[op.id].requester, before.requests[op.id].kind, op.actor, op.note)]
      else []
  }

  function LastApproval(history: seq<Approval>, user: UserId, kind: Kind): Option<Approval> {
    if |history| == 0 then None
    else
      var last := history[|history| - 1];
      if last.user == user && last.kind == kind then Some(last)
      else LastApproval(history[..|history| - 1], user, kind)
  }

  ghost predicate OneRowPerPair(ps: seq<Permission>) {
    forall i, j :: 0 <= i < j < |ps| ==> !(ps[i].user == ps[j].user && ps[i].kind == ps[j].kind)
  }

  function Lookup(ps: seq<Permission>, user: UserId, kind: Kind): Option<Permission> {
    match FindPermission(ps, user, kind)
    case Some(i) => Some(ps[i])
    case None => None
  }

  // The initial row of the pair with the most recent approval laid over it.
  ghost predicate Overlaid(initial: Option<Permission>, approval: Option<Approval>, row: Option<Permission>) {
    if approval.None? then row == initial
    else
      && row.Some?
      && !row.value.disabled
      && row.value.expires == None
      && row.value.grantedBy == Some(approval.value.actor)
      && row.value.reason == Some(GrantReason(approval.value.note))
      && (initial.Some? ==> row.value.id == initial.value.id)
  }

  lemma {:induction false} LookupIs(ps: seq<Permission>, i: nat)
    requires OneRowPerPair(ps) && i < |ps|
    ensures FindPermission(ps, ps[i].user, ps[i].kind) == Some(i)
  {
  }

  lemma {:induction false} GrantKeepsPairs(
    ps: seq<Permission>, user: UserId, kind: Kind, actor: UserId, note: Option<string>)
    requires OneRowPerPair(ps)
    ensures OneRowPerPair(Grant(ps, user, kind, actor, note))
  {
  }

  lemma {:induction false} GrantKeepsOtherRows(
    ps: seq<Permission>, user: UserId, kind: Kind, actor: UserId, note: Option<string>, u: UserId, k: Kind)
    requires OneRowPerPair(ps) && !(u == user && k == kind)
    ensures Lookup(Grant(ps, user, kind, actor, note), u, k) == Lookup(ps, u, k)
  {
    var qs := Grant(ps, user, kind, actor, note);
    var i := FindPermission(ps, u, k);
    GrantKeepsPairs(ps, user, kind, actor, note);
    if i.Some? {
      assert qs[i.value] == ps[i.value];
      LookupIs(qs, i.value);
    }
  }

  // One grant: the pair's row becomes the regranted one, every other pair keeps its row.
  lemma {:induction false} GrantOverlays(
    ps: seq<Permission>, user: UserId, kind: Kind, actor: UserId, note: Option<string>)
    requires OneRowPerPair(ps)
    ensures var qs := Grant(ps, user, kind, actor, note);
            && OneRowPerPair(qs)
            && (forall u, k :: !(u == user && k == kind) ==> Lookup(qs, u, k) == Lookup(ps, u, k))
            && Lookup(qs, user, kind).Some?
            && var row := Lookup(qs, user, kind).value;
               && !row.disabled && row.expires == None && row.grantedBy == Some(actor)
               && row.reason == Some(GrantReason(note))
               && (Lookup(ps, user, kind).Some? ==> row.id == Lookup(ps, user, kind).value.id)
  {
    var at := FindPermission(ps, user, kind);
    GrantKeepsPairs(ps, user, kind, actor, note);
    LookupIs(Grant(ps, user, kind, actor, note), if at.Some? then at.value else |ps|);
    forall u, k | !(u == user && k == kind)
      ensures Lookup(Grant(ps, user, kind, actor, note), u, k) == Lookup(ps, u, k) {
      GrantKeepsOtherRows(ps, user, kind, actor, note, u, k);
    }
  }

  // After any run, from any permission table, each pair's row is its initial row overlaid by
  // the most recent approval of the pair, and no pair ever has a second row.
  lemma {:induction false} TableEqualsHistory(d: Desk, ops: seq<Op>, user: UserId, kind: Kind)
    requires OneRowPerPair(d.permissions)
    ensures OneRowPerPair(Run(d, ops).permissions)
    ensures Overlaid(Lookup(d.permissions, user, kind), LastApproval(Approvals(d, ops), user, kind),
                     Lookup(Run(d, ops).permissions, user, kind))
    decreases |ops|
  {
    if |ops| == 0 {
    } else {
      var n := |ops| - 1;
      TableEqualsHistory(d, ops[..n], user, kind);
      var before, op := Run(d, ops[..n]), ops[n];
      if op.ApproveOp? && op.id < |before.requests| && before.requests[op.id].status == PENDING {
        ApprovalOverlays(d, ops, user, kind);
      } else {
        assert Approvals(d, ops) == Approvals(d, ops[..n]);
        assert Run(d, ops).permissions == before.permissions;
      }
    }
  }

  lemma {:induction false} ApprovalOverlays(d: Desk, ops: seq<Op>, user: UserId, kind: Kind)
    requires |ops| > 0
    requires var before, op := Run(d, ops[..|ops| - 1]), ops[|ops| - 1];
             && OneRowPerPair(before.permissions)
             && op.ApproveOp? && op.id < |before.requests| && before.requests[op.id].status == PENDING
             && Overlaid(Lookup(d.permissions, user, kind), LastApproval(Approvals(d, ops[..|ops| - 1]), user, kind),
                         Lookup(before.permissions, user, kind))
    ensures OneRowPerPair(Run(d, ops).permissions)
    ensures Overlaid(Lookup(d.permissions, user, kind), LastApproval(Approvals(d, ops), user, kind),
                     Lookup(Run(d, ops).permissions, user, kind))
  {
    var before, op := Run(d, ops[..|ops| - 1]), ops[|ops| - 1];
    var r := before.requests[op.id];
    GrantOverlays(before.permissions, r.requester, r.kind, op.actor, op.note);
    ApprovalsSnoc(d, ops, Approval(r.requester, r.kind, op.actor, op.note), user, kind);
  }

  lemma {:induction false} ApprovalsSnoc(d: Desk, ops: seq<Op>, a: Approval, user: UserId, kind: Kind)
    requires |ops| > 0 && Approvals(d, ops) == Approvals(d, ops[..|ops| - 1]) + [a]
    ensures LastApproval(Approvals(d, ops), user, kind) ==
            if a.user == user && a.kind == kind then Some(a)
            else LastApproval(Approvals(d, ops[..|ops| - 1]), user, kind)
  {
    assert Approvals(d, ops)[..|Approvals(d, ops)| - 1] == Approvals(d, ops[..|ops| - 1]);
  }

  // ---------------------------------------------------------------- the life of a request

  ghost predicate OnePending(rs: seq<Request>) {
    forall i, j :: 0 <= i < j < |rs| && rs[i].status == PENDING && rs[j].status == PENDING ==>
      !(rs[i].requester == rs[j].requester && rs[i].kind == rs[j].kind)
  }

  // Decision fields are set exactly for decided requests; no request is superseded.
  ghost predicate DecisionFits(r: Request) {
    && r.status != SUPERSEDED
    && (r.decidedBy.Some? <==> r.status in {APPROVED, DENIED})
    && (r.decidedAt.Some? <==> r.status in {APPROVED, DENIED})
    && (r.decisionReason.Some? ==> r.status in {APPROVED, DENIED})
  }

  ghost predicate DecisionsFit(rs: seq<Request>) {
    forall i :: 0 <= i < |rs| ==> DecisionFits(rs[i])
  }

  // An approved developer request leaves its user an active developer row and no way to ask again.
  ghost predicate DeveloperSettled(d: Desk, i: nat)
    requires i < |d.requests|
  {
    var r := d.requests[i];
    && (exists p :: 0 <= p < |d.permissions| && IsDeveloperRow(d.permissions[p], r.requester))
    && (forall j :: 0 <= j < |d.requests| && j != i && d.requests[j].requester == r.requester
                    && d.requests[j].kind == DEVELOPER ==>
          d.requests[j].status != PENDING && d.requests[j].status != APPROVED)
  }

  predicate IsDeveloperRow(p: Permission, user: UserId) {
    p.user == user && p.kind == DEVELOPER && !p.disabled && p.expires == None
  }

  predicate ApprovedDeveloper(r: Request) {
    r.kind == DEVELOPER && r.status == APPROVED
  }

  ghost predicate AllSettled(d: Desk) {
    forall i :: 0 <= i < |d.requests| && ApprovedDeveloper(d.requests[i]) ==> DeveloperSettled(d, i)
  }

  // What one step does to one existing request: nothing, or one decision on a pending one.
  ghost predicate Evolves(before: Request, after: Request) {
    && before.requester == after.requester && before.kind == after.kind && before.reason == after.reason
    && (before.status != PENDING ==> after == before)
  }

  lemma {:induction false} StepEvolves(d: Desk, op: Op)
    ensures |d.requests| <= |Next(d, op).requests| <= |d.requests| + 1
    ensures forall i :: 0 <= i < |d.requests| ==> Evolves(d.requests[i], Next(d, op).requests[i])
  {
  }

  lemma {:induction false} StepKeepsRequests(d: Desk, op: Op)
    requires OnePending(d.requests) && DecisionsFit(d.requests)
    ensures OnePending(Next(d, op).requests) && DecisionsFit(Next(d, op).requests)
  {
  }

  // An active developer row shuts the door on new developer requests of its user.
  lemma {:induction false} DeveloperRowBlocks(d: Desk, p: nat, user: UserId, reason: Option<string>, now: Time)
    requires p < |d.permissions| && IsDeveloperRow(d.permissions[p], user)
    ensures CreateRequest(d, user, DEVELOPER, reason, now) == Err(NotAllowed)
  {
    var kinds := ActiveKinds(d.permissions, user, now);
    assert Active(d.permissions[p], now);
    assert DEVELOPER in kinds;
    assert DEVELOPER in DEVELOPER_ACCESS * kinds;
  }

  lemma {:induction false} GrantKeepsDeveloperRow(
    ps: seq<Permission>, p: nat, owner: UserId, user: UserId, kind: Kind, actor: UserId, note: Option<string>)
    requires p < |ps| && IsDeveloperRow(ps[p], owner)
    ensures p < |Grant(ps, user, kind, actor, note)| && IsDeveloperRow(Grant(ps, user, kind, actor, note)[p], owner)
  {
  }

  lemma {:induction false} GrantMakesRow(ps: seq<Permission>, user: UserId, actor: UserId, note: Option<string>)
    ensures var qs := Grant(ps, user, DEVELOPER, actor, note);
            exists p :: 0 <= p < |qs| && IsDeveloperRow(qs[p], user)
  {
    var at := FindPermission(ps, user, DEVELOPER);
    var here := if at.Some? then at.value else |ps|;
    assert IsDeveloperRow(Grant(ps, user, DEVELOPER, actor, note)[here], user);
  }

  lemma {:induction false} StepKeepsDeveloperRow(d: Desk, op: Op, p: nat, owner: UserId)
    requires p < |d.permissions| && IsDeveloperRow(d.permissions[p], owner)
    ensures p < |Next(d, op).permissions| && IsDeveloperRow(Next(d, op).permissions[p], owner)
  {
    if op.ApproveOp? && op.id < |d.requests| && d.requests[op.id].status == PENDING {
      var r := d.requests[op.id];
      GrantKeepsDeveloperRow(d.permissions, p, owner, r.requester, r.kind, op.actor, op.note);
    }
  }

  // A request settled before the step stays settled.
  lemma {:induction false} StepKeepsSettled(d: Desk, op: Op, i: nat)
    requires i < |d.requests| && ApprovedDeveloper(d.requests[i]) && DeveloperSettled(d, i)
    ensures Next(d, op).requests[i] == d.requests[i] && DeveloperSettled(Next(d, op), i)
  {
    var p :| 0 <= p < |d.permissions| && IsDeveloperRow(d.permissions[p], d.requests[i].requester);
    StepKeepsDeveloperRow(d, op, p, d.requests[i].requester);
    StepEvolves(d, op);
    if op.CreateOp? && op.kind == DEVELOPER && op.user == d.requests[i].requester {
      DeveloperRowBlocks(d, p, op.user, op.reason, op.createdAt);
    }
  }

  // A developer request approved by the step is settled by it.
  lemma {:induction false} StepSettles(d: Desk, op: Op, i: nat)
    requires OnePending(d.requests) && AllSettled(d)
    requires i < |d.requests| && d.requests[i].status == PENDING && ApprovedDeveloper(Next(d, op).requests[i])
    ensures DeveloperSettled(Next(d, op), i)
  {
    var r := d.requests[i];
    GrantMakesRow(d.permissions, r.requester, op.actor, op.note);
  }

  lemma {:induction false} StepKeepsAllSettled(d: Desk, op: Op)
    requires OnePending(d.requests) && AllSettled(d)
    ensures AllSettled(Next(d, op))
  {
    var t := Next(d, op);
    StepEvolves(d, op);
    forall i | 0 <= i < |t.requests| && ApprovedDeveloper(t.requests[i]) ensures DeveloperSettled(t, i) {
      if i < |d.requests| && ApprovedDeveloper(d.requests[i]) {
        StepKeepsSettled(d, op, i);
      } else {
        StepSettles(d, op, i);
      }
    }
  }

  ghost predicate Inv(d: Desk) {
    OnePending(d.requests) && DecisionsFit(d.requests) && AllSettled(d)
  }

  lemma {:induction false} RunKeepsInv(d: Desk, ops: seq<Op>)
    requires Inv(d)
    ensures Inv(Run(d, ops))
    decreases |ops|
  {
    if |ops| == 0 {
    } else {
      RunKeepsInv(d, ops[..|ops| - 1]);
      StepKeepsRequests(Run(d, ops[..|ops| - 1]), ops[|ops| - 1]);
      StepKeepsAllSettled(Run(d, ops[..|ops| - 1]), ops[|ops| - 1]);
    }
  }

  // From an empty request table and any permission table: at most one pending request per pair,
  // decision fields exactly on decided requests, and never two approved developer requests of one user.
  lemma {:induction false} RequestLifecycle(permissions: seq<Permission>, ops: seq<Op>)
    ensures var d := Run(Desk([], permissions), ops);
            && OnePending(d.requests)
            && DecisionsFit(d.requests)
            && forall i, j :: 0 <= i < j < |d.requests| && ApprovedDeveloper(d.requests[i])
                              && ApprovedDeveloper(d.requests[j]) ==>
                 d.requests[i].requester != d.requests[j].requester
  {
    RunKeepsInv(Desk([], permissions), ops);
    var d := Run(Desk([], permissions), ops);
    forall i, j | 0 <= i < j < |d.requests| && ApprovedDeveloper(d.requests[i]) && ApprovedDeveloper(d.requests[j])
      ensures d.requests[i].requester != d.requests[j].requester {
      assert DeveloperSettled(d, i);
    }
  }

  // A decided or cancelled request is frozen for good, and nothing becomes pending again.
  lemma {:induction false} DecisionsAreFinal(d: Desk, ops: seq<Op>, i: nat)
    requires i < |d.requests|
    ensures i < |Run(d, ops).requests| && Evolves(d.requests[i], Run(d, ops).requests[i])
    ensures |d.requests| <= |Run(d, ops).requests|
    decreases |ops|
  {
    if |ops| == 0 {
    } else {
      DecisionsAreFinal(d, ops[..|ops| - 1], i);
      StepEvolves(Run(d, ops[..|ops| - 1]), ops[|ops| - 1]);
    }
  }

  // ---------------------------------------------------------------- who asked, who decided, when and why

  predicate Asks(op: Op, r: Request) {
    op.CreateOp? && op.user == r.requester && op.kind == r.kind && Cleaned(op.reason) == r.reason
  }

  predicate Undecided(r: Request) {
    r.decidedBy == None && r.decidedAt == None && r.decisionReason == None
  }

  // The call that gave the request its final status, with what it wrote down.
  predicate Settles(op: Op, id: nat, r: Request) {
    match r.status
    case PENDING => false
    case SUPERSEDED => false
    case APPROVED =>
      && op.ApproveOp? && op.id == id && r.decidedBy == Some(op.actor) && r.decidedAt == Some(op.approvedAt)
      && r.decisionReason == Cleaned(op.note)
    case DENIED =>
      && op.DenyOp? && op.id == id && r.decidedBy == Some(op.actor) && r.decidedAt == Some(op.deniedAt)
      && r.decisionReason == Cleaned(op.note)
    case CANCELLED =>
      && op.CancelOp? && op.id == id && op.canceller == r.requester
      && Undecided(r)
  }

  ghost predicate Asked(ops: seq<Op>, r: Request) {
    exists n :: 0 <= n < |ops| && Asks(ops[n], r)
  }

  ghost predicate Settled(ops: seq<Op>, id: nat, r: Request) {
    exists n :: 0 <= n < |ops| && Settles(ops[n], id, r)
  }

  ghost predicate Traced(ops: seq<Op>, id: nat, r: Request) {
    && Asked(ops, r)
    && (r.status != PENDING ==> Settled(ops, id, r))
    && (r.status == PENDING ==> Undecided(r))
  }

  lemma {:induction false} StepTraces(d: Desk, op: Op, i: nat)
    requires i < |Next(d, op).requests|
    requires i < |d.requests| && d.requests[i].status == PENDING ==>
               Undecided(d.requests[i])
    ensures var r := Next(d, op).requests[i];
            if i < |d.requests| then r == d.requests[i] || (Evolves(d.requests[i], r) && Settles(op, i, r))
            else Asks(op, r) && r.status == PENDING && Undecided(r)
  {
  }

  lemma {:induction false} TraceGrows(ops: seq<Op>, op: Op, id: nat, r: Request)
    requires Traced(ops, id, r)
    ensures Traced(ops + [op], id, r)
  {
    var n :| 0 <= n < |ops| && Asks(ops[n], r);
    assert Asks((ops + [op])[n], r);
    if r.status != PENDING {
      var k :| 0 <= k < |ops| && Settles(ops[k], id, r);
      assert Settles((ops + [op])[k], id, r);
    }
  }

  // Every request in the table was made by a call of the run with its words, and every decided or
  // cancelled one was settled by a call whose actor, moment and words it records.
  lemma {:induction false} RequestsAreTraced(permissions: seq<Permission>, ops: seq<Op>, i: nat)
    requires i < |Run(Desk([], permissions), ops).requests|
    ensures Traced(ops, i, Run(Desk([], permissions), ops).requests[i])
    decreases |ops|
  {
    if |ops| == 0 {
    } else {
      var past, op := ops[..|ops| - 1], ops[|ops| - 1];
      var before := Run(Desk([], permissions), past);
      var r := Run(Desk([], permissions), ops).requests[i];
      assert ops == past + [op];
      if i < |before.requests| {
        RequestsAreTraced(permissions, past, i);
        StepTraces(before, op, i);
        if r == before.requests[i] {
          TraceGrows(past, op, i, r);
        } else {
          assert Asked(past, r);
          var n :| 0 <= n < |past| && Asks(past[n], r);
          assert Asks(ops[n], r) && Settles(ops[|ops| - 1], i, r);
        }
      } else {
        StepTraces(before, op, i);
        assert Asks(ops[|ops| - 1], r);
      }
    }
  }

  // ---------------------------------------------------------------- only developer requests are protected

  ghost predicate NeverApprovedTwice(kind: Kind) {
    forall permissions, ops, i, j | 0 <= i < j < |Run(Desk([], permissions), ops).requests| ::
      NotBothApproved(Run(Desk([], permissions), ops).requests, i, j, kind)
  }

  predicate NotBothApproved(rs: seq<Request>, i: nat, j: nat, kind: Kind)
    requires i < |rs| && j < |rs|
  {
    !(rs[i].kind == kind && rs[j].kind == kind && rs[i].status == APPROVED && rs[j].status == APPROVED
      && rs[i].requester == rs[j].requester)
  }

  lemma {:induction false} RunThenTwo(d: Desk, ops: seq<Op>, x: Op, y: Op)
    ensures Run(d, ops + [x, y]) == Next(Next(Run(d, ops), x), y)
  {
    assert (ops + [x, y])[..|ops| + 1] == ops + [x];
    assert (ops + [x])[..|ops|] == ops;
    assert Run(d, ops + [x]) == Next(Run(d, ops), x);
  }

  // Outside developer access, a user with no pending request of the type can always ask and be approved.
  lemma {:induction false} AskAndApprove(d: Desk, kind: Kind)
    requires kind != DEVELOPER
    requires forall i :: 0 <= i < |d.requests| ==> !IsPendingOf(d.requests[i], 1, kind)
    ensures var asked := Next(d, CreateOp(1, kind, None, 0));
            var t := Next(asked, ApproveOp(|d.requests|, 2, None, 0));
            && |t.requests| == |d.requests| + 1 && t.requests[..|d.requests|] == d.requests
            && t.requests[|d.requests|].kind == kind && t.requests[|d.requests|].requester == 1
            && t.requests[|d.requests|].status == APPROVED
  {
  }

  // Ask, be approved, and do both again.
  function AskOnce(kind: Kind, id: nat): seq<Op> {
    [CreateOp(1, kind, None, 0), ApproveOp(id, 2, None, 0)]
  }

  function AskTwice(kind: Kind): seq<Op> {
    AskOnce(kind, 0) + AskOnce(kind, 1)
  }

  lemma {:induction false} AskingOnceWorks(kind: Kind)
    requires kind != DEVELOPER
    ensures var rs := Run(Desk([], []), AskOnce(kind, 0)).requests;
            |rs| == 1 && rs[0].kind == kind && rs[0].requester == 1 && rs[0].status == APPROVED
  {
    AskAndApprove(Desk([], []), kind);
    RunThenTwo(Desk([], []), [], CreateOp(1, kind, None, 0), ApproveOp(0, 2, None, 0));
    assert [] + AskOnce(kind, 0) == AskOnce(kind, 0);
  }

  lemma {:induction false} AskingAgainWorks(d: Desk, past: seq<Op>, kind: Kind)
    requires kind != DEVELOPER
    requires var rs := Run(d, past).requests;
             |rs| == 1 && rs[0].kind == kind && rs[0].requester == 1 && rs[0].status == APPROVED
    ensures var rs := Run(d, past + AskOnce(kind, 1)).requests;
            |rs| == 2 && !NotBothApproved(rs, 0, 1, kind)
  {
    var mid := Run(d, past);
    AskAndApprove(mid, kind);
    RunThenTwo(d, past, CreateOp(1, kind, None, 0), ApproveOp(1, 2, None, 0));
    var rs := Run(d, past + AskOnce(kind, 1)).requests;
    assert rs[0] == rs[..1][0] == mid.requests[0];
  }

  lemma {:induction false} AskingTwiceWorks(kind: Kind)
    requires kind != DEVELOPER
    ensures var rs := Run(Desk([], []), AskTwice(kind)).requests;
            |rs| == 2 && !NotBothApproved(rs, 0, 1, kind)
  {
    AskingOnceWorks(kind);
    AskingAgainWorks(Desk([], []), AskOnce(kind, 0), kind);
  }

  // ---------------------------------------------------------------- every allowed call takes effect

  // A request that is neither refused nor already pending is added; a pending one is approved or
  // denied by any decider, and cancelled by its requester; nothing else changes a request.
  lemma {:induction false} CallsTakeEffect(d: Desk, op: Op)
    ensures var before, after := d.requests, Next(d, op).requests;
            match op
            case CreateOp(user, kind, reason, now) =>
              var ps := d.permissions;
              if kind == DEVELOPER && exists p :: 0 <= p < |ps| && IsDeveloperGrant(ps[p], user, now) then
                after == before
              else if exists i :: 0 <= i < |before| && Waits(before[i], user, kind) then after == before
              else after == before + [Request(user, kind, Cleaned(reason), PENDING, None, None, None)]
            case ApproveOp(id, actor, note, now) =>
              after == if id < |before| && before[id].status == PENDING
                       then before[id := DecidedBy(before[id], APPROVED, actor, Cleaned(note), now)] else before
            case DenyOp(id, actor, note, now) =>
              after == if id < |before| && before[id].status == PENDING
                       then before[id := DecidedBy(before[id], DENIED, actor, Cleaned(note), now)] else before
            case CancelOp(id, user) =>
              after == if id < |before| && before[id].status == PENDING && before[id].requester == user
                       then before[id := before[id].(status := CANCELLED)] else before
  {
    match op
    case CreateOp(user, kind, reason, now) =>
      DeveloperAccessLaw(d.permissions, user, now);
      assert FindPending(d.requests, user, kind).Some? <==>
             exists i :: 0 <= i < |d.requests| && Waits(d.requests[i], user, kind) by {
        PendingIsFound(d.requests, user, kind);
      }
    case _ =>
  }

  predicate Waits(r: Request, user: UserId, kind: Kind) {
    r.requester == user && r.kind == kind && r.status == PENDING
  }

  lemma {:induction false} PendingIsFound(rs: seq<Request>, user: UserId, kind: Kind)
    ensures FindPending(rs, user, kind).Some? <==> exists i :: 0 <= i < |rs| && Waits(rs[i], user, kind)
  {
    var found := FindPending(rs, user, kind);
    if found.Some? {
      assert Waits(rs[found.value], user, kind);
    } else {
      assert forall i :: 0 <= i < |rs| ==> !IsPendingOf(rs[i], user, kind);
    }
  }

  // ---------------------------------------------------------------- the exact condition

  // Two approved requests of one user and type are impossible exactly for developer access.
  lemma {:induction false} ApprovedOnceOnlyForDevelopers(kind: Kind)
    ensures NeverApprovedTwice(kind) <==> kind == DEVELOPER
  {
    if kind == DEVELOPER {
      forall permissions, ops, i: nat, j: nat | i < j < |Run(Desk([], permissions), ops).requests|
        ensures NotBothApproved(Run(Desk([], permissions), ops).requests, i, j, kind) {
        RequestLifecycle(permissions, ops);
        var rs := Run(Desk([], permissions), ops).requests;
        if ApprovedDeveloper(rs[i]) && ApprovedDeveloper(rs[j]) { assert rs[i].requester != rs[j].requester; }
      }
    } else {
      AskingTwiceWorks(kind);
      var ops := AskTwice(kind);
      assert !NotBothApproved(Run(Desk([], []), ops).requests, 0, 1, kind);
    }
  }
}
