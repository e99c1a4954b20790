// The key table under every interleaving of its callers: administrators, verifiers that
// fetch the key set, and signers that read a key first and stamp their token later.
module OidcRotation {
  import opened Common
  import opened OidcKeys

  // exp is in whole seconds; readAt and signedAt say when the key was read and the claims stamped.
  datatype Token = Token(kid: Kid, readAt: Time, signedAt: Time, exp: int)

  // A signer that has read its key and not signed yet.
  datatype Held = Held(kid: Kid, readAt: Time)

  datatype System = System(store: Store, clock: Time, held: map<nat, Held>, issued: seq<Token>)

  // rotate_signing_key is a Create step and an Activate step, with anything in between.
  datatype Step =
    | CreateKey(material: Material, actor: string)
    | ActivateKey(kid: Kid, actor: string)
    | RetireExpired(actor: string)
    | FetchJwks(bootstrap: Material)
    | ReadKey(signer: nat, bootstrap: Material)
    | Sign(signer: nat)
    | Abandon(signer: nat)
    | Tick(elapsed: nat)

  function Init(): System {
    System(Store([], []), 0, map[], [])
  }

  function OrElse(r: Result<Store, KeyError>, s: Store): Store {
    if r.Ok? then r.value else s
  }

  function Next(cfg: Settings, s: System, step: Step): System {
    match step
    case CreateKey(m, actor) => s.(store := OrElse(Create(s.store, m, Validating, s.clock, actor), s.store))
    case ActivateKey(kid, actor) => s.(store := OrElse(Activate(cfg, s.store, kid, s.clock, actor), s.store))
    case RetireExpired(actor) => s.(store := Retire(s.store, s.clock, actor))
    case FetchJwks(m) => s.(store := OrElse(EnsureActive(s.store, m, s.clock), s.store))
    case ReadKey(signer, m) =>
      var store := OrElse(EnsureActive(s.store, m, s.clock), s.store);
      (match FirstActive(store.keys)
       case None => s.(store := store)
       case Some(at) => s.(store := store, held := s.held[signer := Held(store.keys[at].Kid(), s.clock)]))
    case Sign(signer) =>
      if signer !in s.held then s
      else
        var h := s.held[signer];
        System(SignAudit(s.store, h.kid), s.clock, s.held - {signer},
               s.issued + [Token(h.kid, h.readAt, s.clock, WholeSeconds(s.clock) + cfg.tokenTtl)])
    case Abandon(signer) => s.(held := s.held - {signer})
    case Tick(elapsed) => s.(clock := s.clock + elapsed)
  }

  function Run(cfg: Settings, s: System, steps: seq<Step>): System {
    if |steps| == 0 then s
    else Next(cfg, Run(cfg, s, steps[..|steps| - 1]), steps[|steps| - 1])
  }

  // ---------------------------------------------------------------- the audit log, replayed

  function ReplayEvent(m: map<Kid, Status>, e: Event): map<Kid, Status> {
    match e.kind
    case KeyCreated => m[e.kid := Validating]
    case KeyActivated => m[e.kid := Active]
    case KeyDemoted => m[e.kid := Validating]
    case KeyRetired => m[e.kid := OidcKeys.Retired]
    case TokenSigned => m
  }

  function Replay(log: seq<Event>): map<Kid, Status> {
    if |log| == 0 then map[]
    else ReplayEvent(Replay(log[..|log| - 1]), log[|log| - 1])
  }

  ghost predicate OneActiveAtMost(m: map<Kid, Status>) {
    forall a, b :: a in m && b in m && m[a] == Active && m[b] == Active ==> a == b
  }

  ghost predicate EveryPrefixSafe(log: seq<Event>) {
    OneActiveAtMost(Replay(log)) && (|log| > 0 ==> EveryPrefixSafe(log[..|log| - 1]))
  }

  // Every row has the status the log says ...
  ghost predicate RowsLogged(m: map<Kid, Status>, keys: seq<Key>) {
    forall i :: 0 <= i < |keys| ==> keys[i].Kid() in m && m[keys[i].Kid()] == keys[i].status
  }

  // ... and the log speaks of no other kid.
  ghost predicate NoOtherKid(m: map<Kid, Status>, keys: seq<Key>) {
    forall k :: k in m ==> HasKid(keys, k)
  }

  ghost predicate Matches(m: map<Kid, Status>, keys: seq<Key>) {
    RowsLogged(m, keys) && NoOtherKid(m, keys)
  }

  lemma {:induction false} ReplaySnoc(log: seq<Event>, e: Event)
    ensures Replay(log + [e]) == ReplayEvent(Replay(log), e)
    ensures EveryPrefixSafe(log) && OneActiveAtMost(ReplayEvent(Replay(log), e)) ==> EveryPrefixSafe(log + [e])
  {
    assert (log + [e])[..|log|] == log;
  }

  lemma {:induction false} PrefixSafeAt(log: seq<Event>, n: nat)
    requires EveryPrefixSafe(log) && n <= |log|
    ensures OneActiveAtMost(Replay(log[..n]))
    decreases |log|
  {
    if n == |log| {
      assert log[..n] == log;
    } else {
      PrefixSafeAt(log[..|log| - 1], n);
      assert log[..|log| - 1][..n] == log[..n];
    }
  }

  // ---------------------------------------------------------------- the invariant

  // Each status fixes the timestamps of its row.
  ghost predicate Shape(cfg: Settings, k: Key, clock: Time) {
    match k.status
    case Active =>
      && k.activatedAt.Some? && k.activatedAt.value <= clock
      && k.validatingSince.None? && k.retiredAfter.None? && k.retiredAt.None?
    case Validating =>
      && k.retiredAt.None?
      && (k.activatedAt.None? ==> k.validatingSince.None? && k.retiredAfter.None?)
      && (k.activatedAt.Some? ==> DemotedShape(cfg, k, clock))
    case Retired =>
      && k.activatedAt.Some? && DemotedShape(cfg, k, clock)
      && k.retiredAt.Some? && k.retiredAfter.value < k.retiredAt.value <= clock
  }

  ghost predicate DemotedShape(cfg: Settings, k: Key, clock: Time)
    requires k.activatedAt.Some?
  {
    && k.validatingSince.Some? && k.activatedAt.value <= k.validatingSince.value <= clock
    && k.retiredAfter == Some(k.validatingSince.value + Retention(cfg))
  }

  ghost predicate Shapes(cfg: Settings, keys: seq<Key>, clock: Time) {
    forall i :: 0 <= i < |keys| ==> Shape(cfg, keys[i], clock)
  }

  // No demotion of this key before moment t still counts.
  ghost predicate Since(k: Key, kid: Kid, t: Time) {
    k.Kid() == kid && (k.validatingSince.Some? ==> t <= k.validatingSince.value)
  }

  ghost predicate Covered(keys: seq<Key>, kid: Kid, t: Time) {
    exists i :: 0 <= i < |keys| && Since(keys[i], kid, t)
  }

  ghost predicate SignersCovered(s: System) {
    && (forall g :: g in s.held ==>
          s.held[g].readAt <= s.clock && Covered(s.store.keys, s.held[g].kid, s.held[g].readAt))
    && (forall i :: 0 <= i < |s.issued| ==>
          && s.issued[i].readAt <= s.issued[i].signedAt <= s.clock
          && Covered(s.store.keys, s.issued[i].kid, s.issued[i].readAt))
  }

  ghost predicate Stamps(cfg: Settings, issued: seq<Token>) {
    forall i :: 0 <= i < |issued| ==> issued[i].exp == WholeSeconds(issued[i].signedAt) + cfg.tokenTtl
  }

  ghost predicate TableInv(cfg: Settings, store: Store, clock: Time) {
    && DistinctKids(store.keys)
    && AtMostOneActive(store.keys)
    && Shapes(cfg, store.keys, clock)
    && Matches(Replay(store.log), store.keys)
    && EveryPrefixSafe(store.log)
  }

  ghost predicate Inv(cfg: Settings, s: System) {
    && s.clock >= 0
    && TableInv(cfg, s.store, s.clock)
    && SignersCovered(s)
    && Stamps(cfg, s.issued)
  }

  // ---------------------------------------------------------------- what one table change keeps

  // Old is what the moment t knew of its keys; every change of the table keeps them covered.
  ghost predicate KeepsCover(before: seq<Key>, after: seq<Key>, clock: Time) {
    forall kid, t :: t <= clock && Covered(before, kid, t) ==> Covered(after, kid, t)
  }

  lemma {:induction false} RowwiseKeepsCover(before: seq<Key>, after: seq<Key>, clock: Time)
    requires |before| <= |after|
    requires forall i :: 0 <= i < |before| ==>
               && after[i].material == before[i].material
               && (after[i].validatingSince in {None, before[i].validatingSince, Some(clock)})
    ensures KeepsCover(before, after, clock)
  {
    forall kid, t | t <= clock && Covered(before, kid, t) ensures Covered(after, kid, t) {
      var i :| 0 <= i < |before| && Since(before[i], kid, t);
      assert Since(after[i], kid, t);
    }
  }

  lemma {:induction false} CreateKeepsRows(
    cfg: Settings, s: Store, m: Material, status: Status, clock: Time, actor: string)
    requires TableInv(cfg, s, clock)
    requires status == Validating || (status == Active && !HasActive(s.keys))
    requires !HasKid(s.keys, m.kid)
    ensures var keys := s.keys + [NewKey(m, status, clock)];
            DistinctKids(keys) && AtMostOneActive(keys) && Shapes(cfg, keys, clock) && KeepsCover(s.keys, keys, clock)
  {
    var keys := s.keys + [NewKey(m, status, clock)];
    RowwiseKeepsCover(s.keys, keys, clock);
  }

  lemma {:induction false} CreateKeepsLog(keys: seq<Key>, log: seq<Event>, k: Key, actor: string)
    requires Matches(Replay(log), keys) && EveryPrefixSafe(log)
    requires k.status == Validating || (k.status == Active && !HasActive(keys))
    requires !HasKid(keys, k.Kid())
    ensures var more := log + CreationEvents(k.Kid(), k.status, actor);
            Replay(more) == Replay(log)[k.Kid() := k.status] && EveryPrefixSafe(more)
  {
    var created := Event(KeyCreated, k.Kid(), actor);
    ReplaySnoc(log, created);
    if k.status == Active {
      var activated := Event(KeyActivated, k.Kid(), actor);
      ReplaySnoc(log + [created], activated);
      assert log + CreationEvents(k.Kid(), k.status, actor) == log + [created] + [activated];
      forall a | a in Replay(log) ensures Replay(log)[a] != Active {
        var i :| 0 <= i < |keys| && keys[i].Kid() == a;
      }
    }
  }

  lemma {:induction false} MatchesSnoc(m: map<Kid, Status>, keys: seq<Key>, k: Key)
    requires Matches(m, keys) && !HasKid(keys, k.Kid())
    ensures Matches(m[k.Kid() := k.status], keys + [k])
  {
    var more := keys + [k];
    assert more[|keys|].Kid() == k.Kid();
    forall a | a in m ensures HasKid(more, a) {
      var i :| 0 <= i < |keys| && keys[i].Kid() == a;
      assert more[i].Kid() == a;
    }
  }

  lemma {:induction false} CreateKeeps(cfg: Settings, s: Store, m: Material, status: Status, clock: Time, actor: string)
    requires TableInv(cfg, s, clock)
    requires status == Validating || (status == Active && !HasActive(s.keys))
    requires Create(s, m, status, clock, actor).Ok?
    ensures TableInv(cfg, Create(s, m, status, clock, actor).value, clock)
    ensures KeepsCover(s.keys, Create(s, m, status, clock, actor).value.keys, clock)
  {
    CreateKeepsRows(cfg, s, m, status, clock, actor);
    CreateKeepsLog(s.keys, s.log, NewKey(m, status, clock), actor);
    MatchesSnoc(Replay(s.log), s.keys, NewKey(m, status, clock));
  }

  // Appending a demotion or a retirement never adds an active key.
  lemma {:induction false} AppendInactive(log: seq<Event>, e: Event)
    requires EveryPrefixSafe(log) && e.kind in {KeyDemoted, KeyRetired}
    ensures EveryPrefixSafe(log + [e])
    ensures Replay(log + [e]) == Replay(log)[e.kid := if e.kind == KeyDemoted then Validating else OidcKeys.Retired]
  {
    ReplaySnoc(log, e);
  }

  // With distinct kids, an event about one row changes no other row's status.
  lemma {:induction false} OnlyThatRow(
    before: map<Kid, Status>, after: map<Kid, Status>, keys: seq<Key>, n: nat, status: Status)
    requires DistinctKids(keys) && n < |keys| && keys[n].Kid() in before && after == before[keys[n].Kid() := status]
    ensures after.Keys == before.Keys && after[keys[n].Kid()] == status
    ensures forall i :: 0 <= i < |keys| && i != n && keys[i].Kid() in before ==>
              after[keys[i].Kid()] == before[keys[i].Kid()]
  {
    assert forall i :: 0 <= i < |keys| && i != n ==> keys[i].Kid() != keys[n].Kid();
  }

  // The status of row i once the first n rows have been passed over by the demotion loop.
  function MidStatus(keys: seq<Key>, kid: Kid, n: nat, i: nat): Status
    requires i < |keys|
  {
    if i < n && Displaced(keys[i], kid) then Validating else keys[i].status
  }

  // One turn of the demotion loop, as the log tells it.
  lemma {:induction false} DemotionReplays(mid: seq<Event>, keys: seq<Key>, kid: Kid, actor: string, n: nat)
    requires n < |keys| && DistinctKids(keys) && EveryPrefixSafe(mid)
    requires forall i :: 0 <= i < |keys| ==>
               keys[i].Kid() in Replay(mid) && Replay(mid)[keys[i].Kid()] == MidStatus(keys, kid, n, i)
    ensures var after := mid + if Displaced(keys[n], kid) then [Event(KeyDemoted, keys[n].Kid(), actor)] else [];
            && EveryPrefixSafe(after) && Replay(after).Keys == Replay(mid).Keys
            && forall i :: 0 <= i < |keys| ==> Replay(after)[keys[i].Kid()] == MidStatus(keys, kid, n + 1, i)
  {
    if Displaced(keys[n], kid) {
      var e := Event(KeyDemoted, keys[n].Kid(), actor);
      AppendInactive(mid, e);
      OnlyThatRow(Replay(mid), Replay(mid + [e]), keys, n, Validating);
    } else {
      assert mid + [] == mid;
    }
  }

  // The log once the demotion loop has passed over n rows.
  function DemotionLog(log: seq<Event>, keys: seq<Key>, kid: Kid, actor: string, n: nat): seq<Event>
    requires n <= |keys|
  {
    if n == 0 then log
    else
      DemotionLog(log, keys, kid, actor, n - 1) +
      if Displaced(keys[n - 1], kid) then [Event(KeyDemoted, keys[n - 1].Kid(), actor)] else []
  }

  lemma {:induction false} DemotionLogIs(log: seq<Event>, keys: seq<Key>, kid: Kid, actor: string, n: nat)
    requires n <= |keys|
    ensures DemotionLog(log, keys, kid, actor, n) == log + DemotionEvents(keys[..n], kid, actor)
    decreases n
  {
    if n == 0 {
    } else {
      DemotionLogIs(log, keys, kid, actor, n - 1);
      DemotionEventsNext(keys, kid, actor, n - 1);
    }
  }

  lemma {:induction false} DemotionsReplay(log: seq<Event>, keys: seq<Key>, kid: Kid, actor: string, n: nat)
    requires n <= |keys|
    requires DistinctKids(keys) && RowsLogged(Replay(log), keys) && EveryPrefixSafe(log)
    ensures var all := DemotionLog(log, keys, kid, actor, n);
            && EveryPrefixSafe(all)
            && Replay(all).Keys == Replay(log).Keys
            && forall i :: 0 <= i < |keys| ==> Replay(all)[keys[i].Kid()] == MidStatus(keys, kid, n, i)
    decreases n
  {
    if n == 0 {
    } else {
      DemotionsReplay(log, keys, kid, actor, n - 1);
      DemotionReplays(DemotionLog(log, keys, kid, actor, n - 1), keys, kid, actor, n - 1);
    }
  }

  lemma {:induction false} ActivateKeepsRows(cfg: Settings, s: Store, kid: Kid, clock: Time, actor: string)
    requires DistinctKids(s.keys) && Shapes(cfg, s.keys, clock)
    requires Activate(cfg, s, kid, clock, actor).Ok?
    ensures var t := Activate(cfg, s, kid, clock, actor).value.keys;
            Shapes(cfg, t, clock) && KeepsCover(s.keys, t, clock) && DistinctKids(t)
  {
    var t := Activate(cfg, s, kid, clock, actor).value.keys;
    var at := IndexOf(s.keys, kid).value;
    forall i | 0 <= i < |t|
      ensures Shape(cfg, t[i], clock) && t[i].material == s.keys[i].material
              && t[i].validatingSince in {None, s.keys[i].validatingSince, Some(clock)} {
      assert Shape(cfg, s.keys[i], clock);
      if i != at { assert t[i] == DemoteOther(cfg, s.keys[i], kid, clock); }
    }
    RowwiseKeepsCover(s.keys, t, clock);
    SameKids(s.keys, t);
  }

  // After the demotions only the kid itself can still be active.
  lemma {:induction false} DemotionsClearTheWay(log: seq<Event>, keys: seq<Key>, kid: Kid, actor: string)
    requires DistinctKids(keys) && Matches(Replay(log), keys) && EveryPrefixSafe(log)
    ensures var mid := log + DemotionEvents(keys, kid, actor);
            && EveryPrefixSafe(mid)
            && Replay(mid).Keys == Replay(log).Keys
            && (forall i :: 0 <= i < |keys| ==> Replay(mid)[keys[i].Kid()] == MidStatus(keys, kid, |keys|, i))
            && (forall a :: a in Replay(mid) && a != kid ==> Replay(mid)[a] != Active)
  {
    DemotionsReplay(log, keys, kid, actor, |keys|);
    DemotionLogIs(log, keys, kid, actor, |keys|);
    assert keys[..|keys|] == keys;
    var mid := log + DemotionEvents(keys, kid, actor);
    forall a | a in Replay(mid) && a != kid ensures Replay(mid)[a] != Active {
      assert HasKid(keys, a);
      var i :| 0 <= i < |keys| && keys[i].Kid() == a;
      assert Replay(mid)[a] == MidStatus(keys, kid, |keys|, i);
    }
  }

  lemma {:induction false} ActivateKeepsLog(cfg: Settings, s: Store, kid: Kid, clock: Time, actor: string)
    requires DistinctKids(s.keys) && Matches(Replay(s.log), s.keys) && EveryPrefixSafe(s.log)
    requires Activate(cfg, s, kid, clock, actor).Ok?
    ensures var t := Activate(cfg, s, kid, clock, actor).value;
            Matches(Replay(t.log), t.keys) && EveryPrefixSafe(t.log)
  {
    var t := Activate(cfg, s, kid, clock, actor).value;
    var mid := s.log + DemotionEvents(s.keys, kid, actor);
    DemotionsClearTheWay(s.log, s.keys, kid, actor);
    ActivationReplays(mid, kid, actor);
    assert t.log == mid + [Event(KeyActivated, kid, actor)];
    ActivatedStatuses(cfg, s, kid, clock, actor, Replay(mid));
    SameKids(s.keys, t.keys);
    KidsStillKnown(Replay(s.log), Replay(t.log), s.keys, t.keys, {kid});
  }

  lemma {:induction false} ActivationReplays(mid: seq<Event>, kid: Kid, actor: string)
    requires EveryPrefixSafe(mid) && forall a :: a in Replay(mid) && a != kid ==> Replay(mid)[a] != Active
    ensures var log := mid + [Event(KeyActivated, kid, actor)];
            Replay(log) == Replay(mid)[kid := Active] && EveryPrefixSafe(log)
  {
    ReplaySnoc(mid, Event(KeyActivated, kid, actor));
  }

  lemma {:induction false} KidsStillKnown(
    before: map<Kid, Status>, after: map<Kid, Status>, keys: seq<Key>, keys': seq<Key>, extra: set<Kid>)
    requires NoOtherKid(before, keys) && after.Keys <= before.Keys + extra
    requires forall k :: k in extra ==> HasKid(keys, k)
    requires forall k :: HasKid(keys, k) <==> HasKid(keys', k)
    ensures NoOtherKid(after, keys')
  {
  }

  lemma {:induction false} ActivatedStatuses(
    cfg: Settings, s: Store, kid: Kid, clock: Time, actor: string, mid: map<Kid, Status>)
    requires DistinctKids(s.keys) && Activate(cfg, s, kid, clock, actor).Ok?
    requires forall i :: 0 <= i < |s.keys| ==>
               s.keys[i].Kid() in mid && mid[s.keys[i].Kid()] == MidStatus(s.keys, kid, |s.keys|, i)
    ensures var t := Activate(cfg, s, kid, clock, actor).value.keys;
            && RowsLogged(mid[kid := Active], t)
            && |t| == |s.keys| && forall i :: 0 <= i < |t| ==> t[i].material == s.keys[i].material
  {
    var at := IndexOf(s.keys, kid).value;
    var t := Activate(cfg, s, kid, clock, actor).value.keys;
    forall i | 0 <= i < |t|
      ensures t[i].material == s.keys[i].material && t[i].Kid() in mid[kid := Active]
              && mid[kid := Active][t[i].Kid()] == t[i].status {
      if i != at { assert s.keys[i].Kid() != s.keys[at].Kid(); }
    }
  }

  lemma {:induction false} ActivateKeeps(cfg: Settings, s: Store, kid: Kid, clock: Time, actor: string)
    requires TableInv(cfg, s, clock)
    requires Activate(cfg, s, kid, clock, actor).Ok?
    ensures TableInv(cfg, Activate(cfg, s, kid, clock, actor).value, clock)
    ensures KeepsCover(s.keys, Activate(cfg, s, kid, clock, actor).value.keys, clock)
    ensures HasActive(Activate(cfg, s, kid, clock, actor).value.keys)
  {
    ActivationLeavesExactlyOne(cfg, s, kid, clock, actor);
    ActivateKeepsRows(cfg, s, kid, clock, actor);
    ActivateKeepsLog(cfg, s, kid, clock, actor);
  }

  lemma {:induction false} SameKids(before: seq<Key>, after: seq<Key>)
    requires |before| == |after|
    requires forall i :: 0 <= i < |before| ==> after[i].material == before[i].material
    ensures forall k :: HasKid(before, k) <==> HasKid(after, k)
    ensures DistinctKids(before) ==> DistinctKids(after)
  {
    forall k ensures HasKid(before, k) <==> HasKid(after, k) {
      if HasKid(before, k) {
        var i :| 0 <= i < |before| && before[i].Kid() == k;
        assert after[i].Kid() == k;
      }
    }
  }

  // The status of row i once the first n rows have been passed over by the retirement loop.
  function LateStatus(keys: seq<Key>, now: Time, n: nat, i: nat): Status
    requires i < |keys|
  {
    if i < n && Expired(keys[i], now) then OidcKeys.Retired else keys[i].status
  }

  // One turn of the retirement loop, as the log tells it.
  lemma {:induction false} RetirementReplays(mid: seq<Event>, keys: seq<Key>, now: Time, actor: string, n: nat)
    requires n < |keys| && DistinctKids(keys) && EveryPrefixSafe(mid)
    requires forall i :: 0 <= i < |keys| ==>
               keys[i].Kid() in Replay(mid) && Replay(mid)[keys[i].Kid()] == LateStatus(keys, now, n, i)
    ensures var after := mid + if Expired(keys[n], now) then [Event(KeyRetired, keys[n].Kid(), actor)] else [];
            && EveryPrefixSafe(after) && Replay(after).Keys == Replay(mid).Keys
            && forall i :: 0 <= i < |keys| ==> Replay(after)[keys[i].Kid()] == LateStatus(keys, now, n + 1, i)
  {
    if Expired(keys[n], now) {
      var e := Event(KeyRetired, keys[n].Kid(), actor);
      AppendInactive(mid, e);
      OnlyThatRow(Replay(mid), Replay(mid + [e]), keys, n, OidcKeys.Retired);
    } else {
      assert mid + [] == mid;
    }
  }

  // The log once the retirement loop has passed over n rows.
  function RetirementLog(log: seq<Event>, keys: seq<Key>, now: Time, actor: string, n: nat): seq<Event>
    requires n <= |keys|
  {
    if n == 0 then log
    else
      RetirementLog(log, keys, now, actor, n - 1) +
      if Expired(keys[n - 1], now) then [Event(KeyRetired, keys[n - 1].Kid(), actor)] else []
  }

  lemma {:induction false} RetirementLogIs(log: seq<Event>, keys: seq<Key>, now: Time, actor: string, n: nat)
    requires n <= |keys|
    ensures RetirementLog(log, keys, now, actor, n) == log + RetirementEvents(keys[..n], now, actor)
    decreases n
  {
    if n == 0 {
    } else {
      RetirementLogIs(log, keys, now, actor, n - 1);
      RetirementEventsNext(keys, now, actor, n - 1);
    }
  }

  lemma {:induction false} RetirementsReplay(log: seq<Event>, keys: seq<Key>, now: Time, actor: string, n: nat)
    requires n <= |keys|
    requires DistinctKids(keys) && RowsLogged(Replay(log), keys) && EveryPrefixSafe(log)
    ensures var all := RetirementLog(log, keys, now, actor, n);
            && EveryPrefixSafe(all)
            && Replay(all).Keys == Replay(log).Keys
            && forall i :: 0 <= i < |keys| ==> Replay(all)[keys[i].Kid()] == LateStatus(keys, now, n, i)
    decreases n
  {
    if n == 0 {
    } else {
      RetirementsReplay(log, keys, now, actor, n - 1);
      RetirementReplays(RetirementLog(log, keys, now, actor, n - 1), keys, now, actor, n - 1);
    }
  }

  lemma {:induction false} RetireKeepsShape(cfg: Settings, k: Key, clock: Time)
    requires Shape(cfg, k, clock)
    ensures Shape(cfg, RetireKey(k, clock), clock)
  {
  }

  lemma {:induction false} RetireKeepsRows(cfg: Settings, keys: seq<Key>, clock: Time)
    requires Shapes(cfg, keys, clock) && DistinctKids(keys)
    ensures var t := RetireKeys(keys, clock);
            Shapes(cfg, t, clock) && KeepsCover(keys, t, clock) && DistinctKids(t)
  {
    var t := RetireKeys(keys, clock);
    forall i | 0 <= i < |t| ensures Shape(cfg, t[i], clock) {
      RetireKeepsShape(cfg, keys[i], clock);
    }
    RowwiseKeepsCover(keys, t, clock);
    SameKids(keys, t);
  }

  lemma {:induction false} RetireKeepsActive(keys: seq<Key>, clock: Time)
    ensures AtMostOneActive(keys) ==> AtMostOneActive(RetireKeys(keys, clock))
    ensures HasActive(keys) ==> HasActive(RetireKeys(keys, clock))
  {
    var t := RetireKeys(keys, clock);
    assert forall i :: 0 <= i < |t| ==> (t[i].status == Active <==> keys[i].status == Active);
    if HasActive(keys) {
      var i :| 0 <= i < |keys| && keys[i].status == Active;
      assert t[i].status == Active;
    }
  }

  lemma {:induction false} RetireKeeps(cfg: Settings, s: Store, clock: Time, actor: string)
    requires TableInv(cfg, s, clock)
    ensures TableInv(cfg, Retire(s, clock, actor), clock)
    ensures KeepsCover(s.keys, Retire(s, clock, actor).keys, clock)
    ensures HasActive(s.keys) ==> HasActive(Retire(s, clock, actor).keys)
  {
    RetireKeepsRows(cfg, s.keys, clock);
    RetireKeepsActive(s.keys, clock);
    RetireKeepsLog(s, clock, actor);
  }

  // What the log says after the retirements is what the table has.
  lemma {:induction false} RetirementsMatchRows(log: seq<Event>, keys: seq<Key>, now: Time, actor: string)
    requires DistinctKids(keys) && RowsLogged(Replay(log), keys) && EveryPrefixSafe(log)
    ensures var all := log + RetirementEvents(keys, now, actor);
            && EveryPrefixSafe(all) && Replay(all).Keys == Replay(log).Keys
            && RowsLogged(Replay(all), RetireKeys(keys, now))
  {
    RetirementsReplay(log, keys, now, actor, |keys|);
    RetirementLogIs(log, keys, now, actor, |keys|);
    assert keys[..|keys|] == keys;
    RetiredStatuses(keys, Replay(log + RetirementEvents(keys, now, actor)), now);
  }

  lemma {:induction false} RetireKeepsLog(s: Store, clock: Time, actor: string)
    requires DistinctKids(s.keys) && Matches(Replay(s.log), s.keys) && EveryPrefixSafe(s.log)
    ensures var t := Retire(s, clock, actor);
            Matches(Replay(t.log), t.keys) && EveryPrefixSafe(t.log)
  {
    var after, log := RetireKeys(s.keys, clock), s.log + RetirementEvents(s.keys, clock, actor);
    RetirementsMatchRows(s.log, s.keys, clock, actor);
    SameKids(s.keys, after);
    KidsStillKnown(Replay(s.log), Replay(log), s.keys, after, {});
  }

  lemma {:induction false} RetiredStatuses(keys: seq<Key>, m: map<Kid, Status>, clock: Time)
    requires forall i :: 0 <= i < |keys| ==>
               keys[i].Kid() in m && m[keys[i].Kid()] == LateStatus(keys, clock, |keys|, i)
    ensures RowsLogged(m, RetireKeys(keys, clock))
  {
    var t := RetireKeys(keys, clock);
    forall i | 0 <= i < |t| ensures t[i].Kid() in m && m[t[i].Kid()] == t[i].status {
      assert m[keys[i].Kid()] == LateStatus(keys, clock, |keys|, i);
    }
  }

  lemma {:induction false} EnsureKeeps(cfg: Settings, s: Store, m: Material, clock: Time)
    requires TableInv(cfg, s, clock)
    ensures TableInv(cfg, OrElse(EnsureActive(s, m, clock), s), clock)
    ensures KeepsCover(s.keys, OrElse(EnsureActive(s, m, clock), s).keys, clock)
    ensures HasActive(s.keys) ==> HasActive(OrElse(EnsureActive(s, m, clock), s).keys)
  {
    if !HasActive(s.keys) && !HasKid(s.keys, m.kid) { CreateKeeps(cfg, s, m, Active, clock, SYSTEM); }
  }

  lemma {:induction false} SignKeeps(cfg: Settings, s: Store, kid: Kid, clock: Time)
    requires TableInv(cfg, s, clock)
    ensures TableInv(cfg, SignAudit(s, kid), clock)
  {
    ReplaySnoc(s.log, Event(TokenSigned, kid, SYSTEM));
  }

  // What every step does to the table, whichever step it is.
  lemma {:induction false} StepKeepsTable(cfg: Settings, s: System, step: Step)
    requires s.clock >= 0 && TableInv(cfg, s.store, s.clock)
    ensures var t := Next(cfg, s, step);
            && s.clock <= t.clock
            && TableInv(cfg, t.store, t.clock)
            && KeepsCover(s.store.keys, t.store.keys, s.clock)
            && (HasActive(s.store.keys) ==> HasActive(t.store.keys))
  {
    match step
    case CreateKey(m, actor) =>
      if Create(s.store, m, Validating, s.clock, actor).Ok? {
        CreateKeeps(cfg, s.store, m, Validating, s.clock, actor);
        if HasActive(s.store.keys) { AppendingKeepsActive(s.store.keys, NewKey(m, Validating, s.clock)); }
      }
    case ActivateKey(kid, actor) =>
      if Activate(cfg, s.store, kid, s.clock, actor).Ok? { ActivateKeeps(cfg, s.store, kid, s.clock, actor); }
    case RetireExpired(actor) => RetireKeeps(cfg, s.store, s.clock, actor);
    case FetchJwks(m) => EnsureKeeps(cfg, s.store, m, s.clock);
    case ReadKey(signer, m) => EnsureKeeps(cfg, s.store, m, s.clock);
    case Sign(signer) => if signer in s.held { SignKeeps(cfg, s.store, s.held[signer].kid, s.clock); }
    case Abandon(signer) =>
    case Tick(elapsed) => TimeKeepsShapes(cfg, s.store.keys, s.clock, elapsed);
  }

  lemma {:induction false} AppendingKeepsActive(keys: seq<Key>, k: Key)
    requires HasActive(keys)
    ensures HasActive(keys + [k])
  {
    var i :| 0 <= i < |keys| && keys[i].status == Active;
    assert (keys + [k])[i].status == Active;
  }

  lemma {:induction false} TimeKeepsShapes(cfg: Settings, keys: seq<Key>, clock: Time, elapsed: nat)
    requires Shapes(cfg, keys, clock)
    ensures Shapes(cfg, keys, clock + elapsed)
  {
    forall i | 0 <= i < |keys| ensures Shape(cfg, keys[i], clock + elapsed) {
      assert Shape(cfg, keys[i], clock);
    }
  }

  lemma {:induction false} StepKeepsHeld(cfg: Settings, s: System, step: Step, g: nat)
    requires s.clock <= Next(cfg, s, step).clock
    requires KeepsCover(s.store.keys, Next(cfg, s, step).store.keys, s.clock)
    requires Shapes(cfg, Next(cfg, s, step).store.keys, Next(cfg, s, step).clock)
    requires g in s.held ==> s.held[g].readAt <= s.clock && Covered(s.store.keys, s.held[g].kid, s.held[g].readAt)
    requires g in Next(cfg, s, step).held
    ensures var t := Next(cfg, s, step);
            t.held[g].readAt <= t.clock && Covered(t.store.keys, t.held[g].kid, t.held[g].readAt)
  {
    var t := Next(cfg, s, step);
    if step.ReadKey? && g == step.signer && HasActive(t.store.keys) {
      var at := FirstActive(t.store.keys).value;
      assert Shape(cfg, t.store.keys[at], t.clock);
      assert Since(t.store.keys[at], t.held[g].kid, t.held[g].readAt);
    }
  }

  lemma {:induction false} StepKeepsIssued(cfg: Settings, s: System, step: Step, i: nat)
    requires SignersCovered(s) && s.clock <= Next(cfg, s, step).clock
    requires KeepsCover(s.store.keys, Next(cfg, s, step).store.keys, s.clock)
    requires i < |Next(cfg, s, step).issued|
    ensures var t := Next(cfg, s, step);
            && t.issued[i].readAt <= t.issued[i].signedAt <= t.clock
            && Covered(t.store.keys, t.issued[i].kid, t.issued[i].readAt)
  {
    var t := Next(cfg, s, step);
    if i < |s.issued| {
      assert t.issued[i] == s.issued[i];
      assert Covered(s.store.keys, s.issued[i].kid, s.issued[i].readAt);
    } else {
      assert Covered(s.store.keys, s.held[step.signer].kid, s.held[step.signer].readAt);
    }
  }

  lemma {:induction false} StepKeepsStamps(cfg: Settings, s: System, step: Step)
    requires Stamps(cfg, s.issued)
    ensures Stamps(cfg, Next(cfg, s, step).issued)
  {
  }

  lemma {:induction false} StepKeepsSigners(cfg: Settings, s: System, step: Step)
    requires SignersCovered(s) && s.clock <= Next(cfg, s, step).clock
    requires KeepsCover(s.store.keys, Next(cfg, s, step).store.keys, s.clock)
    requires Shapes(cfg, Next(cfg, s, step).store.keys, Next(cfg, s, step).clock)
    ensures SignersCovered(Next(cfg, s, step))
  {
    var t := Next(cfg, s, step);
    forall g | g in t.held
      ensures t.held[g].readAt <= t.clock && Covered(t.store.keys, t.held[g].kid, t.held[g].readAt) {
      StepKeepsHeld(cfg, s, step, g);
    }
    forall i | 0 <= i < |t.issued|
      ensures t.issued[i].readAt <= t.issued[i].signedAt <= t.clock
              && Covered(t.store.keys, t.issued[i].kid, t.issued[i].readAt) {
      StepKeepsIssued(cfg, s, step, i);
    }
  }

  lemma {:induction false} StepKeepsInv(cfg: Settings, s: System, step: Step)
    requires Inv(cfg, s)
    ensures Inv(cfg, Next(cfg, s, step))
  {
    StepKeepsTable(cfg, s, step);
    StepKeepsStamps(cfg, s, step);
    StepKeepsSigners(cfg, s, step);
  }

  lemma {:induction false} RunKeepsInv(cfg: Settings, s: System, steps: seq<Step>)
    requires Inv(cfg, s)
    ensures Inv(cfg, Run(cfg, s, steps))
    decreases |steps|
  {
    if |steps| == 0 {
    } else {
      RunKeepsInv(cfg, s, steps[..|steps| - 1]);
      StepKeepsInv(cfg, Run(cfg, s, steps[..|steps| - 1]), steps[|steps| - 1]);
    }
  }

  // ---------------------------------------------------------------- main results

  // In every run from the empty table: distinct kids, at most one active row, timestamps
  // fixed by the status, and an audit log that replays to the table and is safe at every prefix.
  lemma {:induction false} TableInvariant(cfg: Settings, steps: seq<Step>)
    ensures var s := Run(cfg, Init(), steps);
            && DistinctKids(s.store.keys)
            && AtMostOneActive(s.store.keys)
            && Shapes(cfg, s.store.keys, s.clock)
            && Matches(Replay(s.store.log), s.store.keys)
            && forall n :: 0 <= n <= |s.store.log| ==> OneActiveAtMost(Replay(s.store.log[..n]))
  {
    RunKeepsInv(cfg, Init(), steps);
    var log := Run(cfg, Init(), steps).store.log;
    forall n | 0 <= n <= |log| ensures OneActiveAtMost(Replay(log[..n])) {
      PrefixSafeAt(log, n);
    }
  }

  // A covered key cannot have been retired before its retention has run out.
  lemma {:induction false} CoveredIsPublished(cfg: Settings, s: System, kid: Kid, t: Time)
    requires Inv(cfg, s) && Covered(s.store.keys, kid, t)
    requires s.clock <= t + Retention(cfg)
    ensures kid in Published(s.store.keys)
  {
    PublishedExactly(s.store.keys, kid);
    var i :| 0 <= i < |s.store.keys| && Since(s.store.keys[i], kid, t);
    assert Shape(cfg, s.store.keys[i], s.clock);
  }

  // Until retention after the key was read, every issued token's kid is published.
  lemma {:induction false} PublishedWhileRetained(cfg: Settings, steps: seq<Step>, i: nat)
    requires i < |Run(cfg, Init(), steps).issued|
    requires Run(cfg, Init(), steps).clock <= Run(cfg, Init(), steps).issued[i].readAt + Retention(cfg)
    ensures Run(cfg, Init(), steps).issued[i].kid in Published(Run(cfg, Init(), steps).store.keys)
  {
    RunKeepsInv(cfg, Init(), steps);
    var s := Run(cfg, Init(), steps);
    CoveredIsPublished(cfg, s, s.issued[i].kid, s.issued[i].readAt);
  }

  // The kids a get_jwks call returns in this state: the call bootstraps an active key if there is none.
  function JwksSeen(cfg: Settings, s: System, bootstrap: Material): seq<Kid> {
    Published(Next(cfg, s, FetchJwks(bootstrap)).store.keys)
  }

  // Signing without a gap: the kid is in the key set at every moment up to exp + C + M.
  lemma {:induction false} RotationSafety(cfg: Settings, steps: seq<Step>, i: nat, bootstrap: Material)
    requires var s := Run(cfg, Init(), steps);
             i < |s.issued| && s.issued[i].readAt == s.issued[i].signedAt
             && s.clock <= (s.issued[i].exp + cfg.cacheTtl + cfg.margin) * SECOND
    ensures var s := Run(cfg, Init(), steps);
            s.issued[i].kid in JwksSeen(cfg, s, bootstrap)
  {
    RunKeepsInv(cfg, Init(), steps);
    var s := Run(cfg, Init(), steps);
    FetchSees(cfg, steps, i, bootstrap);
  }

  // A signer that held its key for at most C + M seconds: the kid is in the key set up to exp.
  lemma {:induction false} InFlightSafety(cfg: Settings, steps: seq<Step>, i: nat, bootstrap: Material)
    requires var s := Run(cfg, Init(), steps);
             i < |s.issued|
             && s.issued[i].signedAt - s.issued[i].readAt <= (cfg.cacheTtl + cfg.margin) * SECOND
             && s.clock <= s.issued[i].exp * SECOND
    ensures var s := Run(cfg, Init(), steps);
            s.issued[i].kid in JwksSeen(cfg, s, bootstrap)
  {
    RunKeepsInv(cfg, Init(), steps);
    FetchSees(cfg, steps, i, bootstrap);
  }

  lemma {:induction false} FetchSees(cfg: Settings, steps: seq<Step>, i: nat, bootstrap: Material)
    requires i < |Run(cfg, Init(), steps).issued|
    requires Run(cfg, Init(), steps).clock <= Run(cfg, Init(), steps).issued[i].readAt + Retention(cfg)
    ensures Run(cfg, Init(), steps).issued[i].kid in JwksSeen(cfg, Run(cfg, Init(), steps), bootstrap)
  {
    var more := steps + [FetchJwks(bootstrap)];
    assert more[..|more| - 1] == steps;
    PublishedWhileRetained(cfg, more, i);
  }

  lemma {:induction false} RunAppend(cfg: Settings, s: System, a: seq<Step>, b: seq<Step>)
    ensures Run(cfg, s, a + b) == Run(cfg, Run(cfg, s, a), b)
    decreases |b|
  {
    if |b| == 0 {
      assert a + b == a;
    } else {
      RunAppend(cfg, s, a, b[..|b| - 1]);
      assert (a + b)[..|a + b| - 1] == a + b[..|b| - 1];
    }
  }

  // Once a key has been active, every later state has an active key.
  lemma {:induction false} NeverZeroAgain(cfg: Settings, past: seq<Step>, future: seq<Step>)
    requires HasActive(Run(cfg, Init(), past).store.keys)
    ensures HasActive(Run(cfg, Init(), past + future).store.keys)
    decreases |future|
  {
    if |future| == 0 {
      assert past + future == past;
    } else {
      var n := |future| - 1;
      NeverZeroAgain(cfg, past, future[..n]);
      assert (past + future)[..|past + future| - 1] == past + future[..n];
      RunKeepsInv(cfg, Init(), past + future[..n]);
      StepKeepsTable(cfg, Run(cfg, Init(), past + future[..n]), future[n]);
    }
  }

  // A retired row stays exactly as it is, in every later state.
  lemma {:induction false} RetirementIsFinal(cfg: Settings, s: System, steps: seq<Step>, i: nat)
    requires i < |s.store.keys| && s.store.keys[i].status == OidcKeys.Retired && DistinctKids(s.store.keys)
    ensures var t := Run(cfg, s, steps).store.keys;
            |s.store.keys| <= |t| && t[i] == s.store.keys[i] && DistinctKids(t)
    decreases |steps|
  {
    if |steps| == 0 {
    } else {
      var mid := Run(cfg, s, steps[..|steps| - 1]);
      var step := steps[|steps| - 1];
      RetirementIsFinal(cfg, s, steps[..|steps| - 1], i);
      RetiredRowUntouched(cfg, mid, step, i);
    }
  }

  lemma {:induction false} RetiredRowUntouched(cfg: Settings, s: System, step: Step, i: nat)
    requires i < |s.store.keys| && s.store.keys[i].status == OidcKeys.Retired && DistinctKids(s.store.keys)
    ensures var t := Next(cfg, s, step).store.keys;
            |s.store.keys| <= |t| && t[i] == s.store.keys[i] && DistinctKids(t)
  {
    if step.ActivateKey? && Activate(cfg, s.store, step.kid, s.clock, step.actor).Ok? {
      ActivationLeavesExactlyOne(cfg, s.store, step.kid, s.clock, step.actor);
    }
  }

  // ---------------------------------------------------------------- rotation in two transactions

  lemma {:induction false} CoverLasts(cfg: Settings, s: System, steps: seq<Step>, kid: Kid, t: Time)
    requires Inv(cfg, s) && t <= s.clock && Covered(s.store.keys, kid, t)
    ensures Covered(Run(cfg, s, steps).store.keys, kid, t)
    ensures s.clock <= Run(cfg, s, steps).clock
    decreases |steps|
  {
    if |steps| == 0 {
    } else {
      CoverLasts(cfg, s, steps[..|steps| - 1], kid, t);
      RunKeepsInv(cfg, s, steps[..|steps| - 1]);
      StepKeepsTable(cfg, Run(cfg, s, steps[..|steps| - 1]), steps[|steps| - 1]);
    }
  }

  lemma {:induction false} CoveredCanActivate(cfg: Settings, s: System, kid: Kid, t: Time, actor: string)
    requires Inv(cfg, s) && Covered(s.store.keys, kid, t) && s.clock <= t + Retention(cfg)
    ensures Activate(cfg, s.store, kid, s.clock, actor).Ok?
  {
    var i :| 0 <= i < |s.store.keys| && Since(s.store.keys[i], kid, t);
    assert HasKid(s.store.keys, kid);
    assert IndexOf(s.store.keys, kid).value == i;
    assert Shape(cfg, s.store.keys[i], s.clock);
  }

  lemma {:induction false} CreatedIsCovered(cfg: Settings, s: System, m: Material, actor: string)
    requires !HasKid(s.store.keys, m.kid)
    ensures Covered(Next(cfg, s, CreateKey(m, actor)).store.keys, m.kid, s.clock)
  {
    var t := Next(cfg, s, CreateKey(m, actor));
    assert Since(t.store.keys[|s.store.keys|], m.kid, s.clock);
  }

  // Whatever runs between the two transactions of a rotation, the second one succeeds if it
  // starts within T + C + M of the first, and leaves the new key as the only active one.
  lemma {:induction false} RotationCompletes(
    cfg: Settings, past: seq<Step>, m: Material, actor: string, between: seq<Step>)
    requires !HasKid(Run(cfg, Init(), past).store.keys, m.kid)
    requires Run(cfg, Init(), past + [CreateKey(m, actor)] + between).clock
             <= Run(cfg, Init(), past).clock + Retention(cfg)
    ensures var s := Run(cfg, Init(), past + [CreateKey(m, actor)] + between);
            && Activate(cfg, s.store, m.kid, s.clock, actor).Ok?
            && var t := Next(cfg, s, ActivateKey(m.kid, actor));
               forall i :: 0 <= i < |t.store.keys| ==>
                 (t.store.keys[i].status == Active <==> t.store.keys[i].Kid() == m.kid)
  {
    var s := Run(cfg, Init(), past);
    var first := past + [CreateKey(m, actor)];
    assert first[..|first| - 1] == past;
    CreatedIsCovered(cfg, s, m, actor);
    RunKeepsInv(cfg, Init(), first);
    RunAppend(cfg, Init(), first, between);
    CoverLasts(cfg, Run(cfg, Init(), first), between, m.kid, s.clock);
    RunKeepsInv(cfg, Init(), first + between);
    var u := Run(cfg, Init(), first + between);
    CoveredCanActivate(cfg, u, m.kid, s.clock, actor);
    ActivationLeavesExactlyOne(cfg, u.store, m.kid, u.clock, actor);
  }

  // ---------------------------------------------------------------- the bound is the exact one

  // Every token signed this long after its key was read keeps its kid published up to exp.
  ghost predicate GapIsSafe(cfg: Settings, gap: nat) {
    forall steps, i :: 0 <= i < |Run(cfg, Init(), steps).issued| ==>
      KidOutlivesToken(Run(cfg, Init(), steps), i, gap)
  }

  ghost predicate KidOutlivesToken(s: System, i: nat, gap: nat)
    requires i < |s.issued|
  {
    s.issued[i].signedAt - s.issued[i].readAt == gap && s.clock <= s.issued[i].exp * SECOND
    ==> s.issued[i].kid in Published(s.store.keys)
  }

  // A signer reads its key and another key is activated at once.
  function ReadThenRotate(lead: nat, a: Material, b: Material): seq<Step> {
    [Tick(lead), ReadKey(0, a), CreateKey(b, SYSTEM), ActivateKey(b.kid, SYSTEM)]
  }

  // The signer signs a gap later, and the expired keys are retired at the very moment exp.
  function SignLateThenRetire(gap: nat, life: nat): seq<Step> {
    [Tick(gap), Sign(0), Tick(life), RetireExpired(SYSTEM)]
  }

  lemma {:induction false} RunOfFour(cfg: Settings, s: System, w: Step, x: Step, y: Step, z: Step)
    ensures Run(cfg, s, [w, x, y, z]) == Next(cfg, Next(cfg, Next(cfg, Next(cfg, s, w), x), y), z)
  {
    var steps := [w, x, y, z];
    assert steps[..3][..2] == steps[..2] && steps[..2][..1] == steps[..1] && steps[..1][..0] == [];
    assert Run(cfg, s, steps[..1]) == Next(cfg, s, w);
    assert Run(cfg, s, steps[..2]) == Next(cfg, Run(cfg, s, steps[..1]), x);
    assert Run(cfg, s, steps[..3]) == Next(cfg, Run(cfg, s, steps[..2]), y);
  }

  lemma {:induction false} StateAfterReading(cfg: Settings, lead: nat, a: Material)
    ensures var s := Next(cfg, System(Store([], []), lead, map[], []), ReadKey(0, a));
            && s.clock == lead && s.issued == [] && s.held == map[0 := Held(a.kid, lead)]
            && s.store.keys == [NewKey(a, Active, lead)]
  {
    var keys := [NewKey(a, Active, lead)];
    assert keys[0].status == Active;
    assert HasActive(keys);
    assert FirstActive(keys) == Some(0);
  }

  lemma {:induction false} ActivatingTheSecond(cfg: Settings, k: Key, n: Key, log: seq<Event>, now: Time, actor: string)
    requires k.Kid() != n.Kid() && k.status == Active && n.status == Validating
    ensures Activate(cfg, Store([k, n], log), n.Kid(), now, actor).Ok?
    ensures Activate(cfg, Store([k, n], log), n.Kid(), now, actor).value.keys == [Demote(cfg, k, now), Promote(n, now)]
  {
    IndexOfIs([k, n], n.Kid(), 1);
  }

  lemma {:induction false} StateAfterRotation(cfg: Settings, lead: nat, a: Material, b: Material)
    requires a.kid != b.kid
    ensures var s := Run(cfg, Init(), ReadThenRotate(lead, a, b));
            && s.clock == lead && s.issued == [] && s.held == map[0 := Held(a.kid, lead)]
            && s.store.keys == [Demote(cfg, NewKey(a, Active, lead), lead), Promote(NewKey(b, Validating, lead), lead)]
  {
    var k, n := NewKey(a, Active, lead), NewKey(b, Validating, lead);
    var s2 := Next(cfg, System(Store([], []), lead, map[], []), ReadKey(0, a));
    StateAfterReading(cfg, lead, a);
    var s3 := Next(cfg, s2, CreateKey(b, SYSTEM));
    assert !HasKid([k], b.kid);
    assert s3.store.keys == [k, n];
    ActivatingTheSecond(cfg, k, n, s3.store.log, lead, SYSTEM);
    RunOfFour(cfg, Init(), Tick(lead), ReadKey(0, a), CreateKey(b, SYSTEM), ActivateKey(b.kid, SYSTEM));
  }

  lemma {:induction false} StateAfterRetirement(cfg: Settings, s: System, k: Key, n: Key, gap: nat)
    requires (s.clock + gap) % SECOND == 0 && (cfg.cacheTtl + cfg.margin) * SECOND < gap
    requires s.store.keys == [Demote(cfg, k, s.clock), Promote(n, s.clock)] && k.Kid() != n.Kid()
    requires s.held == map[0 := Held(k.Kid(), s.clock)] && s.issued == []
    ensures var t := Run(cfg, s, SignLateThenRetire(gap, cfg.tokenTtl * SECOND));
            && t.issued == [Token(k.Kid(), s.clock, s.clock + gap, WholeSeconds(s.clock + gap) + cfg.tokenTtl)]
            && t.clock == t.issued[0].exp * SECOND
            && k.Kid() !in Published(t.store.keys)
  {
    var life := cfg.tokenTtl * SECOND;
    var now := s.clock + gap + life;
    var keys := RetireKeys(s.store.keys, now);
    assert Expired(s.store.keys[0], now);
    assert keys[0].status == OidcKeys.Retired && keys[1].Kid() == n.Kid();
    PublishedExactly(keys, k.Kid());
    RunOfFour(cfg, s, Tick(gap), Sign(0), Tick(life), RetireExpired(SYSTEM));
  }

  // A signer that holds its key for no longer than C + M never outlives it ...
  lemma {:induction false} ShortGapIsSafe(cfg: Settings, gap: nat)
    requires gap <= (cfg.cacheTtl + cfg.margin) * SECOND
    ensures GapIsSafe(cfg, gap)
  {
    forall steps, i: nat | i < |Run(cfg, Init(), steps).issued|
      ensures KidOutlivesToken(Run(cfg, Init(), steps), i, gap) {
      RunKeepsInv(cfg, Init(), steps);
      var s := Run(cfg, Init(), steps);
      if s.issued[i].signedAt - s.issued[i].readAt == gap && s.clock <= s.issued[i].exp * SECOND {
        PublishedWhileRetained(cfg, steps, i);
      }
    }
  }

  // ... and one that holds it longer does, in a run with one rotation and one retirement.
  function LateSigning(cfg: Settings, gap: nat, a: Material, b: Material): seq<Step> {
    ReadThenRotate((SECOND - gap % SECOND) % SECOND, a, b) + SignLateThenRetire(gap, cfg.tokenTtl * SECOND)
  }

  lemma {:induction false} LongGapLosesKey(cfg: Settings, gap: nat, a: Material, b: Material)
    requires (cfg.cacheTtl + cfg.margin) * SECOND < gap && a.kid != b.kid
    ensures var s := Run(cfg, Init(), LateSigning(cfg, gap, a, b)); |s.issued| == 1 && !KidOutlivesToken(s, 0, gap)
  {
    var lead := (SECOND - gap % SECOND) % SECOND;
    var first, last := ReadThenRotate(lead, a, b), SignLateThenRetire(gap, cfg.tokenTtl * SECOND);
    StateAfterRotation(cfg, lead, a, b);
    StateAfterRetirement(cfg, Run(cfg, Init(), first), NewKey(a, Active, lead), NewKey(b, Validating, lead), gap);
    RunAppend(cfg, Init(), first, last);
  }

  // C + M is not only enough: a longer gap lets some run withdraw the key before exp has passed.
  lemma {:induction false} GapBoundIsExact(cfg: Settings, gap: nat)
    ensures GapIsSafe(cfg, gap) <==> gap <= (cfg.cacheTtl + cfg.margin) * SECOND
  {
    if gap <= (cfg.cacheTtl + cfg.margin) * SECOND {
      ShortGapIsSafe(cfg, gap);
    } else {
      var a, b := Material("a", "RS256", 1), Material("b", "RS256", 2);
      assert a.kid[0] != b.kid[0];
      LongGapLosesKey(cfg, gap, a, b);
    }
  }

  // ---------------------------------------------------------------- what each step is

  // Keys created by an administrator wait in validation under their creator's name; after a fetch or
  // a reading some key is active, unless the bootstrap's kid was taken, and the reader holds it from
  // this moment on; a signer that gives up is forgotten and nothing else is.
  lemma {:induction false} StepsLaw(cfg: Settings, s: System, step: Step)
    ensures var t := Next(cfg, s, step);
            match step
            case CreateKey(m, actor) =>
              if HasKid(s.store.keys, m.kid) then t == s
              else
                && t.store.keys == s.store.keys + [Key(m, Validating, None, None, None, None)]
                && t.store.log == s.store.log + [Event(KeyCreated, m.kid, actor)]
            case FetchJwks(m) => HasActive(t.store.keys) || (HasKid(s.store.keys, m.kid) && t == s)
            case ReadKey(signer, m) =>
              if HasActive(t.store.keys) then
                && signer in t.held && t.held[signer].readAt == s.clock
                && (exists i :: 0 <= i < |t.store.keys| && t.store.keys[i].status == Active
                                && t.store.keys[i].Kid() == t.held[signer].kid)
                && (forall g :: g != signer ==>
                      (g in t.held <==> g in s.held) && (g in t.held ==> t.held[g] == s.held[g]))
              else HasKid(s.store.keys, m.kid) && t == s
            case Abandon(signer) =>
              && t == s.(held := t.held) && signer !in t.held
              && forall g :: g != signer ==> (g in t.held <==> g in s.held) && (g in t.held ==> t.held[g] == s.held[g])
            case _ => true
  {
    match step
    case CreateKey(m, actor) => CreationLaw(s.store, m, Validating, s.clock, actor);
    case FetchJwks(m) => BootstrapIsActive(s.store, m, s.clock);
    case ReadKey(_, m) => BootstrapIsActive(s.store, m, s.clock);
    case _ =>
  }

  lemma {:induction false} BootstrapIsActive(s: Store, m: Material, now: Time)
    ensures var t := OrElse(EnsureActive(s, m, now), s);
            HasActive(t.keys) || (HasKid(s.keys, m.kid) && t == s)
  {
    var r := EnsureActive(s, m, now);
    if !HasActive(s.keys) && r.Ok? { assert r.value.keys[|s.keys|].status == Active; }
  }
}
