// The signing-key table and its audit log: what each service function does to them,
// and the class whose methods change the rows in place.
module OidcKeys {
  import opened Common

  type Kid = string

  datatype Status = Validating | Active | Retired

  // OAUTH2_TOKEN_EXPIRES_IN, OIDC_JWKS_CACHE_TTL_SECONDS, OIDC_KEY_RETENTION_MARGIN_SECONDS.
  datatype Settings = Settings(issuer: string, tokenTtl: nat, cacheTtl: nat, margin: nat)

  // What jwk.generate_key delivers; the private key is only compared, never inspected.
  datatype Material = Material(kid: Kid, alg: string, privateKey: int)

  datatype Key = Key(
    material: Material,
    status: Status,
    activatedAt: Option<Time>,
    validatingSince: Option<Time>,
    retiredAfter: Option<Time>,
    retiredAt: Option<Time>)
  {
    function Kid(): Kid { material.kid }
  }

  datatype EventKind = KeyCreated | KeyActivated | KeyDemoted | KeyRetired | TokenSigned

  datatype Event = Event(kind: EventKind, kid: Kid, actor: string)

  datatype Store = Store(keys: seq<Key>, log: seq<Event>)

  datatype KeyError = DuplicateKid | UnknownKey | RetiredKey

  const SYSTEM := "system"

  function Retention(cfg: Settings): int {
    (cfg.tokenTtl + cfg.cacheTtl + cfg.margin) * SECOND
  }

  function RetiredAfter(cfg: Settings, rotatedAt: Time): Time {
    rotatedAt + Retention(cfg)
  }

  // ---------------------------------------------------------------- queries

  predicate HasKid(keys: seq<Key>, kid: Kid) {
    exists i :: 0 <= i < |keys| && keys[i].Kid() == kid
  }

  // The row a one-row query for this kid returns.
  function IndexOf(keys: seq<Key>, kid: Kid): (r: Option<nat>)
    ensures r.Some? <==> HasKid(keys, kid)
    ensures r.Some? ==> r.value < |keys| && keys[r.value].Kid() == kid
    ensures r.Some? ==> forall j :: 0 <= j < r.value ==> keys[j].Kid() != kid
  {
    if |keys| == 0 then None
    else
      var before := IndexOf(keys[..|keys| - 1], kid);
      if before.Some? then
        assert keys[before.value].Kid() == kid;
        before
      else if keys[|keys| - 1].Kid() == kid then
        assert forall j :: 0 <= j < |keys| - 1 ==> keys[j] == keys[..|keys| - 1][j];
        Some(|keys| - 1)
      else
        assert forall j :: 0 <= j < |keys| - 1 ==> keys[j] == keys[..|keys| - 1][j];
        None
  }

  predicate HasActive(keys: seq<Key>) {
    exists i :: 0 <= i < |keys| && keys[i].status == Active
  }

  function FirstActive(keys: seq<Key>): (r: Option<nat>)
    ensures r.Some? <==> HasActive(keys)
    ensures r.Some? ==> r.value < |keys| && keys[r.value].status == Active
    ensures r.Some? ==> forall j :: 0 <= j < r.value ==> keys[j].status != Active
  {
    if |keys| == 0 then None
    else
      var before := FirstActive(keys[..|keys| - 1]);
      if before.Some? then
        assert keys[before.value].status == Active;
        before
      else if keys[|keys| - 1].status == Active then
        assert forall j :: 0 <= j < |keys| - 1 ==> keys[j] == keys[..|keys| - 1][j];
        Some(|keys| - 1)
      else
        assert forall j :: 0 <= j < |keys| - 1 ==> keys[j] == keys[..|keys| - 1][j];
        None
  }

  predicate Publishable(k: Key) {
    k.status == Active || k.status == Validating
  }

  // The kids of the published key set, in creation order.
  function Published(keys: seq<Key>): seq<Kid> {
    if |keys| == 0 then []
    else
      var last := keys[|keys| - 1];
      Published(keys[..|keys| - 1]) + (if Publishable(last) then [last.Kid()] else [])
  }

  lemma {:induction false} PublishedExactly(keys: seq<Key>, kid: Kid)
    ensures kid in Published(keys) <==>
            exists i :: 0 <= i < |keys| && keys[i].Kid() == kid && keys[i].status in {Active, Validating}
  {
    if |keys| == 0 {
    } else {
      var n := |keys| - 1;
      PublishedExactly(keys[..n], kid);
      assert forall i :: 0 <= i < n ==> keys[..n][i] == keys[i];
    }
  }

  ghost predicate ComesBefore(keys: seq<Key>, x: Kid, y: Kid) {
    exists a, b :: 0 <= a < b < |keys| && keys[a].Kid() == x && keys[b].Kid() == y
  }

  // The key set lists the kids in the order in which their rows were created.
  lemma {:induction false} PublishedInCreationOrder(keys: seq<Key>)
    ensures forall i, j :: 0 <= i < j < |Published(keys)| ==> ComesBefore(keys, Published(keys)[i], Published(keys)[j])
  {
    if |keys| == 0 {
    } else {
      var n := |keys| - 1;
      var before := Published(keys[..n]);
      PublishedInCreationOrder(keys[..n]);
      forall i, j | 0 <= i < j < |Published(keys)| ensures ComesBefore(keys, Published(keys)[i], Published(keys)[j]) {
        if j < |before| {
          assert ComesBefore(keys[..n], before[i], before[j]);
          var a, b :| 0 <= a < b < n && keys[..n][a].Kid() == before[i] && keys[..n][b].Kid() == before[j];
          assert keys[a].Kid() == before[i] && keys[b].Kid() == before[j];
        } else {
          PublishedExactly(keys[..n], before[i]);
          var a :| 0 <= a < n && keys[..n][a].Kid() == before[i] && keys[..n][a].status in {Active, Validating};
          assert keys[a].Kid() == before[i] && keys[n].Kid() == Published(keys)[j];
        }
      }
    }
  }

  // ---------------------------------------------------------------- create

  function NewKey(m: Material, status: Status, now: Time): Key {
    Key(m, status, if status == Active then Some(now) else None, None, None, None)
  }

  function CreationEvents(kid: Kid, status: Status, actor: string): seq<Event> {
    [Event(KeyCreated, kid, actor)] +
    if status == Active then [Event(KeyActivated, kid, actor)] else []
  }

  // The unique constraint on kid makes the commit fail when the kid exists already.
  function Create(s: Store, m: Material, status: Status, now: Time, actor: string): Result<Store, KeyError> {
    if HasKid(s.keys, m.kid) then Err(DuplicateKid)
    else Ok(Store(s.keys + [NewKey(m, status, now)], s.log + CreationEvents(m.kid, status, actor)))
  }

  function EnsureActive(s: Store, m: Material, now: Time): Result<Store, KeyError> {
    if HasActive(s.keys) then Ok(s) else Create(s, m, Active, now, SYSTEM)
  }

  // ---------------------------------------------------------------- activate

  predicate Displaced(k: Key, kid: Kid) {
    k.status == Active && k.Kid() != kid
  }

  function Demote(cfg: Settings, k: Key, now: Time): Key {
    k.(status := Validating, validatingSince := Some(now), retiredAfter := Some(RetiredAfter(cfg, now)))
  }

  function Promote(k: Key, now: Time): Key {
    k.(status := Active, activatedAt := Some(now), validatingSince := None, retiredAfter := None, retiredAt := None)
  }

  function DemoteOther(cfg: Settings, k: Key, kid: Kid, now: Time): Key {
    if Displaced(k, kid) then Demote(cfg, k, now) else k
  }

  function DemoteOthers(cfg: Settings, keys: seq<Key>, kid: Kid, now: Time): (r: seq<Key>)
    ensures |r| == |keys|
    ensures forall i :: 0 <= i < |keys| ==> r[i] == DemoteOther(cfg, keys[i], kid, now)
  {
    seq(|keys|, i requires 0 <= i < |keys| => DemoteOther(cfg, keys[i], kid, now))
  }

  function DemotionEvents(keys: seq<Key>, kid: Kid, actor: string): seq<Event> {
    if |keys| == 0 then []
    else
      var last := keys[|keys| - 1];
      DemotionEvents(keys[..|keys| - 1], kid, actor) +
      (if Displaced(last, kid) then [Event(KeyDemoted, last.Kid(), actor)] else [])
  }

  function Activate(cfg: Settings, s: Store, kid: Kid, now: Time, actor: string): Result<Store, KeyError> {
    match IndexOf(s.keys, kid)
    case None => Err(UnknownKey)
    case Some(at) =>
      if s.keys[at].status == Retired then Err(RetiredKey)
      else
        var demoted := DemoteOthers(cfg, s.keys, kid, now);
        Ok(Store(demoted[at := Promote(demoted[at], now)],
                 s.log + DemotionEvents(s.keys, kid, actor) + [Event(KeyActivated, kid, actor)]))
  }

  // ---------------------------------------------------------------- retire

  predicate Expired(k: Key, now: Time) {
    k.status == Validating && k.retiredAfter.Some? && k.retiredAfter.value < now
  }

  function RetireKey(k: Key, now: Time): Key {
    if Expired(k, now) then k.(status := Retired, retiredAt := Some(now)) else k
  }

  function RetireKeys(keys: seq<Key>, now: Time): (r: seq<Key>)
    ensures |r| == |keys|
    ensures forall i :: 0 <= i < |keys| ==> r[i] == RetireKey(keys[i], now)
  {
    seq(|keys|, i requires 0 <= i < |keys| => RetireKey(keys[i], now))
  }

  function RetirementEvents(keys: seq<Key>, now: Time, actor: string): seq<Event> {
    if |keys| == 0 then []
    else
      var last := keys[|keys| - 1];
      RetirementEvents(keys[..|keys| - 1], now, actor) +
      (if Expired(last, now) then [Event(KeyRetired, last.Kid(), actor)] else [])
  }

  function Retire(s: Store, now: Time, actor: string): Store {
    Store(RetireKeys(s.keys, now), s.log + RetirementEvents(s.keys, now, actor))
  }

  function SignAudit(s: Store, kid: Kid): Store {
    s.(log := s.log + [Event(TokenSigned, kid, SYSTEM)])
  }

  // ---------------------------------------------------------------- properties of one step

  ghost predicate DistinctKids(keys: seq<Key>) {
    forall i, j :: 0 <= i < j < |keys| ==> keys[i].Kid() != keys[j].Kid()
  }

  ghost predicate AtMostOneActive(keys: seq<Key>) {
    forall i, j :: 0 <= i < |keys| && 0 <= j < |keys| && keys[i].status == Active && keys[j].status == Active ==> i == j
  }

  // Activation repairs any table, however many active rows it had.
  lemma {:induction false} ActivationLeavesExactlyOne(cfg: Settings, s: Store, kid: Kid, now: Time, actor: string)
    requires DistinctKids(s.keys)
    requires Activate(cfg, s, kid, now, actor).Ok?
    ensures var t := Activate(cfg, s, kid, now, actor).value.keys;
            && |t| == |s.keys|
            && (forall i :: 0 <= i < |t| ==> t[i].material == s.keys[i].material)
            && (forall i :: 0 <= i < |t| ==> (t[i].status == Active <==> t[i].Kid() == kid))
            && AtMostOneActive(t) && HasActive(t)
  {
    var at := IndexOf(s.keys, kid).value;
    var t := Activate(cfg, s, kid, now, actor).value.keys;
    assert t[at].status == Active;
    forall i | 0 <= i < |t|
      ensures t[i].material == s.keys[i].material && (t[i].status == Active <==> t[i].Kid() == kid) {
      if i != at { assert s.keys[i].Kid() != s.keys[at].Kid(); }
    }
  }

  // Creation fails exactly for a known kid; otherwise it appends this row and these events.
  lemma {:induction false} CreationLaw(s: Store, m: Material, status: Status, now: Time, actor: string)
    ensures var r := Create(s, m, status, now, actor);
            && (r.Ok? <==> forall i :: 0 <= i < |s.keys| ==> s.keys[i].material.kid != m.kid)
            && (r.Err? ==> r.error == DuplicateKid)
            && (r.Ok? ==>
                  && r.value.keys ==
                     s.keys + [Key(m, status, if status == Active then Some(now) else None, None, None, None)]
                  && |r.value.log| == |s.log| + (if status == Active then 2 else 1)
                  && r.value.log[..|s.log|] == s.log
                  && r.value.log[|s.log|] == Event(KeyCreated, m.kid, actor)
                  && (status == Active ==> r.value.log[|s.log| + 1] == Event(KeyActivated, m.kid, actor)))
  {
  }

  // The bootstrap creates nothing while a row is active, and an active one in the system's name otherwise.
  lemma {:induction false} BootstrapLaw(s: Store, m: Material, now: Time)
    ensures var r := EnsureActive(s, m, now);
            if exists i :: 0 <= i < |s.keys| && s.keys[i].status == Active then r == Ok(s)
            else
              && (r.Ok? <==> forall i :: 0 <= i < |s.keys| ==> s.keys[i].material.kid != m.kid)
              && (r.Ok? ==>
                    && r.value.keys == s.keys + [Key(m, Active, Some(now), None, None, None)]
                    && r.value.log ==
                       s.log + [Event(KeyCreated, m.kid, "system"), Event(KeyActivated, m.kid, "system")])
  {
    CreationLaw(s, m, Active, now, SYSTEM);
  }

  // The positions of the rows with this property, in order.
  function RowsWhere(keys: seq<Key>, chosen: Key -> bool): (r: seq<nat>)
    ensures forall n :: 0 <= n < |r| ==> r[n] < |keys| && chosen(keys[r[n]])
    ensures forall n, m :: 0 <= n < m < |r| ==> r[n] < r[m]
  {
    if |keys| == 0 then []
    else
      var before := RowsWhere(keys[..|keys| - 1], chosen);
      assert forall n :: 0 <= n < |before| ==> keys[..|keys| - 1][before[n]] == keys[before[n]];
      before + if chosen(keys[|keys| - 1]) then [|keys| - 1] else []
  }

  lemma {:induction false} RowsWhereFindsAll(keys: seq<Key>, chosen: Key -> bool, i: nat)
    requires i < |keys| && chosen(keys[i])
    ensures i in RowsWhere(keys, chosen)
  {
    if |keys| == 0 {
    } else if i < |keys| - 1 {
      RowsWhereFindsAll(keys[..|keys| - 1], chosen, i);
    }
  }

  // One event of this kind by this actor for each row with this property, in the order of the rows.
  ghost predicate EventsOf(events: seq<Event>, keys: seq<Key>, chosen: Key -> bool, kind: EventKind, actor: string) {
    var rows := RowsWhere(keys, chosen);
    |events| == |rows| && forall n :: 0 <= n < |events| ==> events[n] == Event(kind, keys[rows[n]].material.kid, actor)
  }

  // The rows an activation takes out of service.
  function OtherInService(kid: Kid): Key -> bool {
    (k: Key) => k.status == Active && k.material.kid != kid
  }

  // The rows whose retention is over.
  function Overdue(now: Time): Key -> bool {
    (k: Key) => k.status == Validating && k.retiredAfter.Some? && k.retiredAfter.value < now
  }

  lemma {:induction false} DemotionEventsLaw(keys: seq<Key>, kid: Kid, actor: string)
    ensures EventsOf(DemotionEvents(keys, kid, actor), keys, OtherInService(kid), KeyDemoted, actor)
  {
    if |keys| == 0 {
    } else {
      DemotionEventsLaw(keys[..|keys| - 1], kid, actor);
    }
  }

  lemma {:induction false} RetirementEventsLaw(keys: seq<Key>, now: Time, actor: string)
    ensures EventsOf(RetirementEvents(keys, now, actor), keys, Overdue(now), KeyRetired, actor)
  {
    if |keys| == 0 {
    } else {
      RetirementEventsLaw(keys[..|keys| - 1], now, actor);
    }
  }

  // What an activation makes of one row.
  ghost predicate RowAfterActivation(cfg: Settings, before: Key, after: Key, kid: Kid, now: Time) {
    && after.material == before.material
    && (before.material.kid == kid ==> after == Key(before.material, Active, Some(now), None, None, None))
    && (before.material.kid != kid && before.status == Active ==>
          after == Key(before.material, Validating, before.activatedAt, Some(now),
                       Some(now + (cfg.tokenTtl + cfg.cacheTtl + cfg.margin) * 1_000_000), before.retiredAt))
    && (before.material.kid != kid && before.status != Active ==> after == before)
  }

  // Activation succeeds exactly for a known kid that is not retired, row by row and event by event.
  lemma {:induction false} ActivationLaw(cfg: Settings, s: Store, kid: Kid, now: Time, actor: string)
    requires DistinctKids(s.keys)
    ensures var r := Activate(cfg, s, kid, now, actor);
            && (r.Ok? <==>
                  exists i :: 0 <= i < |s.keys| && s.keys[i].material.kid == kid && s.keys[i].status != Retired)
            && (r.Err? ==>
                  r.error ==
                  if exists i :: 0 <= i < |s.keys| && s.keys[i].material.kid == kid then RetiredKey else UnknownKey)
            && (r.Ok? ==>
                  && |r.value.keys| == |s.keys|
                  && (forall i :: 0 <= i < |s.keys| ==> RowAfterActivation(cfg, s.keys[i], r.value.keys[i], kid, now))
                  && |r.value.log| > |s.log| && r.value.log[..|s.log|] == s.log
                  && r.value.log[|r.value.log| - 1] == Event(KeyActivated, kid, actor)
                  && EventsOf(r.value.log[|s.log|..|r.value.log| - 1], s.keys, OtherInService(kid), KeyDemoted, actor))
  {
    var r, at := Activate(cfg, s, kid, now, actor), IndexOf(s.keys, kid);
    if at.Some? {
      assert s.keys[at.value].material.kid == kid;
      assert forall i :: 0 <= i < |s.keys| && i != at.value ==> s.keys[i].Kid() != s.keys[at.value].Kid();
    } else {
      forall i | 0 <= i < |s.keys| ensures s.keys[i].material.kid != kid {
        assert s.keys[i].Kid() == kid ==> HasKid(s.keys, kid);
      }
    }
    if r.Ok? {
      DemotionEventsLaw(s.keys, kid, actor);
      assert r.value.log[|s.log|..|r.value.log| - 1] == DemotionEvents(s.keys, kid, actor);
      forall i | 0 <= i < |s.keys| ensures RowAfterActivation(cfg, s.keys[i], r.value.keys[i], kid, now) {
        ActivatedRow(cfg, s, kid, now, actor, i);
      }
    }
  }

  lemma {:induction false} ActivatedRow(cfg: Settings, s: Store, kid: Kid, now: Time, actor: string, i: nat)
    requires DistinctKids(s.keys) && Activate(cfg, s, kid, now, actor).Ok? && i < |s.keys|
    ensures RowAfterActivation(cfg, s.keys[i], Activate(cfg, s, kid, now, actor).value.keys[i], kid, now)
  {
    var at := IndexOf(s.keys, kid).value;
    if i != at { assert s.keys[i].Kid() != s.keys[at].Kid(); }
  }

  // The loop retires the rows whose retention is over and no other, stamps them with its moment and
  // writes one event for each, keeps every row and is idempotent.
  lemma {:induction false} RetirementIsExact(s: Store, now: Time, actor: string)
    ensures var t := Retire(s, now, actor);
            && |t.keys| == |s.keys|
            && (forall i: nat :: i < |s.keys| ==>
                  t.keys[i] == if Overdue(now)(s.keys[i]) then s.keys[i].(status := Retired, retiredAt := Some(now))
                               else s.keys[i])
            && Retire(t, now, actor) == t
            && |s.log| <= |t.log| && t.log[..|s.log|] == s.log
            && EventsOf(t.log[|s.log|..], s.keys, Overdue(now), KeyRetired, actor)
  {
    var t := Retire(s, now, actor);
    assert forall i :: 0 <= i < |t.keys| ==> !Expired(t.keys[i], now);
    NothingToRetire(t.keys, now, actor);
    RetirementEventsLaw(s.keys, now, actor);
    assert t.log[|s.log|..] == RetirementEvents(s.keys, now, actor);
  }

  lemma {:induction false} NothingToRetire(keys: seq<Key>, now: Time, actor: string)
    requires forall i :: 0 <= i < |keys| ==> !Expired(keys[i], now)
    ensures RetirementEvents(keys, now, actor) == []
    ensures RetireKeys(keys, now) == keys
  {
    if |keys| == 0 {
    } else {
      NothingToRetire(keys[..|keys| - 1], now, actor);
    }
  }

  // What the two loops have done when every row is as it should be.
  lemma {:induction false} DemotedEverywhere(cfg: Settings, before: seq<Key>, after: seq<Key>, kid: Kid, now: Time)
    requires |after| == |before|
    requires forall i :: 0 <= i < |before| ==> after[i] == DemoteOther(cfg, before[i], kid, now)
    ensures after == DemoteOthers(cfg, before, kid, now)
  {
  }

  lemma {:induction false} RetiredEverywhere(before: seq<Key>, after: seq<Key>, now: Time)
    requires |after| == |before|
    requires forall i :: 0 <= i < |before| ==> after[i] == RetireKey(before[i], now)
    ensures after == RetireKeys(before, now)
  {
  }

  // What the two loops append at row i.
  lemma {:induction false} DemotionEventsNext(keys: seq<Key>, kid: Kid, actor: string, i: nat)
    requires i < |keys|
    ensures DemotionEvents(keys[..i + 1], kid, actor) ==
            DemotionEvents(keys[..i], kid, actor) +
            if Displaced(keys[i], kid) then [Event(KeyDemoted, keys[i].Kid(), actor)] else []
  {
    assert keys[..i + 1][..i] == keys[..i];
  }

  lemma {:induction false} RetirementEventsNext(keys: seq<Key>, now: Time, actor: string, i: nat)
    requires i < |keys|
    ensures RetirementEvents(keys[..i + 1], now, actor) ==
            RetirementEvents(keys[..i], now, actor) +
            if Expired(keys[i], now) then [Event(KeyRetired, keys[i].Kid(), actor)] else []
  {
    assert keys[..i + 1][..i] == keys[..i];
  }

  // ---------------------------------------------------------------- the rows, changed in place

  class KeyRow {
    const material: Material
    var status: Status
    var activatedAt: Option<Time>
    var validatingSince: Option<Time>
    var retiredAfter: Option<Time>
    var retiredAt: Option<Time>

    constructor (m: Material, status: Status)
      ensures Value() == Key(m, status, None, None, None, None)
    {
      material := m;
      this.status := status;
      activatedAt, validatingSince, retiredAfter, retiredAt := None, None, None, None;
    }

    function Value(): Key
      reads this
    {
      Key(material, status, activatedAt, validatingSince, retiredAfter, retiredAt)
    }

    // The assignments of an activation.
    method PromoteRow(now: Time)
      modifies this
      ensures Value() == Promote(old(Value()), now)
    {
      status := Active;
      activatedAt := Some(now);
      validatingSince := None;
      retiredAfter := None;
      retiredAt := None;
    }
  }

  function Values(rows: seq<KeyRow>): (r: seq<Key>)
    reads rows
    ensures |r| == |rows|
    ensures forall i :: 0 <= i < |rows| ==> r[i] == rows[i].Value()
  {
    seq(|rows|, i requires 0 <= i < |rows| reads rows => rows[i].Value())
  }

  // What get_active_jwt_config hands to a signer.
  datatype JwtConfig = JwtConfig(key: int, kid: Kid, alg: string, iss: string, exp: nat)

  function ConfigOf(cfg: Settings, k: Key): JwtConfig {
    JwtConfig(k.material.privateKey, k.Kid(), k.material.alg, cfg.issuer, cfg.tokenTtl)
  }

  class KeyStore {
    const settings: Settings
    var rows: seq<KeyRow>
    var log: seq<Event>

    ghost predicate Valid()
      reads this
    {
      forall i, j :: 0 <= i < j < |rows| ==> rows[i] != rows[j]
    }

    ghost function Contents(): Store
      reads this, rows
    {
      Store(Values(rows), log)
    }

    constructor (settings: Settings)
      ensures Valid() && Contents() == Store([], []) && rows == [] && this.settings == settings
    {
      this.settings := settings;
      rows, log := [], [];
    }

    method FindRow(kid: Kid) returns (at: Option<nat>)
      ensures at == IndexOf(Values(rows), kid)
    {
      var i := 0;
      while i < |rows|
        invariant 0 <= i <= |rows|
        invariant forall j :: 0 <= j < i ==> rows[j].material.kid != kid
      {
        if rows[i].material.kid == kid {
          IndexOfIs(Values(rows), kid, i);
          return Some(i);
        }
        i := i + 1;
      }
      return None;
    }

    method FindActive() returns (at: Option<nat>)
      ensures at == FirstActive(Values(rows))
    {
      var i := 0;
      while i < |rows|
        invariant 0 <= i <= |rows|
        invariant forall j :: 0 <= j < i ==> rows[j].status != Active
      {
        if rows[i].status == Active {
          assert Values(rows)[i].status == Active;
          return Some(i);
        }
        i := i + 1;
      }
      return None;
    }

    method CreateSigningKey(m: Material, status: Status, now: Time, actor: string) returns (r: Result<KeyRow, KeyError>)
      requires Valid()
      modifies this
      ensures Valid()
      ensures r.Ok? <==> Create(old(Contents()), m, status, now, actor).Ok?
      ensures r.Ok? ==>
                && Contents() == Create(old(Contents()), m, status, now, actor).value
                && fresh(r.value) && rows == old(rows) + [r.value]
      ensures r.Err? ==> r.error == DuplicateKid && rows == old(rows) && Contents() == old(Contents())
    {
      var clash := FindRow(m.kid);
      if clash.Some? {
        return Err(DuplicateKid);
      }
      var row := new KeyRow(m, status);
      if status == Active {
        row.activatedAt := Some(now);
      }
      rows := rows + [row];
      log := log + [Event(KeyCreated, m.kid, actor)];
      if status == Active {
        log := log + [Event(KeyActivated, m.kid, actor)];
      }
      assert Values(rows) == old(Values(rows)) + [NewKey(m, status, now)];
      assert log == old(log) + CreationEvents(m.kid, status, actor);
      return Ok(row);
    }

    // The bootstrap: nothing happens while an active row exists.
    method EnsureActiveSigningKey(m: Material, now: Time) returns (r: Result<KeyRow, KeyError>)
      requires Valid()
      modifies this
      ensures Valid()
      ensures r.Ok? <==> EnsureActive(old(Contents()), m, now).Ok?
      ensures r.Ok? ==>
                && Contents() == EnsureActive(old(Contents()), m, now).value
                && r.value in rows && r.value.status == Active
                && FirstActive(Values(rows)).Some? && rows[FirstActive(Values(rows)).value] == r.value
                && (forall i :: 0 <= i < |rows| ==> rows[i] in old(rows) || fresh(rows[i]))
      ensures r.Err? ==> rows == old(rows) && Contents() == old(Contents())
    {
      var at := FindActive();
      if at.Some? {
        assert FirstActive(Values(rows)) == Some(at.value);
        return Ok(rows[at.value]);
      }
      r := CreateSigningKey(m, Active, now, SYSTEM);
      if r.Ok? {
        var last := |rows| - 1;
        assert Values(rows)[last].status == Active && rows[last] == r.value;
        assert forall j :: 0 <= j < last ==> Values(rows)[j] == old(Values(rows))[j];
        assert FirstActive(Values(rows)) == Some(last);
      }
    }

    method GetActiveJwtConfig(m: Material, now: Time) returns (r: Result<JwtConfig, KeyError>)
      requires Valid()
      modifies this
      ensures Valid()
      ensures r.Ok? <==> EnsureActive(old(Contents()), m, now).Ok?
      ensures r.Ok? ==>
                && Contents() == EnsureActive(old(Contents()), m, now).value
                && FirstActive(Values(rows)).Some?
                && r.value == ConfigOf(settings, Values(rows)[FirstActive(Values(rows)).value])
                && (forall i :: 0 <= i < |rows| ==> rows[i] in old(rows) || fresh(rows[i]))
      ensures r.Err? ==> rows == old(rows) && Contents() == old(Contents())
    {
      var found := EnsureActiveSigningKey(m, now);
      if found.Err? {
        return Err(found.error);
      }
      var row := found.value;
      assert Values(rows)[FirstActive(Values(rows)).value] == row.Value();
      return Ok(JwtConfig(row.material.privateKey, row.material.kid, row.material.alg,
                          settings.issuer, settings.tokenTtl));
    }

    method PublishedKids() returns (kids: seq<Kid>)
      ensures kids == Published(Values(rows))
    {
      ghost var all := Values(rows);
      kids := [];
      for i := 0 to |rows|
        invariant kids == Published(all[..i])
      {
        assert all[..i + 1][..i] == all[..i];
        assert all[i] == rows[i].Value();
        if rows[i].status == Active || rows[i].status == Validating {
          kids := kids + [rows[i].material.kid];
        }
      }
      assert all[..|rows|] == all;
    }

    method GetJwks(m: Material, now: Time) returns (r: Result<seq<Kid>, KeyError>)
      requires Valid()
      modifies this
      ensures Valid()
      ensures r.Ok? <==> EnsureActive(old(Contents()), m, now).Ok?
      ensures r.Ok? ==>
                && Contents() == EnsureActive(old(Contents()), m, now).value
                && r.value == Published(Values(rows))
      ensures r.Err? ==> Contents() == old(Contents())
    {
      var found := EnsureActiveSigningKey(m, now);
      if found.Err? {
        return Err(found.error);
      }
      var kids := PublishedKids();
      return Ok(kids);
    }

    // One turn of the demotion loop: the rows it selects are the other ones that are active now.
    method DemoteIfDisplaced(row: KeyRow, kid: Kid, now: Time, actor: string)
      modifies this`log, row
      ensures row.Value() == DemoteOther(settings, old(row.Value()), kid, now)
      ensures log == old(log) +
                     if Displaced(old(row.Value()), kid) then [Event(KeyDemoted, row.material.kid, actor)] else []
    {
      if row.status == Active && row.material.kid != kid {
        row.status := Validating;
        row.validatingSince := Some(now);
        row.retiredAfter := Some(RetiredAfter(settings, now));
        log := log + [Event(KeyDemoted, row.material.kid, actor)];
      }
    }

    method DemoteOtherRows(kid: Kid, now: Time, actor: string)
      requires Valid()
      modifies this`log, rows
      ensures Values(rows) == DemoteOthers(settings, old(Values(rows)), kid, now)
      ensures log == old(log) + DemotionEvents(old(Values(rows)), kid, actor)
    {
      ghost var before := Values(rows);
      for i := 0 to |rows|
        invariant forall j :: 0 <= j < i ==> rows[j].Value() == DemoteOther(settings, before[j], kid, now)
        invariant forall j :: i <= j < |rows| ==> rows[j].Value() == before[j]
        invariant log == old(log) + DemotionEvents(before[..i], kid, actor)
      {
        DemotionEventsNext(before, kid, actor, i);
        DemoteIfDisplaced(rows[i], kid, now, actor);
      }
      assert before[..|rows|] == before;
      DemotedEverywhere(settings, before, Values(rows), kid, now);
    }

    // Rows displaced by the new key are demoted one by one; then the key itself is promoted.
    method ActivateSigningKey(kid: Kid, now: Time, actor: string) returns (r: Result<KeyRow, KeyError>)
      requires Valid()
      modifies this, rows
      ensures Valid() && rows == old(rows)
      ensures r.Ok? <==> Activate(settings, old(Contents()), kid, now, actor).Ok?
      ensures r.Ok? ==>
                && Contents() == Activate(settings, old(Contents()), kid, now, actor).value
                && r.value in rows && r.value.material.kid == kid
      ensures r.Err? ==>
                && r.error == Activate(settings, old(Contents()), kid, now, actor).error
                && Contents() == old(Contents())
    {
      var found := FindRow(kid);
      if found.None? {
        return Err(UnknownKey);
      }
      var at := found.value;
      if rows[at].status == Retired {
        return Err(RetiredKey);
      }
      ghost var before := Values(rows);
      DemoteOtherRows(kid, now, actor);
      var key := rows[at];
      key.PromoteRow(now);
      log := log + [Event(KeyActivated, kid, actor)];
      assert Values(rows) ==
             DemoteOthers(settings, before, kid, now)[at := Promote(DemoteOthers(settings, before, kid, now)[at], now)];
      return Ok(key);
    }

    // Two transactions; nothing else runs between them in this method.
    method RotateSigningKey(m: Material, createdAt: Time, activatedAt: Time, actor: string)
      returns (r: Result<KeyRow, KeyError>)
      requires Valid()
      modifies this, rows
      ensures Valid()
      ensures r.Ok? <==> !HasKid(old(Values(rows)), m.kid)
      ensures r.Ok? ==>
                var created := Create(old(Contents()), m, Validating, createdAt, actor).value;
                && Contents() == Activate(settings, created, m.kid, activatedAt, actor).value
                && forall i :: 0 <= i < |rows| ==> (rows[i].status == Active <==> rows[i].material.kid == m.kid)
      ensures r.Err? ==> Contents() == old(Contents())
    {
      var made := CreateSigningKey(m, Validating, createdAt, actor);
      if made.Err? {
        return made;
      }
      ghost var last := |rows| - 1;
      assert Values(rows)[last].Kid() == m.kid;
      assert forall j :: 0 <= j < last ==> Values(rows)[j] == old(Values(rows))[j];
      assert IndexOf(Values(rows), m.kid) == Some(last);
      r := ActivateSigningKey(made.value.material.kid, activatedAt, actor);
    }

    // One turn of the retirement loop.
    method RetireIfExpired(row: KeyRow, now: Time, actor: string) returns (retired: bool)
      modifies this`log, row
      ensures retired == Expired(old(row.Value()), now) && row.Value() == RetireKey(old(row.Value()), now)
      ensures log == old(log) + if retired then [Event(KeyRetired, row.material.kid, actor)] else []
    {
      retired := row.status == Validating && row.retiredAfter.Some? && row.retiredAfter.value < now;
      if retired {
        row.status := Retired;
        row.retiredAt := Some(now);
        log := log + [Event(KeyRetired, row.material.kid, actor)];
      }
    }

    method RetireExpiredSigningKeys(now: Time, actor: string) returns (count: nat)
      requires Valid()
      modifies this`log, rows
      ensures Valid() && rows == old(rows)
      ensures Contents() == Retire(old(Contents()), now, actor)
      ensures count == |RowsWhere(old(Values(rows)), Overdue(now))|
    {
      ghost var before := Values(rows);
      count := 0;
      for i := 0 to |rows|
        invariant forall j :: 0 <= j < i ==> rows[j].Value() == RetireKey(before[j], now)
        invariant forall j :: i <= j < |rows| ==> rows[j].Value() == before[j]
        invariant log == old(log) + RetirementEvents(before[..i], now, actor)
        invariant count == |RetirementEvents(before[..i], now, actor)|
      {
        RetirementEventsNext(before, now, actor, i);
        var retired := RetireIfExpired(rows[i], now, actor);
        if retired {
          count := count + 1;
        }
      }
      assert before[..|rows|] == before;
      RetiredEverywhere(before, Values(rows), now);
      RetirementEventsLaw(before, now, actor);
    }

    method AuditTokenSigned(kid: Kid)
      modifies this`log
      ensures Contents() == SignAudit(old(Contents()), kid)
    {
      log := log + [Event(TokenSigned, kid, SYSTEM)];
    }
  }

  lemma {:induction false} IndexOfIs(keys: seq<Key>, kid: Kid, at: nat)
    requires at < |keys| && keys[at].Kid() == kid
    requires forall j :: 0 <= j < at ==> keys[j].Kid() != kid
    ensures IndexOf(keys, kid) == Some(at)
  {
    assert HasKid(keys, kid);
  }
}
