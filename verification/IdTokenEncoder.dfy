// Encoding one ID token: the configuration is pinned in a context variable while the
// encoder calls the hooks, and the key table may change between any two hook calls.
module IdTokenEncoder {
  import opened Common
  import opened OidcKeys
  import Rotation = OidcRotation

  datatype Hook = PrivateKeyHook | AlgorithmHook | ClaimsHook | HeaderHook

  // What the hook handed to the encoder.
  datatype Answer =
    | PrivateKey(key: int)
    | Algorithm(alg: string)
    | Claims(iss: string, aud: seq<string>, iat: int, exp: int, authTime: int)
    | Header(headerAlg: string, kid: Kid)

  // One thing that happens while the token is being encoded: a hook call, a key operation
  // of somebody else, or an exception.
  datatype Happening =
    | Call(hook: Hook, client: string, now: Time)
    | OtherCreates(material: Material, status: Status, createdAt: Time, actor: string)
    | OtherActivates(kid: Kid, activatedAt: Time, actor: string)
    | OtherRetires(retiredAt: Time, actor: string)
    | Raise

  datatype Failure = NoKey | HookFailed | AuditFailed

  function AnswerFrom(c: JwtConfig, hook: Hook, client: string, now: Time): Answer {
    match hook
    case PrivateKeyHook => PrivateKey(c.key)
    case AlgorithmHook => Algorithm(c.alg)
    case ClaimsHook => Claims(c.iss, [client], WholeSeconds(now), WholeSeconds(now) + c.exp, WholeSeconds(now))
    case HeaderHook => Header(c.alg, c.kid)
  }

  // The answers belong together: one row's private key, algorithm and kid, and the settings' life time.
  ghost predicate FromOneRow(cfg: Settings, k: Key, answers: seq<Answer>) {
    forall i :: 0 <= i < |answers| ==>
      match answers[i]
      case PrivateKey(key) => key == k.material.privateKey
      case Algorithm(alg) => alg == k.material.alg
      case Claims(iss, aud, iat, exp, authTime) => iss == cfg.issuer && exp == iat + cfg.tokenTtl
      case Header(alg, kid) => alg == k.material.alg && kid == k.material.kid
  }

  // The hook calls of a script, in order.
  function CallsMade(script: seq<Happening>): seq<Happening> {
    if |script| == 0 then []
    else CallsMade(script[..|script| - 1]) + (if script[|script| - 1].Call? then [script[|script| - 1]] else [])
  }

  // The answer is of the hook's kind, and claims are issued for the client of this call in the
  // very second of this call.
  predicate AnswersCall(a: Answer, call: Happening)
    requires call.Call?
  {
    match call.hook
    case PrivateKeyHook => a.PrivateKey?
    case AlgorithmHook => a.Algorithm?
    case ClaimsHook =>
      a.Claims? && a.iat * SECOND <= call.now < (a.iat + 1) * SECOND && a.authTime == a.iat && a.aud == [call.client]
    case HeaderHook => a.Header?
  }

  // One answer for each call, in order.
  ghost predicate AnswersCalls(answers: seq<Answer>, calls: seq<Happening>) {
    |answers| == |calls| && forall i :: 0 <= i < |answers| ==> calls[i].Call? && AnswersCall(answers[i], calls[i])
  }

  // Every call of the script is among its calls, as often as it was made, and nothing else is; the
  // calls of a script in two parts are those of the first part followed by those of the second.
  lemma {:induction false} EveryCallIsMade(script: seq<Happening>, h: Happening)
    ensures multiset(CallsMade(script))[h] == if h.Call? then multiset(script)[h] else 0
  {
    if |script| == 0 {
    } else {
      var n := |script| - 1;
      EveryCallIsMade(script[..n], h);
      assert script == script[..n] + [script[n]];
    }
  }

  lemma {:induction false} CallsInOrder(first: seq<Happening>, second: seq<Happening>)
    ensures CallsMade(first + second) == CallsMade(first) + CallsMade(second)
  {
    if |second| == 0 {
      assert first + second == first;
    } else {
      var n := |second| - 1;
      CallsInOrder(first, second[..n]);
      assert (first + second)[..|first + second| - 1] == first + second[..n];
    }
  }

  lemma {:induction false} CallsNext(script: seq<Happening>, n: nat)
    requires n < |script|
    ensures CallsMade(script[..n + 1]) == CallsMade(script[..n]) + if script[n].Call? then [script[n]] else []
  {
    assert script[..n + 1][..n] == script[..n];
  }

  lemma {:induction false} AnswersNext(answers: seq<Answer>, a: Answer, calls: seq<Happening>, call: Happening)
    requires AnswersCalls(answers, calls) && call.Call? && AnswersCall(a, call)
    ensures AnswersCalls(answers + [a], calls + [call])
  {
  }

  lemma {:induction false} OneRowNext(cfg: Settings, k: Key, answers: seq<Answer>, a: Answer)
    requires FromOneRow(cfg, k, answers) && FromOneRow(cfg, k, [a])
    ensures FromOneRow(cfg, k, answers + [a])
  {
    assert [a][0] == a;
  }

  lemma {:induction false} AnswerFits(cfg: Settings, k: Key, hook: Hook, client: string, now: Time)
    ensures var a := AnswerFrom(ConfigOf(cfg, k), hook, client, now);
            AnswersCall(a, Call(hook, client, now)) && FromOneRow(cfg, k, [a])
  {
  }

  // ---------------------------------------------------------------- the signatures the log records

  // The kids of the TokenSigned events, in order.
  function SignedKids(log: seq<Event>): seq<Kid> {
    if |log| == 0 then []
    else
      var last := log[|log| - 1];
      SignedKids(log[..|log| - 1]) + (if last.kind == TokenSigned then [last.kid] else [])
  }

  lemma {:induction false} NothingSigned(log: seq<Event>, more: seq<Event>)
    requires forall i :: 0 <= i < |more| ==> more[i].kind != TokenSigned
    ensures SignedKids(log + more) == SignedKids(log)
  {
    if |more| == 0 {
      assert log + more == log;
    } else {
      NothingSigned(log, more[..|more| - 1]);
      assert (log + more)[..|log + more| - 1] == log + more[..|more| - 1];
    }
  }

  // No operation on the key table records a signature.
  lemma {:induction false} CreateSignsNothing(s: Store, m: Material, status: Status, now: Time, actor: string)
    requires Create(s, m, status, now, actor).Ok?
    ensures SignedKids(Create(s, m, status, now, actor).value.log) == SignedKids(s.log)
  {
    NothingSigned(s.log, CreationEvents(m.kid, status, actor));
  }

  lemma {:induction false} DemotionsAreNoSignatures(keys: seq<Key>, kid: Kid, actor: string)
    ensures forall i :: 0 <= i < |DemotionEvents(keys, kid, actor)| ==>
              DemotionEvents(keys, kid, actor)[i].kind == KeyDemoted
  {
    if |keys| == 0 {
    } else {
      DemotionsAreNoSignatures(keys[..|keys| - 1], kid, actor);
    }
  }

  lemma {:induction false} ActivateSignsNothing(cfg: Settings, s: Store, kid: Kid, now: Time, actor: string)
    requires Activate(cfg, s, kid, now, actor).Ok?
    ensures SignedKids(Activate(cfg, s, kid, now, actor).value.log) == SignedKids(s.log)
  {
    DemotionsAreNoSignatures(s.keys, kid, actor);
    NothingSigned(s.log, DemotionEvents(s.keys, kid, actor));
    NothingSigned(s.log + DemotionEvents(s.keys, kid, actor), [Event(KeyActivated, kid, actor)]);
  }

  lemma {:induction false} RetirementsAreNoSignatures(keys: seq<Key>, now: Time, actor: string)
    ensures forall i :: 0 <= i < |RetirementEvents(keys, now, actor)| ==>
              RetirementEvents(keys, now, actor)[i].kind == KeyRetired
  {
    if |keys| == 0 {
    } else {
      RetirementsAreNoSignatures(keys[..|keys| - 1], now, actor);
    }
  }

  lemma {:induction false} RetireSignsNothing(s: Store, now: Time, actor: string)
    ensures SignedKids(Retire(s, now, actor).log) == SignedKids(s.log)
  {
    RetirementsAreNoSignatures(s.keys, now, actor);
    NothingSigned(s.log, RetirementEvents(s.keys, now, actor));
  }

  lemma {:induction false} BootstrapSignsNothing(s: Store, m: Material, now: Time)
    requires EnsureActive(s, m, now).Ok?
    ensures SignedKids(EnsureActive(s, m, now).value.log) == SignedKids(s.log)
  {
    if !HasActive(s.keys) { CreateSignsNothing(s, m, Active, now, SYSTEM); }
  }

  // ---------------------------------------------------------------- the encoder

  class OpenIDCode {
    const store: KeyStore
    var context: Option<JwtConfig>

    constructor (store: KeyStore)
      ensures this.store == store && context == None
    {
      this.store := store;
      context := None;
    }

    // The pinned configuration, or a fresh reading of the active row when nothing is pinned.
    method CurrentConfig(bootstrap: Material, now: Time) returns (r: Result<JwtConfig, KeyError>)
      requires store.Valid()
      modifies store
      ensures store.Valid()
      ensures context.Some? ==>
                r == Ok(context.value) && store.Contents() == old(store.Contents()) && store.rows == old(store.rows)
      ensures SignedKids(store.log) == SignedKids(old(store.log))
      ensures forall i :: 0 <= i < |store.rows| ==> store.rows[i] in old(store.rows) || fresh(store.rows[i])
      ensures context.None? && r.Ok? ==>
                && FirstActive(Values(store.rows)).Some?
                && r.value == ConfigOf(store.settings, Values(store.rows)[FirstActive(Values(store.rows)).value])
    {
      if context.Some? {
        return Ok(context.value);
      }
      ghost var before := store.Contents();
      r := store.GetActiveJwtConfig(bootstrap, now);
      if r.Ok? { BootstrapSignsNothing(before, bootstrap, now); }
    }

    method CallHook(hook: Hook, client: string, bootstrap: Material, now: Time) returns (r: Result<Answer, KeyError>)
      requires store.Valid()
      modifies store
      ensures store.Valid()
      ensures context.Some? ==>
                && r == Ok(AnswerFrom(context.value, hook, client, now)) && store.rows == old(store.rows)
                && AnswersCall(r.value, Call(hook, client, now))
      ensures r.Ok? && context.None? ==>
                && AnswersCall(r.value, Call(hook, client, now))
                && FirstActive(Values(store.rows)).Some?
                && FromOneRow(store.settings, Values(store.rows)[FirstActive(Values(store.rows)).value], [r.value])
      ensures SignedKids(store.log) == SignedKids(old(store.log))
      ensures forall i :: 0 <= i < |store.rows| ==> store.rows[i] in old(store.rows) || fresh(store.rows[i])
    {
      var c := CurrentConfig(bootstrap, now);
      if c.Err? {
        return Err(c.error);
      }
      match hook {
        case PrivateKeyHook => return Ok(PrivateKey(c.value.key));
        case AlgorithmHook => return Ok(Algorithm(c.value.alg));
        case ClaimsHook =>
          var issued := WholeSeconds(now);
          return Ok(Claims(c.value.iss, [client], issued, issued + c.value.exp, issued));
        case HeaderHook => return Ok(Header(c.value.alg, c.value.kid));
      }
    }

    method OtherOperation(h: Happening)
      requires store.Valid() && !h.Call? && !h.Raise?
      modifies store, store.rows
      ensures store.Valid()
      ensures forall i :: 0 <= i < |store.rows| ==> store.rows[i] in old(store.rows) || fresh(store.rows[i])
      ensures SignedKids(store.log) == SignedKids(old(store.log))
    {
      ghost var before := store.Contents();
      match h {
        case OtherCreates(m, status, now, actor) =>
          var made := store.CreateSigningKey(m, status, now, actor);
          if made.Ok? { CreateSignsNothing(before, m, status, now, actor); }
        case OtherActivates(kid, now, actor) =>
          var activated := store.ActivateSigningKey(kid, now, actor);
          if activated.Ok? { ActivateSignsNothing(store.settings, before, kid, now, actor); }
        case OtherRetires(now, actor) =>
          var _ := store.RetireExpiredSigningKeys(now, actor);
          RetireSignsNothing(before, now, actor);
      }
    }

    // The base encoder: it calls the hooks in any order and any number of times.
    method EncodeWithHooks(script: seq<Happening>, bootstrap: Material) returns (done: bool, answers: seq<Answer>)
      requires store.Valid() && context.Some?
      modifies store, store.rows
      ensures store.Valid()
      ensures forall i :: 0 <= i < |store.rows| ==> store.rows[i] in old(store.rows) || fresh(store.rows[i])
      ensures SignedKids(store.log) == SignedKids(old(store.log))
      ensures done <==> Raise !in script
      ensures done ==> AnswersCalls(answers, CallsMade(script))
      ensures forall cfg, k :: context.value == ConfigOf(cfg, k) ==> FromOneRow(cfg, k, answers)
    {
      answers := [];
      for n := 0 to |script|
        invariant store.Valid()
        invariant forall i :: 0 <= i < |store.rows| ==> store.rows[i] in old(store.rows) || fresh(store.rows[i])
        invariant SignedKids(store.log) == SignedKids(old(store.log))
        invariant Raise !in script[..n]
        invariant AnswersCalls(answers, CallsMade(script[..n]))
        invariant forall cfg, k :: context.value == ConfigOf(cfg, k) ==> FromOneRow(cfg, k, answers)
      {
        CallsNext(script, n);
        var h := script[n];
        if h.Raise? {
          return false, answers;
        }
        if h.Call? {
          var a := CallHook(h.hook, h.client, bootstrap, h.now);
          AnswersNext(answers, a.value, CallsMade(script[..n]), h);
          forall cfg, k | context.value == ConfigOf(cfg, k) ensures FromOneRow(cfg, k, answers + [a.value]) {
            AnswerFits(cfg, k, h.hook, h.client, h.now);
            assert FromOneRow(cfg, k, answers) && FromOneRow(cfg, k, [a.value]);
            OneRowNext(cfg, k, answers, a.value);
          }
          answers := answers + [a.value];
        } else {
          OtherOperation(h);
        }
      }
      assert script[..|script|] == script;
      return true, answers;
    }

    // The active row is read once; every answer comes from it. The context variable is what
    // it was before on every exit. A token that was encoded is audited as signed, once and under
    // the kid of that row; every other exit records no signature.
    method EncodeIdToken(script: seq<Happening>, bootstrap: Material, now: Time, auditWorks: bool)
      returns (r: Result<seq<Answer>, Failure>)
      requires store.Valid()
      modifies this, store, store.rows
      ensures store.Valid() && context == old(context)
      ensures r.Ok? <==> EnsureActive(old(store.Contents()), bootstrap, now).Ok? && Raise !in script && auditWorks
      ensures r.Ok? ==>
                var keys := EnsureActive(old(store.Contents()), bootstrap, now).value.keys;
                && FirstActive(keys).Some?
                && var signer := keys[FirstActive(keys).value];
                   && FromOneRow(store.settings, signer, r.value)
                   && |store.log| > 0 && store.log[|store.log| - 1] == Event(TokenSigned, signer.Kid(), SYSTEM)
                   && SignedKids(store.log) == SignedKids(old(store.log)) + [signer.Kid()]
      ensures r.Err? ==> SignedKids(store.log) == SignedKids(old(store.log))
      ensures r.Ok? ==> AnswersCalls(r.value, CallsMade(script))
    {
      ghost var entry := store.Contents();
      var config := store.GetActiveJwtConfig(bootstrap, now);
      if config.Err? {
        return Err(NoKey);
      }
      BootstrapSignsNothing(entry, bootstrap, now);
      ghost var keys := store.Contents().keys;
      ghost var signer := keys[FirstActive(keys).value];
      var before := context;
      context := Some(config.value);
      var done, answers := EncodeWithHooks(script, bootstrap);
      assert FromOneRow(store.settings, signer, answers);
      if !done {
        r := Err(HookFailed);
      } else if !auditWorks {
        r := Err(AuditFailed);
      } else {
        ghost var log := store.log;
        store.AuditTokenSigned(config.value.kid);
        assert store.log[..|log|] == log;
        r := Ok(answers);
      }
      context := before;
    }
  }

  // ---------------------------------------------------------------- the encoder's tokens in the rotation system

  lemma {:induction false} IssuedStays(cfg: Settings, s: Rotation.System, steps: seq<Rotation.Step>, i: nat)
    requires i < |s.issued|
    ensures i < |Rotation.Run(cfg, s, steps).issued| && Rotation.Run(cfg, s, steps).issued[i] == s.issued[i]
    decreases |steps|
  {
    if |steps| == 0 {
    } else {
      IssuedStays(cfg, s, steps[..|steps| - 1], i);
    }
  }

  // The claims a signer stamps and the header it writes, when it signs in this state.
  ghost predicate Stamped(
    cfg: Settings, s: Rotation.System, signer: nat, k: Key, client: string, claims: Answer, header: Answer) {
    && signer in s.held && s.held[signer].kid == k.Kid()
    && FromOneRow(cfg, k, [claims, header])
    && AnswersCall(claims, Call(ClaimsHook, client, s.clock)) && header.Header?
  }

  // The token the rotation system issues is the encoder's: same kid, same exp, signed now.
  lemma {:induction false} SignIssuesEncoded(
    cfg: Settings, s: Rotation.System, signer: nat, k: Key, client: string, claims: Answer, header: Answer)
    requires Stamped(cfg, s, signer, k, client, claims, header)
    ensures var t := Rotation.Next(cfg, s, Rotation.Sign(signer));
            |t.issued| == |s.issued| + 1 &&
            t.issued[|s.issued|] == Rotation.Token(header.kid, s.held[signer].readAt, s.clock, claims.exp)
  {
    assert [claims, header][0] == claims && [claims, header][1] == header;
    assert claims.iat == WholeSeconds(s.clock);
  }

  // Whatever runs before and after the signing: the kid of the encoded header is in the key set at
  // every moment up to the encoded exp if the signer held its key for at most C + M, and up to
  // exp + C + M if it signed at once.
  lemma {:induction false} EncodedTokenStaysPublished(
    cfg: Settings, past: seq<Rotation.Step>, signer: nat, future: seq<Rotation.Step>,
    k: Key, client: string, claims: Answer, header: Answer, bootstrap: Material)
    requires Stamped(cfg, Rotation.Run(cfg, Rotation.Init(), past), signer, k, client, claims, header)
    ensures var s := Rotation.Run(cfg, Rotation.Init(), past);
            var end := Rotation.Run(cfg, Rotation.Init(), past + [Rotation.Sign(signer)] + future);
            var gap, grace := s.clock - s.held[signer].readAt, (cfg.cacheTtl + cfg.margin) * SECOND;
            && (gap <= grace && end.clock <= claims.exp * SECOND ==>
                  header.kid in Rotation.JwksSeen(cfg, end, bootstrap))
            && (gap == 0 && end.clock <= claims.exp * SECOND + grace ==>
                  header.kid in Rotation.JwksSeen(cfg, end, bootstrap))
  {
    var s := Rotation.Run(cfg, Rotation.Init(), past);
    var signed := past + [Rotation.Sign(signer)];
    var i := |s.issued|;
    SignIssuesEncoded(cfg, s, signer, k, client, claims, header);
    assert signed[..|signed| - 1] == past;
    IssuedStays(cfg, Rotation.Run(cfg, Rotation.Init(), signed), future, i);
    Rotation.RunAppend(cfg, Rotation.Init(), signed, future);
    var steps := signed + future;
    var end := Rotation.Run(cfg, Rotation.Init(), steps);
    var gap, grace := s.clock - s.held[signer].readAt, (cfg.cacheTtl + cfg.margin) * SECOND;
    if gap <= grace && end.clock <= claims.exp * SECOND { Rotation.InFlightSafety(cfg, steps, i, bootstrap); }
    if gap == 0 && end.clock <= claims.exp * SECOND + grace { Rotation.RotationSafety(cfg, steps, i, bootstrap); }
  }
}
