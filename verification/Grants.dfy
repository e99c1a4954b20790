// Authorization codes and refresh tokens: the rows, the hooks the grants call on them, and
// every run of exchanges.
module Grants {
  import opened Common

  type Code = string
  type RefreshToken = string
  type ClientId = string
  type UserId = nat

  // Life time of a code, in seconds.
  const CODE_SECONDS := 300

  // auth_time, issued_at and refresh_token_revoked_at are whole seconds; a zero revocation
  // stamp means not revoked. grant remembers the code an access goes back to.
  datatype CodeRow = CodeRow(client: ClientId, user: UserId, authTime: int)

  datatype TokenRow = TokenRow(
    refresh: Option<RefreshToken>, client: ClientId, user: UserId,
    issuedAt: int, expiresIn: nat, revokedAt: int, grant: Code)

  datatype Vault = Vault(codes: map<Code, CodeRow>, tokens: seq<TokenRow>)

  predicate IsExpired(c: CodeRow, now: Time) {
    (c.authTime + CODE_SECONDS) * SECOND < now
  }

  predicate IsRefreshActive(t: TokenRow, now: Time) {
    t.revokedAt == 0 && (t.issuedAt + t.expiresIn * 2) * SECOND >= now
  }

  function FindToken(tokens: seq<TokenRow>, refresh: RefreshToken): (r: Option<nat>)
    ensures r.Some? ==> r.value < |tokens| && tokens[r.value].refresh == Some(refresh)
    ensures r.None? ==> forall i :: 0 <= i < |tokens| ==> tokens[i].refresh != Some(refresh)
  {
    if |tokens| == 0 then None
    else
      var n := |tokens| - 1;
      var before := FindToken(tokens[..n], refresh);
      if before.Some? then before
      else if tokens[n].refresh == Some(refresh) then Some(n)
      else
        assert forall i :: 0 <= i < n ==> tokens[i] == tokens[..n][i];
        None
  }

  // ---------------------------------------------------------------- the hooks

  function QueryCode(v: Vault, code: Code, client: ClientId, now: Time): Option<CodeRow> {
    if code in v.codes && v.codes[code].client == client && !IsExpired(v.codes[code], now) then Some(v.codes[code])
    else None
  }

  function AuthenticateRefresh(v: Vault, refresh: RefreshToken, now: Time): Option<nat> {
    match FindToken(v.tokens, refresh)
    case Some(i) => if IsRefreshActive(v.tokens[i], now) then Some(i) else None
    case None => None
  }

  // One code exchange: query the code, save the token, delete the code.
  function ExchangeCode(
    v: Vault, code: Code, client: ClientId, refresh: Option<RefreshToken>, expiresIn: nat, now: Time): Option<Vault> {
    match QueryCode(v, code, client, now)
    case None => None
    case Some(row) =>
      var token := TokenRow(refresh, client, row.user, WholeSeconds(now), expiresIn, 0, code);
      Some(Vault(v.codes - {code}, v.tokens + [token]))
  }

  // One refresh: authenticate the token and its client, save the new token, revoke the old one.
  function ExchangeRefresh(
    v: Vault, refresh: RefreshToken, client: ClientId, next: Option<RefreshToken>, expiresIn: nat, now: Time)
    : Option<Vault>
  {
    match AuthenticateRefresh(v, refresh, now)
    case None => None
    case Some(i) =>
      var spentRow := v.tokens[i];
      if spentRow.client != client then None
      else
        Some(v.(tokens := v.tokens[i := spentRow.(revokedAt := WholeSeconds(now))] +
                          [TokenRow(next, client, spentRow.user, WholeSeconds(now), expiresIn, 0, spentRow.grant)]))
  }

  // This token stands in one row only.
  ghost predicate OnlyRow(tokens: seq<TokenRow>, refresh: RefreshToken, i: nat) {
    i < |tokens| && forall j :: 0 <= j < |tokens| ==> (tokens[j].refresh == Some(refresh) <==> j == i)
  }

  // A row as an exchange of this moment saves it: issued in the very second, not revoked.
  predicate IssuedNow(t: TokenRow, refresh: Option<RefreshToken>, client: ClientId, user: UserId, expiresIn: nat,
                      grant: Code, now: Time) {
    && t.refresh == refresh && t.client == client && t.user == user && t.expiresIn == expiresIn && t.grant == grant
    && t.revokedAt == 0 && t.issuedAt * SECOND <= now < (t.issuedAt + 1) * SECOND
  }

  class GrantStore {
    var codes: map<Code, CodeRow>
    var tokens: seq<TokenRow>

    ghost function Contents(): Vault
      reads this
    {
      Vault(codes, tokens)
    }

    constructor ()
      ensures Contents() == Vault(map[], [])
    {
      codes, tokens := map[], [];
    }

    method SaveAuthorizationCode(code: Code, client: ClientId, user: UserId, now: Time)
      modifies this`codes
      ensures codes == old(codes)[code := CodeRow(client, user, WholeSeconds(now))]
    {
      codes := codes[code := CodeRow(client, user, WholeSeconds(now))];
    }

    method QueryAuthorizationCode(code: Code, client: ClientId, now: Time) returns (row: Option<CodeRow>)
      ensures row == QueryCode(Contents(), code, client, now)
      ensures row.Some? <==>
                code in codes && codes[code].client == client && now <= (codes[code].authTime + 300) * SECOND
      ensures row.Some? ==> row.value == codes[code]
    {
      if code in codes && codes[code].client == client {
        var item := codes[code];
        if !IsExpired(item, now) {
          return Some(item);
        }
      }
      return None;
    }

    method DeleteAuthorizationCode(code: Code)
      modifies this`codes
      ensures codes == old(codes) - {code}
    {
      codes := codes - {code};
    }

    method AuthenticateRefreshToken(refresh: RefreshToken, now: Time) returns (at: Option<nat>)
      ensures at == AuthenticateRefresh(Contents(), refresh, now)
      ensures at.Some? ==>
                && at.value < |tokens| && tokens[at.value].refresh == Some(refresh)
                && tokens[at.value].revokedAt == 0
                && now <= (tokens[at.value].issuedAt + 2 * tokens[at.value].expiresIn) * SECOND
      ensures forall i: nat :: OnlyRow(tokens, refresh, i) ==>
                (at == Some(i) <==>
                  tokens[i].revokedAt == 0 && now <= (tokens[i].issuedAt + 2 * tokens[i].expiresIn) * SECOND)
    {
      var found := FindToken(tokens, refresh);
      if found.Some? {
        var token := tokens[found.value];
        if token.revokedAt != 0 {
          return None;
        }
        var expiresAt := token.issuedAt + token.expiresIn * 2;
        if expiresAt * SECOND >= now {
          return found;
        }
      }
      return None;
    }

    method RevokeOldCredential(at: nat, now: Time)
      requires at < |tokens|
      modifies this`tokens
      ensures tokens == old(tokens)[at := old(tokens)[at].(revokedAt := WholeSeconds(now))]
    {
      tokens := tokens[at := tokens[at].(revokedAt := WholeSeconds(now))];
    }

    // The hooks in the order of section 4.1.3 of RFC 6749.
    method TokenForCode(code: Code, client: ClientId, refresh: Option<RefreshToken>, expiresIn: nat, now: Time)
      returns (ok: bool)
      modifies this
      ensures match ExchangeCode(old(Contents()), code, client, refresh, expiresIn, now)
              case Some(after) => ok && Contents() == after
              case None => !ok && Contents() == old(Contents())
      ensures ok <==>
                && code in old(codes) && old(codes)[code].client == client
                && now <= (old(codes)[code].authTime + 300) * SECOND
      ensures ok ==>
                && code !in codes && |tokens| == |old(tokens)| + 1
                && IssuedNow(tokens[|old(tokens)|], refresh, client, old(codes)[code].user, expiresIn, code, now)
      ensures forall c :: c != code ==> (c in codes <==> c in old(codes)) && (c in codes ==> codes[c] == old(codes)[c])
      ensures |old(tokens)| <= |tokens| && tokens[..|old(tokens)|] == old(tokens)
    {
      var row := QueryAuthorizationCode(code, client, now);
      if row.None? {
        return false;
      }
      tokens := tokens + [TokenRow(refresh, client, row.value.user, WholeSeconds(now), expiresIn, 0, code)];
      DeleteAuthorizationCode(code);
      return true;
    }

    // The hooks in the order of section 6 of RFC 6749.
    method TokenForRefresh(
      refresh: RefreshToken, client: ClientId, next: Option<RefreshToken>, expiresIn: nat, now: Time) returns (ok: bool)
      modifies this
      ensures match ExchangeRefresh(old(Contents()), refresh, client, next, expiresIn, now)
              case Some(after) => ok && Contents() == after
              case None => !ok && Contents() == old(Contents())
      ensures forall i: nat :: OnlyRow(old(tokens), refresh, i) ==>
                && (ok <==>
                     && old(tokens)[i].revokedAt == 0 && old(tokens)[i].client == client
                     && now <= (old(tokens)[i].issuedAt + 2 * old(tokens)[i].expiresIn) * SECOND)
                && (ok ==>
                     && i < |old(tokens)| < |tokens|
                     && tokens[i] == old(tokens)[i].(revokedAt := WholeSeconds(now))
                     && IssuedNow(tokens[|old(tokens)|], next, client, old(tokens)[i].user, expiresIn,
                                  old(tokens)[i].grant, now))
      ensures codes == old(codes) && |tokens| == |old(tokens)| + if ok then 1 else 0
      ensures forall i :: 0 <= i < |old(tokens)| ==>
                tokens[i] == old(tokens)[i] || (ok && old(tokens)[i].refresh == Some(refresh)
                                                && tokens[i] == old(tokens)[i].(revokedAt := WholeSeconds(now)))
    {
      var at := AuthenticateRefreshToken(refresh, now);
      if at.None? || tokens[at.value].client != client {
        return false;
      }
      var spentRow := tokens[at.value];
      tokens := tokens + [TokenRow(next, client, spentRow.user, WholeSeconds(now), expiresIn, 0, spentRow.grant)];
      RevokeOldCredential(at.value, now);
      return true;
    }
  }

  // ---------------------------------------------------------------- every run of exchanges

  datatype Redemption = Redemption(code: Code, client: ClientId, redeemedAt: Time)

  datatype Spending = Spending(refresh: RefreshToken, spentAt: Time, expiresAt: int)

  // issued remembers every code ever saved; redeemed and spent every successful exchange.
  datatype State = State(
    vault: Vault,
    clock: Time,
    issued: map<Code, CodeRow>,
    redeemed: seq<Redemption>,
    spent: seq<Spending>)

  datatype Step =
    | Authorize(code: Code, client: ClientId, user: UserId)
    | Redeem(code: Code, client: ClientId, next: Option<RefreshToken>, expiresIn: nat)
    | Renew(presented: RefreshToken, client: ClientId, next: Option<RefreshToken>, expiresIn: nat)
    | Tick(elapsed: nat)

  predicate FreshToken(v: Vault, t: Option<RefreshToken>) {
    t.Some? ==> FindToken(v.tokens, t.value).None?
  }

  // Codes and refresh tokens are random texts: a new one differs from all earlier ones.
  function Next(s: State, step: Step): State {
    match step
    case Authorize(code, client, user) =>
      if code in s.issued then s
      else
        var row := CodeRow(client, user, WholeSeconds(s.clock));
        s.(vault := s.vault.(codes := s.vault.codes[code := row]), issued := s.issued[code := row])
    case Redeem(code, client, refresh, expiresIn) =>
      if !FreshToken(s.vault, refresh) then s
      else
        (match ExchangeCode(s.vault, code, client, refresh, expiresIn, s.clock)
         case None => s
         case Some(v) => s.(vault := v, redeemed := s.redeemed + [Redemption(code, client, s.clock)]))
    case Renew(refresh, client, next, expiresIn) =>
      if !FreshToken(s.vault, next) then s
      else
        (match ExchangeRefresh(s.vault, refresh, client, next, expiresIn, s.clock)
         case None => s
         case Some(v) =>
           var spentRow := s.vault.tokens[FindToken(s.vault.tokens, refresh).value];
           s.(vault := v, spent := s.spent + [Spending(refresh, s.clock, spentRow.issuedAt + spentRow.expiresIn * 2)]))
    case Tick(elapsed) => s.(clock := s.clock + elapsed)
  }

  function Run(s: State, steps: seq<Step>): State {
    if |steps| == 0 then s else Next(Run(s, steps[..|steps| - 1]), steps[|steps| - 1])
  }

  function Start(clock: Time): State {
    State(Vault(map[], []), clock, map[], [], [])
  }

  predicate Live(t: TokenRow) {
    t.refresh.Some? && t.revokedAt == 0
  }

  ghost predicate CodesSound(s: State) {
    && (forall c :: c in s.vault.codes ==> c in s.issued && s.issued[c] == s.vault.codes[c])
    && (forall i :: 0 <= i < |s.redeemed| ==> RedemptionSound(s, s.redeemed[i]))
    && (forall i, j :: 0 <= i < j < |s.redeemed| ==> s.redeemed[i].code != s.redeemed[j].code)
  }

  // Redeemed by the client it was issued to, in time, and gone since.
  ghost predicate RedemptionSound(s: State, r: Redemption) {
    && r.code in s.issued && r.code !in s.vault.codes
    && r.client == s.issued[r.code].client
    && r.redeemedAt <= (s.issued[r.code].authTime + CODE_SECONDS) * SECOND
  }

  // Goes back to a code that is gone, and stays with that code's client and user.
  ghost predicate TokenSound(s: State, t: TokenRow) {
    && t.grant in s.issued && t.grant !in s.vault.codes
    && t.client == s.issued[t.grant].client && t.user == s.issued[t.grant].user
  }

  ghost predicate TokensSound(s: State) {
    && (forall i :: 0 <= i < |s.vault.tokens| ==> TokenSound(s, s.vault.tokens[i]))
    && (forall i, j :: 0 <= i < j < |s.vault.tokens| && s.vault.tokens[i].refresh.Some? ==>
          s.vault.tokens[i].refresh != s.vault.tokens[j].refresh)
    && OneLivePerGrant(s.vault.tokens)
  }

  ghost predicate OneLivePerGrant(tokens: seq<TokenRow>) {
    forall i, j :: 0 <= i < j < |tokens| && Live(tokens[i]) && Live(tokens[j]) ==> tokens[i].grant != tokens[j].grant
  }

  predicate SpentRow(t: TokenRow, refresh: RefreshToken) {
    t.refresh == Some(refresh) && t.revokedAt != 0
  }

  ghost predicate SpendingSound(s: State, x: Spending) {
    && (exists i :: 0 <= i < |s.vault.tokens| && SpentRow(s.vault.tokens[i], x.refresh))
    && x.spentAt <= x.expiresAt * SECOND
  }

  ghost predicate SpendingsSound(s: State) {
    && (forall i :: 0 <= i < |s.spent| ==> SpendingSound(s, s.spent[i]))
    && (forall i, j :: 0 <= i < j < |s.spent| ==> s.spent[i].refresh != s.spent[j].refresh)
  }

  ghost predicate Inv(s: State) {
    s.clock >= SECOND && CodesSound(s) && TokensSound(s) && SpendingsSound(s)
  }

  lemma {:induction false} SpendingsStay(s: State, t: State)
    requires SpendingsSound(s) && t.spent == s.spent
    requires |s.vault.tokens| <= |t.vault.tokens|
    requires forall i :: 0 <= i < |s.vault.tokens| ==> t.vault.tokens[i] == s.vault.tokens[i]
    ensures SpendingsSound(t)
  {
    forall i | 0 <= i < |t.spent| ensures SpendingSound(t, t.spent[i]) {
      assert SpendingSound(s, s.spent[i]);
      var j :| 0 <= j < |s.vault.tokens| && SpentRow(s.vault.tokens[j], s.spent[i].refresh);
      assert SpentRow(t.vault.tokens[j], t.spent[i].refresh);
    }
  }

  lemma {:induction false} AuthorizeKeeps(s: State, code: Code, client: ClientId, user: UserId)
    requires Inv(s)
    ensures Inv(Next(s, Authorize(code, client, user)))
  {
    var t := Next(s, Authorize(code, client, user));
    SpendingsStay(s, t);
  }

  lemma {:induction false} RedeemKeeps(
    s: State, code: Code, client: ClientId, refresh: Option<RefreshToken>, expiresIn: nat)
    requires Inv(s)
    ensures Inv(Next(s, Redeem(code, client, refresh, expiresIn)))
  {
    var t := Next(s, Redeem(code, client, refresh, expiresIn));
    if t != s {
      RedeemKeepsCodes(s, code, client, refresh, expiresIn);
      SpendingsStay(s, t);
      assert TokensSound(t);
    }
  }

  lemma {:induction false} RedeemKeepsCodes(
    s: State, code: Code, client: ClientId, refresh: Option<RefreshToken>, expiresIn: nat)
    requires CodesSound(s)
    ensures CodesSound(Next(s, Redeem(code, client, refresh, expiresIn)))
  {
    var t := Next(s, Redeem(code, client, refresh, expiresIn));
    if t != s {
      forall i | 0 <= i < |s.redeemed| ensures RedemptionSound(t, s.redeemed[i]) && s.redeemed[i].code != code {
        assert RedemptionSound(s, s.redeemed[i]);
      }
    }
  }

  // The old token dies in the step that brings the new one to life.
  lemma {:induction false} RenewKeepsTokens(
    s: State, refresh: RefreshToken, client: ClientId, next: Option<RefreshToken>, expiresIn: nat)
    requires TokensSound(s) && s.clock >= SECOND
    ensures TokensSound(Next(s, Renew(refresh, client, next, expiresIn)))
  {
    var t := Next(s, Renew(refresh, client, next, expiresIn));
    if t != s {
      var at := FindToken(s.vault.tokens, refresh).value;
      assert Live(s.vault.tokens[at]) && !Live(t.vault.tokens[at]);
      forall i | 0 <= i < |s.vault.tokens| && i != at
        ensures t.vault.tokens[i] == s.vault.tokens[i]
                && (Live(t.vault.tokens[i]) ==> t.vault.tokens[i].grant != s.vault.tokens[at].grant) {
      }
    }
  }

  lemma {:induction false} RenewKeepsSpendings(
    s: State, refresh: RefreshToken, client: ClientId, next: Option<RefreshToken>, expiresIn: nat)
    requires TokensSound(s) && SpendingsSound(s) && s.clock >= SECOND
    ensures SpendingsSound(Next(s, Renew(refresh, client, next, expiresIn)))
  {
    var t := Next(s, Renew(refresh, client, next, expiresIn));
    if t != s {
      var at := FindToken(s.vault.tokens, refresh).value;
      assert SpentRow(t.vault.tokens[at], refresh);
      forall i | 0 <= i < |s.spent| ensures SpendingSound(t, s.spent[i]) && s.spent[i].refresh != refresh {
        assert SpendingSound(s, s.spent[i]);
        var j :| 0 <= j < |s.vault.tokens| && SpentRow(s.vault.tokens[j], s.spent[i].refresh);
        assert j != at;
        assert SpentRow(t.vault.tokens[j], s.spent[i].refresh);
      }
    }
  }

  lemma {:induction false} StepKeepsInv(s: State, step: Step)
    requires Inv(s)
    ensures Inv(Next(s, step))
  {
    match step
    case Authorize(code, client, user) => AuthorizeKeeps(s, code, client, user);
    case Redeem(code, client, refresh, expiresIn) => RedeemKeeps(s, code, client, refresh, expiresIn);
    case Renew(refresh, client, next, expiresIn) =>
      RenewKeepsTokens(s, refresh, client, next, expiresIn);
      RenewKeepsSpendings(s, refresh, client, next, expiresIn);
    case Tick(elapsed) => SpendingsStay(s, Next(s, step));
  }

  lemma {:induction false} RunKeepsInv(s: State, steps: seq<Step>)
    requires Inv(s)
    ensures Inv(Run(s, steps))
    decreases |steps|
  {
    if |steps| == 0 {
    } else {
      RunKeepsInv(s, steps[..|steps| - 1]);
      StepKeepsInv(Run(s, steps[..|steps| - 1]), steps[|steps| - 1]);
    }
  }

  // A refresh token is spent at most once, however often it is presented.
  ghost predicate SpentOnce(s: State) {
    forall i, j :: 0 <= i < j < |s.spent| ==> s.spent[i].refresh != s.spent[j].refresh
  }

  // In every run: a code is redeemed at most once, by the client it was issued to and no later
  // than 300 seconds after auth_time; a refresh token is spent at most once and no later than
  // issued_at + 2 * expires_in; every token stays with the client and user of its code; and an
  // authorization never has two unrevoked refresh tokens.
  lemma {:induction false} SingleUse(clock: Time, steps: seq<Step>)
    requires clock >= SECOND
    ensures var s := Run(Start(clock), steps);
            && (forall i :: 0 <= i < |s.redeemed| ==> RedemptionSound(s, s.redeemed[i]))
            && (forall i, j :: 0 <= i < j < |s.redeemed| ==> s.redeemed[i].code != s.redeemed[j].code)
            && (forall i :: 0 <= i < |s.spent| ==> SpendingSound(s, s.spent[i]))
            && SpentOnce(s)
            && (forall i :: 0 <= i < |s.vault.tokens| ==> TokenSound(s, s.vault.tokens[i]))
            && OneLivePerGrant(s.vault.tokens)
  {
    RunKeepsInv(Start(clock), steps);
  }

  // ---------------------------------------------------------------- the clock single use needs

  lemma {:induction false} RunSnoc(s: State, steps: seq<Step>, step: Step)
    ensures Run(s, steps + [step]) == Next(Run(s, steps), step)
  {
    assert (steps + [step])[..|steps|] == steps;
  }

  // A code is exchanged for a token, and the token is presented twice.
  function SpendTwice(wait: nat): seq<Step> {
    [Tick(wait)] + [Authorize("c", "client", 0)] + [Redeem("c", "client", Some("r"), 1)]
    + [Renew("r", "client", None, 1)] + [Renew("r", "client", None, 1)]
  }

  // Before the clock's first full second the token is issued and spent with a zero stamp ...
  lemma {:induction false} FirstSpending(s: State)
    requires s.clock / SECOND == 0 && s.vault == Vault(map[], []) && s.issued == map[] && s.spent == []
    ensures var t := Next(Next(Next(s, Authorize("c", "client", 0)), Redeem("c", "client", Some("r"), 1)),
                          Renew("r", "client", None, 1));
            && t.clock == s.clock && |t.spent| == 1 && t.spent[0].refresh == "r"
            && |t.vault.tokens| == 2 && t.vault.tokens[1].refresh == None
            && t.vault.tokens[0] == TokenRow(Some("r"), "client", 0, 0, 1, 0, "c")
  {
    var a := Next(s, Authorize("c", "client", 0));
    var b := Next(a, Redeem("c", "client", Some("r"), 1));
    assert b.vault.tokens == [TokenRow(Some("r"), "client", 0, 0, 1, 0, "c")];
    assert FindToken(b.vault.tokens, "r") == Some(0);
  }

  // ... which reads as not revoked, so that it can be spent again.
  lemma {:induction false} SecondSpending(t: State)
    requires t.clock / SECOND == 0 && |t.spent| == 1 && t.spent[0].refresh == "r"
    requires |t.vault.tokens| == 2 && t.vault.tokens[1].refresh == None
    requires t.vault.tokens[0] == TokenRow(Some("r"), "client", 0, 0, 1, 0, "c")
    ensures !SpentOnce(Next(t, Renew("r", "client", None, 1)))
  {
    var u := Next(t, Renew("r", "client", None, 1));
    assert FindToken(t.vault.tokens, "r") == Some(0);
    assert |u.spent| == 2 && u.spent[0].refresh == u.spent[1].refresh;
  }

  lemma {:induction false} SpendTwiceWorks(clock: Time, wait: nat)
    requires 0 <= clock + wait < SECOND
    ensures !SpentOnce(Run(Start(clock), SpendTwice(wait)))
  {
    var s0, s1 := [Tick(wait)], [Tick(wait)] + [Authorize("c", "client", 0)];
    var s2 := s1 + [Redeem("c", "client", Some("r"), 1)];
    var s3 := s2 + [Renew("r", "client", None, 1)];
    RunSnoc(Start(clock), [], Tick(wait));
    assert [] + [Tick(wait)] == s0;
    RunSnoc(Start(clock), s0, Authorize("c", "client", 0));
    RunSnoc(Start(clock), s1, Redeem("c", "client", Some("r"), 1));
    RunSnoc(Start(clock), s2, Renew("r", "client", None, 1));
    RunSnoc(Start(clock), s3, Renew("r", "client", None, 1));
    FirstSpending(Run(Start(clock), s0));
    SecondSpending(Run(Start(clock), s3));
  }

  // A zero revocation stamp reads as not revoked, so single use holds in all runs exactly when
  // they start after the first second of the epoch.
  lemma {:induction false} SingleUseNeedsAClock(clock: Time)
    ensures (forall steps :: SpentOnce(Run(Start(clock), steps))) <==> clock >= SECOND
  {
    if clock >= SECOND {
      forall steps ensures SpentOnce(Run(Start(clock), steps)) {
        SingleUse(clock, steps);
      }
    } else {
      SpendTwiceWorks(clock, if clock < 0 then -clock else 0);
    }
  }

  // ---------------------------------------------------------------- what is due is always given

  ghost predicate Redeemed(s: State, code: Code) {
    exists k :: 0 <= k < |s.redeemed| && s.redeemed[k].code == code
  }

  ghost predicate Spent(s: State, refresh: RefreshToken) {
    exists k :: 0 <= k < |s.spent| && s.spent[k].refresh == refresh
  }

  // A code that is gone was redeemed, a row that is revoked was spent.
  ghost predicate Explained(s: State) {
    && (forall c :: c in s.issued && c !in s.vault.codes ==> Redeemed(s, c))
    && (forall i :: 0 <= i < |s.vault.tokens| && s.vault.tokens[i].revokedAt != 0 ==>
          s.vault.tokens[i].refresh.Some? && Spent(s, s.vault.tokens[i].refresh.value))
  }

  ghost predicate HistoryGrows(s: State, t: State) {
    && |s.redeemed| <= |t.redeemed| && t.redeemed[..|s.redeemed|] == s.redeemed
    && |s.spent| <= |t.spent| && t.spent[..|s.spent|] == s.spent
  }

  lemma {:induction false} HistoryStays(s: State, step: Step)
    ensures HistoryGrows(s, Next(s, step))
  {
  }

  lemma {:induction false} GrownHistoryKeeps(s: State, t: State)
    requires HistoryGrows(s, t)
    ensures forall c :: Redeemed(s, c) ==> Redeemed(t, c)
    ensures forall r :: Spent(s, r) ==> Spent(t, r)
  {
    forall c | Redeemed(s, c) ensures Redeemed(t, c) {
      var k :| 0 <= k < |s.redeemed| && s.redeemed[k].code == c;
      assert t.redeemed[k] == t.redeemed[..|s.redeemed|][k];
    }
    forall r | Spent(s, r) ensures Spent(t, r) {
      var k :| 0 <= k < |s.spent| && s.spent[k].refresh == r;
      assert t.spent[k] == t.spent[..|s.spent|][k];
    }
  }

  lemma {:induction false} StepExplains(s: State, step: Step)
    requires Explained(s)
    ensures Explained(Next(s, step))
  {
    var t := Next(s, step);
    HistoryStays(s, step);
    GrownHistoryKeeps(s, t);
    match step
    case Redeem(code, client, next, expiresIn) =>
      if t != s { assert t.redeemed[|s.redeemed|].code == code; }
    case Renew(refresh, client, next, expiresIn) =>
      if t != s { assert t.spent[|s.spent|].refresh == refresh; }
    case _ =>
  }

  lemma {:induction false} RunExplains(clock: Time, steps: seq<Step>)
    ensures Explained(Run(Start(clock), steps))
    decreases |steps|
  {
    if |steps| == 0 {
    } else {
      RunExplains(clock, steps[..|steps| - 1]);
      StepExplains(Run(Start(clock), steps[..|steps| - 1]), steps[|steps| - 1]);
    }
  }

  // In every run, a code is exchanged exactly when it has not been redeemed, by its client, until
  // 300 seconds after its auth_time; the new token is issued now, to the code's user.
  lemma {:induction false} RedeemsExactly(
    clock: Time, steps: seq<Step>, code: Code, client: ClientId, next: Option<RefreshToken>, expiresIn: nat)
    requires clock >= SECOND && FreshToken(Run(Start(clock), steps).vault, next)
    ensures var s := Run(Start(clock), steps);
            var t := Next(s, Redeem(code, client, next, expiresIn));
            && (Redeemed(t, code) && !Redeemed(s, code) <==>
                  && code in s.issued && !Redeemed(s, code) && client == s.issued[code].client
                  && s.clock <= (s.issued[code].authTime + 300) * SECOND)
            && (Redeemed(t, code) && !Redeemed(s, code) ==>
                  && |t.vault.tokens| == |s.vault.tokens| + 1
                  && IssuedNow(t.vault.tokens[|s.vault.tokens|], next, client, s.issued[code].user, expiresIn, code,
                               s.clock))
  {
    RunKeepsInv(Start(clock), steps);
    RunExplains(clock, steps);
    var s := Run(Start(clock), steps);
    var t := Next(s, Redeem(code, client, next, expiresIn));
    if Redeemed(s, code) {
      var k :| 0 <= k < |s.redeemed| && s.redeemed[k].code == code;
      assert RedemptionSound(s, s.redeemed[k]);
    }
    if t != s { assert t.redeemed[|s.redeemed|].code == code; }
  }

  // In every run, a token is exchanged exactly when it has not been spent, by its client, until
  // twice its life time after it was issued; the new one is issued now, to the same user, for the
  // same authorization.
  lemma {:induction false} RenewsExactly(
    clock: Time, steps: seq<Step>, i: nat, client: ClientId, next: Option<RefreshToken>, expiresIn: nat)
    requires clock >= SECOND && FreshToken(Run(Start(clock), steps).vault, next)
    requires i < |Run(Start(clock), steps).vault.tokens| && Run(Start(clock), steps).vault.tokens[i].refresh.Some?
    ensures var s := Run(Start(clock), steps);
            var row := s.vault.tokens[i];
            var t := Next(s, Renew(row.refresh.value, client, next, expiresIn));
            && (Spent(t, row.refresh.value) && !Spent(s, row.refresh.value) <==>
                  && !Spent(s, row.refresh.value) && client == row.client
                  && s.clock <= (row.issuedAt + 2 * row.expiresIn) * SECOND)
            && (Spent(t, row.refresh.value) && !Spent(s, row.refresh.value) ==>
                  && |t.vault.tokens| == |s.vault.tokens| + 1
                  && IssuedNow(t.vault.tokens[|s.vault.tokens|], next, client, row.user, expiresIn, row.grant, s.clock))
  {
    RunKeepsInv(Start(clock), steps);
    RunExplains(clock, steps);
    var s := Run(Start(clock), steps);
    var row := s.vault.tokens[i];
    var refresh := row.refresh.value;
    RowIsFound(s.vault.tokens, i);
    LiveMeansUnspent(s, i);
    var t := Next(s, Renew(refresh, client, next, expiresIn));
    if t != s { assert t.spent[|s.spent|].refresh == refresh; }
  }

  lemma {:induction false} RowIsFound(tokens: seq<TokenRow>, i: nat)
    requires i < |tokens| && tokens[i].refresh.Some?
    requires forall j :: 0 <= j < |tokens| && j != i ==> tokens[j].refresh != tokens[i].refresh
    ensures FindToken(tokens, tokens[i].refresh.value) == Some(i)
  {
  }

  lemma {:induction false} LiveMeansUnspent(s: State, i: nat)
    requires TokensSound(s) && SpendingsSound(s) && Explained(s)
    requires i < |s.vault.tokens| && s.vault.tokens[i].refresh.Some?
    ensures s.vault.tokens[i].revokedAt == 0 <==> !Spent(s, s.vault.tokens[i].refresh.value)
  {
    var refresh := s.vault.tokens[i].refresh.value;
    if Spent(s, refresh) {
      var k :| 0 <= k < |s.spent| && s.spent[k].refresh == refresh;
      assert SpendingSound(s, s.spent[k]);
      var j :| 0 <= j < |s.vault.tokens| && SpentRow(s.vault.tokens[j], refresh);
      assert j == i;
    }
  }

  // ---------------------------------------------------------------- where codes and rows come from

  // Step j saved this code, with the words and in the second of that step.
  ghost predicate AuthorizedAt(clock: Time, steps: seq<Step>, code: Code, row: CodeRow, j: nat)
    requires j < |steps|
  {
    var now := Run(Start(clock), steps[..j]).clock;
    && steps[j] == Authorize(code, row.client, row.user)
    && row.authTime * SECOND <= now < (row.authTime + 1) * SECOND
  }

  // Step j made row i: an exchange of a code or of an earlier row, with the words and in the second
  // of that step.
  ghost predicate MadeAt(clock: Time, steps: seq<Step>, i: nat, row: TokenRow, j: nat)
    requires j < |steps|
  {
    var s := Run(Start(clock), steps[..j]);
    && |s.vault.tokens| == i
    && match steps[j]
       case Redeem(code, client, next, expiresIn) =>
         code in s.vault.codes &&
         IssuedNow(row.(revokedAt := 0), next, client, s.vault.codes[code].user, expiresIn, code, s.clock)
       case Renew(presented, client, next, expiresIn) =>
         exists k :: 0 <= k < i && s.vault.tokens[k].refresh == Some(presented) &&
           IssuedNow(row.(revokedAt := 0), next, client, s.vault.tokens[k].user, expiresIn, s.vault.tokens[k].grant,
                     s.clock)
       case _ => false
  }

  lemma {:induction false} StepKeepsOrigins(s: State, step: Step)
    ensures var t := Next(s, step);
            && (forall c :: c in s.issued ==> c in t.issued && t.issued[c] == s.issued[c])
            && |s.vault.tokens| <= |t.vault.tokens| <= |s.vault.tokens| + 1
            && (forall i :: 0 <= i < |s.vault.tokens| ==>
                  t.vault.tokens[i].(revokedAt := 0) == s.vault.tokens[i].(revokedAt := 0))
  {
  }

  lemma {:induction false} CodesAreTraced(clock: Time, steps: seq<Step>, code: Code)
    requires code in Run(Start(clock), steps).issued
    ensures exists j :: 0 <= j < |steps| &&
              AuthorizedAt(clock, steps, code, Run(Start(clock), steps).issued[code], j)
    decreases |steps|
  {
    if |steps| == 0 {
      assert false;
    } else {
      var k := |steps| - 1;
      var s, row := Run(Start(clock), steps[..k]), Run(Start(clock), steps).issued[code];
      if code in s.issued {
        StepKeepsOrigins(s, steps[k]);
        CodesAreTraced(clock, steps[..k], code);
        var j :| 0 <= j < k && AuthorizedAt(clock, steps[..k], code, row, j);
        assert steps[..k][..j] == steps[..j];
        assert AuthorizedAt(clock, steps, code, row, j);
      } else {
        assert AuthorizedAt(clock, steps, code, row, k);
      }
    }
  }

  lemma {:induction false} NewRowIsMade(clock: Time, steps: seq<Step>)
    requires |steps| > 0
    requires var s := Run(Start(clock), steps[..|steps| - 1]);
             |Run(Start(clock), steps).vault.tokens| == |s.vault.tokens| + 1
    ensures var i := |Run(Start(clock), steps[..|steps| - 1]).vault.tokens|;
            MadeAt(clock, steps, i, Run(Start(clock), steps).vault.tokens[i], |steps| - 1)
  {
    var k := |steps| - 1;
    var s := Run(Start(clock), steps[..k]);
    if steps[k].Renew? {
      var at := FindToken(s.vault.tokens, steps[k].presented).value;
      assert s.vault.tokens[at].refresh == Some(steps[k].presented);
    }
  }

  lemma {:induction false} RowsAreTraced(clock: Time, steps: seq<Step>, i: nat)
    requires i < |Run(Start(clock), steps).vault.tokens|
    ensures exists j :: 0 <= j < |steps| && MadeAt(clock, steps, i, Run(Start(clock), steps).vault.tokens[i], j)
    decreases |steps|
  {
    if |steps| == 0 {
      assert false;
    } else {
      var k := |steps| - 1;
      var s, row := Run(Start(clock), steps[..k]), Run(Start(clock), steps).vault.tokens[i];
      StepKeepsOrigins(s, steps[k]);
      if i < |s.vault.tokens| {
        RowsAreTraced(clock, steps[..k], i);
        var j :| 0 <= j < k && MadeAt(clock, steps[..k], i, s.vault.tokens[i], j);
        assert steps[..k][..j] == steps[..j];
        assert MadeAt(clock, steps, i, row, j);
      } else {
        NewRowIsMade(clock, steps);
      }
    }
  }
}
