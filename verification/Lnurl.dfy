// LNURL-auth: accounts, challenges, the pages that show them and the sessions that log in.
// The callback is one database transaction that commits on some branches only.
module Lnurl {
  import opened Common

  type UserId = nat
  type K1 = string
  type PubKey = string
  type Nonce = string
  type SessionId = nat
  type PageId = nat

  // hash_password never yields an empty text.
  type Hash = s: string | s != "" witness "h"

  datatype Action = Register | Login | Link | Auth

  datatype User = User(id: UserId, pubkey: Option<PubKey>, password: Option<Hash>)

  datatype Challenge = Challenge(action: Action, user: Option<UserId>, consumed: bool, createdAt: Time)

  datatype Tables = Tables(users: seq<User>, challenges: map<K1, Challenge>)

  // A page shows the challenge k1 and was rendered for one session under one nonce.
  datatype Page = Page(session: SessionId, nonce: Nonce, action: Action, k1: Option<K1>)

  datatype Session = Session(nonce: Option<Nonce>, user: Option<UserId>)

  datatype Server = Server(
    tables: Tables,
    storage: map<Nonce, Option<UserId>>,
    pages: map<PageId, Page>,
    sessions: map<SessionId, Session>)

  // LNURL_K1_TTL_SECONDS and the signature check, which is not modelled further.
  datatype Settings = Settings(ttl: nat, verify: (K1, PubKey, string) -> bool)

  datatype Query = Query(k1: K1, key: PubKey, sig: string, action: Option<Action>)

  datatype Event = Event(k1: K1, user: Option<UserId>)

  datatype Reply = Okay | Refusal(reason: string)

  // ---------------------------------------------------------------- accounts

  function FindByKey(users: seq<User>, key: PubKey): (r: Option<nat>)
    ensures r.Some? ==> r.value < |users| && users[r.value].pubkey == Some(key)
    ensures r.None? ==> forall i :: 0 <= i < |users| ==> users[i].pubkey != Some(key)
  {
    if |users| == 0 then None
    else
      var n := |users| - 1;
      var before := FindByKey(users[..n], key);
      if before.Some? then before
      else if users[n].pubkey == Some(key) then Some(n)
      else
        assert forall i :: 0 <= i < n ==> users[i] == users[..n][i];
        None
  }

  function FindById(users: seq<User>, id: UserId): (r: Option<nat>)
    ensures r.Some? ==> r.value < |users| && users[r.value].id == id
    ensures r.None? ==> forall i :: 0 <= i < |users| ==> users[i].id != id
  {
    if |users| == 0 then None
    else
      var n := |users| - 1;
      var before := FindById(users[..n], id);
      if before.Some? then before
      else if users[n].id == id then Some(n)
      else
        assert forall i :: 0 <= i < n ==> users[i] == users[..n][i];
        None
  }

  function OwnerOf(users: seq<User>, key: PubKey): Option<UserId> {
    match FindByKey(users, key)
    case Some(i) => Some(users[i].id)
    case None => None
  }

  ghost predicate Accounts(users: seq<User>) {
    && (forall i, j :: 0 <= i < j < |users| ==> users[i].id != users[j].id)
    && (forall i, j :: 0 <= i < j < |users| ==> users[i].pubkey.None? || users[i].pubkey != users[j].pubkey)
    && (forall i :: 0 <= i < |users| ==> users[i].pubkey.Some? || users[i].password.Some?)
  }

  // ---------------------------------------------------------------- the callback

  // The condition of the claiming update.
  predicate Claimable(t: Tables, k1: K1, now: Time, ttl: nat) {
    k1 in t.challenges && !t.challenges[k1].consumed && t.challenges[k1].createdAt >= now - ttl * SECOND
  }

  // How the transaction of a claimed challenge ends: committed with new tables, answered without
  // a commit, or refused. The last two roll the claim back.
  datatype Outcome =
    | Committed(tables: Tables, user: UserId)
    | Answered(onBehalf: Option<UserId>)
    | Refused(reason: string)

  function Consume(t: Tables, users: seq<User>, k1: K1, user: UserId): Tables
    requires k1 in t.challenges
  {
    Tables(users, t.challenges[k1 := t.challenges[k1].(consumed := true, user := Some(user))])
  }

  function DoRegister(t: Tables, k1: K1, key: PubKey, newId: UserId): Outcome
    requires k1 in t.challenges
  {
    match OwnerOf(t.users, key)
    case Some(user) => Committed(Consume(t, t.users, k1, user), user)
    case None =>
      if FindById(t.users, newId).Some? then Refused("Integrity error")
      else Committed(Consume(t, t.users + [User(newId, Some(key), None)], k1, newId), newId)
  }

  function DoLogin(t: Tables, k1: K1, key: PubKey): Outcome
    requires k1 in t.challenges
  {
    match OwnerOf(t.users, key)
    case Some(user) => Committed(Consume(t, t.users, k1, user), user)
    case None => Refused("User not found for this linkingKey")
  }

  function DoLink(t: Tables, k1: K1, key: PubKey): Outcome
    requires k1 in t.challenges
  {
    var user := t.challenges[k1].user;
    if user.None? then Refused("Missing linked account")
    else if OwnerOf(t.users, key).Some? && OwnerOf(t.users, key) != user then
      Refused("Wallet already linked to another account")
    else
      match FindById(t.users, user.value)
      case None => Refused("Linked account not found")
      case Some(i) =>
        Committed(Consume(t, t.users[i := t.users[i].(pubkey := Some(key))], k1, user.value), user.value)
  }

  function Decide(cfg: Settings, t: Tables, q: Query, newId: UserId): Outcome
    requires q.k1 in t.challenges
  {
    var c := t.challenges[q.k1];
    if q.action != Some(c.action) then Refused("Action mismatch")
    else if !cfg.verify(q.k1, q.key, q.sig) then Refused("Bad Signature Error")
    else
      match c.action
      case Register => DoRegister(t, q.k1, q.key, newId)
      case Login => DoLogin(t, q.k1, q.key)
      case Link => DoLink(t, q.k1, q.key)
      case Auth => Answered(c.user)
  }

  // ---------------------------------------------------------------- pages, sessions, forms

  function SessionOf(s: Server, sid: SessionId): Session {
    if sid in s.sessions then s.sessions[sid] else Session(None, None)
  }

  function OpenPage(s: Server, sid: SessionId, page: PageId, nonce: Nonce, action: Action): Server {
    if SessionOf(s, sid).user.Some? then s
    else s.(sessions := s.sessions[sid := SessionOf(s, sid).(nonce := Some(nonce))],
            pages := s.pages[page := Page(sid, nonce, action, None)])
  }

  // A new challenge; k1 is the primary key, so a repeated one fails to commit.
  function NewChallenge(t: Tables, k1: K1, action: Action, user: Option<UserId>, now: Time): Tables {
    if k1 in t.challenges then t
    else t.(challenges := t.challenges[k1 := Challenge(action, user, false, now)])
  }

  function RefreshQr(s: Server, page: PageId, k1: K1, now: Time): Server {
    if page !in s.pages || k1 in s.tables.challenges then s
    else s.(tables := NewChallenge(s.tables, k1, s.pages[page].action, None, now),
            pages := s.pages[page := s.pages[page].(k1 := Some(k1))])
  }

  function NoncesShowing(pages: map<PageId, Page>, k1: K1): set<Nonce> {
    set p | p in pages && pages[p].k1 == Some(k1) :: pages[p].nonce
  }

  // The event handlers of the pages: those that show the event's k1 store its user.
  function Deliver(s: Server, e: Event): Server {
    s.(storage := s.storage + map n | n in NoncesShowing(s.pages, e.k1) :: e.user)
  }

  function Stored(s: Server, sid: SessionId): Option<UserId> {
    var nonce := SessionOf(s, sid).nonce;
    if nonce.Some? && nonce.value in s.storage then s.storage[nonce.value] else None
  }

  function Redirect(s: Server, sid: SessionId): Server {
    var session := SessionOf(s, sid);
    if session.nonce.None? then s
    else
      s.(storage := s.storage - {session.nonce.value},
         sessions := s.sessions[sid := if Stored(s, sid).Some? then session.(user := Stored(s, sid)) else session])
  }

  // The password form: the nonce is used up in any case; the account check is a parameter.
  function LoginPost(s: Server, sid: SessionId, formNonce: Option<Nonce>, account: Option<UserId>): Server {
    var session := SessionOf(s, sid);
    var user := if session.nonce.Some? && formNonce == session.nonce && account.Some? then account else session.user;
    s.(sessions := s.sessions[sid := Session(None, user)])
  }

  function RegisterPost(s: Server, sid: SessionId, newId: UserId, hash: Hash): Server {
    if FindById(s.tables.users, newId).Some? then s
    else s.(tables := s.tables.(users := s.tables.users + [User(newId, None, Some(hash))]),
            sessions := s.sessions[sid := SessionOf(s, sid).(user := Some(newId))])
  }

  function SavePassword(t: Tables, user: UserId, hash: Hash): Tables {
    match FindById(t.users, user)
    case None => t
    case Some(i) => t.(users := t.users[i := t.users[i].(password := Some(hash))])
  }

  function Unlink(t: Tables, user: UserId): Tables {
    match FindById(t.users, user)
    case None => t
    case Some(i) =>
      if t.users[i].password.None? then t
      else t.(users := t.users[i := t.users[i].(pubkey := None)])
  }

  function Logout(s: Server, sid: SessionId): Server {
    s.(sessions := s.sessions[sid := Session(None, None)])
  }

  // ---------------------------------------------------------------- the callback, said of the rows

  // When a claimed callback may commit, said of the rows: the action is the challenge's, the
  // signature verifies, and the accounts allow what the action does with the key.
  ghost predicate Permitted(cfg: Settings, t: Tables, q: Query, newId: UserId)
    requires q.k1 in t.challenges
  {
    var c := t.challenges[q.k1];
    && q.action == Some(c.action)
    && cfg.verify(q.k1, q.key, q.sig)
    && match c.action
       case Register => KeyTaken(t.users, q.key) || !IdTaken(t.users, newId)
       case Login => KeyTaken(t.users, q.key)
       case Link => c.user.Some? && IdTaken(t.users, c.user.value) && KeyOnlyOf(t.users, q.key, c.user.value)
       case Auth => false
  }

  ghost predicate KeyTaken(users: seq<User>, key: PubKey) {
    exists i :: 0 <= i < |users| && users[i].pubkey == Some(key)
  }

  ghost predicate IdTaken(users: seq<User>, id: UserId) {
    exists i :: 0 <= i < |users| && users[i].id == id
  }

  ghost predicate KeyOnlyOf(users: seq<User>, key: PubKey, id: UserId) {
    forall i :: 0 <= i < |users| && users[i].pubkey == Some(key) ==> users[i].id == id
  }

  // What a commit makes of the account table, row by row.
  ghost predicate AccountsAfter(before: seq<User>, c: Challenge, q: Query, newId: UserId, after: seq<User>) {
    match c.action
    case Register =>
      if KeyTaken(before, q.key) then after == before else after == before + [User(newId, Some(q.key), None)]
    case Login => after == before
    case Link =>
      && c.user.Some? && |after| == |before|
      && forall i :: 0 <= i < |before| ==>
           after[i] == if before[i].id == c.user.value then before[i].(pubkey := Some(q.key)) else before[i]
    case Auth => false
  }

  ghost predicate Owns(users: seq<User>, id: UserId, key: PubKey) {
    exists i :: 0 <= i < |users| && users[i].id == id && users[i].pubkey == Some(key)
  }

  // Why a live challenge with the right action and a valid signature is still refused.
  ghost predicate RefusedFor(users: seq<User>, c: Challenge, key: PubKey, reason: string) {
    match c.action
    case Register => reason == "Integrity error"
    case Login => reason == "User not found for this linkingKey"
    case Link =>
      if c.user.None? then reason == "Missing linked account"
      else if !KeyOnlyOf(users, key, c.user.value) then reason == "Wallet already linked to another account"
      else reason == "Linked account not found"
    case Auth => false
  }

  // What one request does, as the claim and the decision on the claimed challenge.
  ghost predicate CallbackIs(cfg: Settings, before: Tables, q: Query, now: Time, newId: UserId,
                             after: Tables, reply: Reply, event: Option<Event>) {
    if !Claimable(before, q.k1, now, cfg.ttl) then
      reply == Refusal("Invalid or expired k1") && event == None && after == before
    else
      match Decide(cfg, before, q, newId)
      case Committed(tables, user) => after == tables && reply == Okay && event == Some(Event(q.k1, Some(user)))
      case Answered(user) => after == before && reply == Okay && event == Some(Event(q.k1, user))
      case Refused(reason) => after == before && reply == Refusal(reason) && event == None
  }

  // What one request does, said of the rows before and after it.
  ghost predicate CallbackLaw(cfg: Settings, before: Tables, q: Query, now: Time, newId: UserId,
                              after: Tables, reply: Reply, event: Option<Event>) {
    if !(q.k1 in before.challenges && !before.challenges[q.k1].consumed
         && now <= before.challenges[q.k1].createdAt + cfg.ttl * SECOND) then
      after == before && reply == Refusal("Invalid or expired k1") && event == None
    else
      var c := before.challenges[q.k1];
      if q.action != Some(c.action) then
        after == before && reply == Refusal("Action mismatch") && event == None
      else if !cfg.verify(q.k1, q.key, q.sig) then
        after == before && reply == Refusal("Bad Signature Error") && event == None
      else if c.action == Auth then
        after == before && reply == Okay && event == Some(Event(q.k1, c.user))
      else if Permitted(cfg, before, q, newId) then
        && reply == Okay && event.Some? && event.value.k1 == q.k1 && event.value.user.Some?
        && Owns(after.users, event.value.user.value, q.key)
        && AccountsAfter(before.users, c, q, newId, after.users)
        && after.challenges == before.challenges[q.k1 := c.(consumed := true, user := event.value.user)]
      else
        after == before && reply.Refusal? && RefusedFor(before.users, c, q.key, reply.reason) && event == None
  }

  // ---------------------------------------------------------------- the server, changed in place

  class AuthServer {
    const settings: Settings
    var users: seq<User>
    var challenges: map<K1, Challenge>
    var storage: map<Nonce, Option<UserId>>
    var pages: map<PageId, Page>
    var sessions: map<SessionId, Session>

    ghost function State(): Server
      reads this
    {
      Server(Tables(users, challenges), storage, pages, sessions)
    }

    constructor (settings: Settings, users: seq<User>)
      ensures this.settings == settings && State() == Server(Tables(users, map[]), map[], map[], map[])
    {
      this.settings, this.users := settings, users;
      challenges, storage, pages, sessions := map[], map[], map[], map[];
    }

    // One request: the session works on its own view of the rows, and only a commit writes them.
    method LnurlAuthCallback(q: Query, now: Time, newId: UserId) returns (reply: Reply, event: Option<Event>)
      modifies this`users, this`challenges
      ensures CallbackIs(settings, Tables(old(users), old(challenges)), q, now, newId,
                         Tables(users, challenges), reply, event)
      ensures Accounts(old(users)) ==>
                CallbackLaw(settings, Tables(old(users), old(challenges)), q, now, newId,
                            Tables(users, challenges), reply, event)
    {
      ghost var before := Tables(users, challenges);
      forall after, reply, event | Accounts(users) && CallbackIs(settings, before, q, now, newId, after, reply, event)
        ensures CallbackLaw(settings, before, q, now, newId, after, reply, event) {
        CallbackObeysLaw(settings, before, q, now, newId, after, reply, event);
      }
      event := None;
      var cutoff := now - settings.ttl * SECOND;
      if q.k1 !in challenges || challenges[q.k1].consumed || challenges[q.k1].createdAt < cutoff {
        return Refusal("Invalid or expired k1"), None;
      }
      var challenge := challenges[q.k1].(consumed := true);
      if q.action != Some(challenge.action) {
        return Refusal("Action mismatch"), None;
      }
      if !settings.verify(q.k1, q.key, q.sig) {
        return Refusal("Bad Signature Error"), None;
      }
      var owner := FindByKey(users, q.key);
      match challenge.action {
        case Register =>
          var account := newId;
          var view := users;
          if owner.None? {
            if FindById(users, newId).Some? {
              return Refusal("Integrity error"), None;
            }
            view := users + [User(newId, Some(q.key), None)];
          } else {
            account := users[owner.value].id;
          }
          challenge := challenge.(user := Some(account));
          users, challenges := view, challenges[q.k1 := challenge];
        case Login =>
          if owner.None? {
            return Refusal("User not found for this linkingKey"), None;
          }
          challenge := challenge.(user := Some(users[owner.value].id));
          challenges := challenges[q.k1 := challenge];
        case Link =>
          if challenge.user.None? {
            return Refusal("Missing linked account"), None;
          }
          if owner.Some? && users[owner.value].id != challenge.user.value {
            return Refusal("Wallet already linked to another account"), None;
          }
          var account := FindById(users, challenge.user.value);
          if account.None? {
            return Refusal("Linked account not found"), None;
          }
          users := users[account.value := users[account.value].(pubkey := Some(q.key))];
          challenges := challenges[q.k1 := challenge];
        case Auth =>
      }
      return Okay, Some(Event(q.k1, challenge.user));
    }

    method RenderPage(sid: SessionId, page: PageId, nonce: Nonce, action: Action)
      modifies this
      ensures State() == OpenPage(old(State()), sid, page, nonce, action)
      ensures forall x :: SessionOf(State(), x).user == SessionOf(old(State()), x).user
      ensures forall x :: SessionOf(State(), x).nonce ==
                if x == sid && SessionOf(old(State()), sid).user.None? then Some(nonce)
                else SessionOf(old(State()), x).nonce
      ensures pages ==
                if SessionOf(old(State()), sid).user.None? then old(pages)[page := Page(sid, nonce, action, None)]
                else old(pages)
    {
      var session := if sid in sessions then sessions[sid] else Session(None, None);
      if session.user.Some? {
        return;
      }
      sessions := sessions[sid := session.(nonce := Some(nonce))];
      pages := pages[page := Page(sid, nonce, action, None)];
    }

    method RefreshQrcode(page: PageId, k1: K1, now: Time)
      modifies this
      ensures State() == RefreshQr(old(State()), page, k1, now)
      ensures forall k :: k in old(challenges) ==> k in challenges && challenges[k] == old(challenges)[k]
      ensures page in pages && k1 !in old(challenges) ==>
                && pages[page].k1 == Some(k1)
                && challenges == old(challenges)[k1 := Challenge(pages[page].action, None, false, now)]
      ensures page !in old(pages) || k1 in old(challenges) ==> State() == old(State())
    {
      if page !in pages || k1 in challenges {
        return;
      }
      challenges := challenges[k1 := Challenge(pages[page].action, None, false, now)];
      pages := pages[page := pages[page].(k1 := Some(k1))];
    }

    method HandleEvent(e: Event)
      modifies this
      ensures State() == Deliver(old(State()), e)
      ensures forall p :: p in pages && pages[p].k1 == Some(e.k1) ==>
                pages[p].nonce in storage && storage[pages[p].nonce] == e.user
      ensures forall x :: (x in storage) != (x in old(storage)) || (x in storage && storage[x] != old(storage)[x]) ==>
                exists p :: p in pages && pages[p].k1 == Some(e.k1) && pages[p].nonce == x
    {
      storage := storage + map n | n in NoncesShowing(pages, e.k1) :: e.user;
    }

    method LnurlRedirect(sid: SessionId)
      modifies this
      ensures State() == Redirect(old(State()), sid)
      ensures forall x :: SessionOf(State(), x).nonce == SessionOf(old(State()), x).nonce
      ensures forall x :: x != sid ==> SessionOf(State(), x).user == SessionOf(old(State()), x).user
      ensures var nonce := SessionOf(old(State()), sid).nonce;
              && SessionOf(State(), sid).user ==
                 (if nonce.Some? && nonce.value in old(storage) && old(storage)[nonce.value].Some?
                  then old(storage)[nonce.value] else SessionOf(old(State()), sid).user)
              && (forall x :: x in storage <==> x in old(storage) && Some(x) != nonce)
              && (forall x :: x in storage ==> storage[x] == old(storage)[x])
    {
      var session := if sid in sessions then sessions[sid] else Session(None, None);
      if session.nonce.Some? {
        var user := if session.nonce.value in storage then storage[session.nonce.value] else None;
        storage := storage - {session.nonce.value};
        if user.Some? {
          session := session.(user := user);
        }
        sessions := sessions[sid := session];
      }
    }

    method PasswordLogin(sid: SessionId, formNonce: Option<Nonce>, account: Option<UserId>)
      modifies this`sessions
      ensures State() == LoginPost(old(State()), sid, formNonce, account)
      ensures forall x :: x != sid ==> SessionOf(State(), x) == SessionOf(old(State()), x)
      ensures SessionOf(State(), sid).nonce == None
      ensures SessionOf(State(), sid).user ==
                if formNonce.Some? && SessionOf(old(State()), sid).nonce == formNonce && account.Some? then account
                else SessionOf(old(State()), sid).user
    {
      var session := if sid in sessions then sessions[sid] else Session(None, None);
      var expected := session.nonce;
      session := session.(nonce := None);
      if expected.Some? && formNonce == expected && account.Some? {
        session := session.(user := account);
      }
      sessions := sessions[sid := session];
    }

    method Register(sid: SessionId, newId: UserId, hash: Hash)
      modifies this
      ensures State() == RegisterPost(old(State()), sid, newId, hash)
      ensures Accounts(old(users)) ==> Accounts(users)
      ensures users == if IdTaken(old(users), newId) then old(users) else old(users) + [User(newId, None, Some(hash))]
      ensures forall x :: SessionOf(State(), x).user ==
                if x == sid && !IdTaken(old(users), newId) then Some(newId) else SessionOf(old(State()), x).user
    {
      if FindById(users, newId).Some? {
        return;
      }
      var session := if sid in sessions then sessions[sid] else Session(None, None);
      users := users + [User(newId, None, Some(hash))];
      sessions := sessions[sid := session.(user := Some(newId))];
    }

    method ChangePassword(user: UserId, hash: Hash)
      modifies this`users
      ensures Tables(users, challenges) == SavePassword(Tables(old(users), challenges), user, hash)
      ensures Accounts(old(users)) ==>
                && Accounts(users) && |users| == |old(users)|
                && forall i :: 0 <= i < |users| ==>
                     users[i] == if old(users)[i].id == user then old(users)[i].(password := Some(hash))
                                 else old(users)[i]
    {
      var i := FindById(users, user);
      if i.Some? {
        users := users[i.value := users[i.value].(password := Some(hash))];
      }
    }

    method UnlinkWallet(user: UserId)
      modifies this`users
      ensures Tables(users, challenges) == Unlink(Tables(old(users), challenges), user)
      ensures Accounts(old(users)) ==>
                && Accounts(users) && |users| == |old(users)|
                && forall i :: 0 <= i < |users| ==>
                     users[i] == if old(users)[i].id == user && old(users)[i].password.Some?
                                 then old(users)[i].(pubkey := None) else old(users)[i]
    {
      var i := FindById(users, user);
      if i.Some? && users[i.value].password.Some? {
        users := users[i.value := users[i.value].(pubkey := None)];
      }
    }
  }

  // ---------------------------------------------------------------- what the mutators keep

  lemma {:induction false} FoundById(users: seq<User>, i: nat)
    requires Accounts(users) && i < |users|
    ensures FindById(users, users[i].id) == Some(i)
  {
  }

  lemma {:induction false} FoundByKey(users: seq<User>, i: nat, key: PubKey)
    requires Accounts(users) && i < |users| && users[i].pubkey == Some(key)
    ensures OwnerOf(users, key) == Some(users[i].id)
  {
  }

  // Giving one account a key nobody else holds.
  lemma {:induction false} RekeyKeepsAccounts(users: seq<User>, i: nat, key: PubKey)
    requires Accounts(users) && i < |users|
    requires FindByKey(users, key).None? || FindByKey(users, key) == Some(i)
    ensures Accounts(users[i := users[i].(pubkey := Some(key))])
    ensures OwnerOf(users[i := users[i].(pubkey := Some(key))], key) == Some(users[i].id)
  {
    var after := users[i := users[i].(pubkey := Some(key))];
    assert forall j :: 0 <= j < |users| && j != i ==> users[j].pubkey != Some(key);
    FoundByKey(after, i, key);
  }

  lemma {:induction false} AddingKeepsAccounts(users: seq<User>, u: User)
    requires Accounts(users) && FindById(users, u.id).None?
    requires u.pubkey.Some? ==> FindByKey(users, u.pubkey.value).None?
    requires u.pubkey.Some? || u.password.Some?
    ensures Accounts(users + [u])
    ensures u.pubkey.Some? ==> OwnerOf(users + [u], u.pubkey.value) == Some(u.id)
  {
    if u.pubkey.Some? { FoundByKey(users + [u], |users|, u.pubkey.value); }
  }

  // Whatever commits, the challenge it changes is its own.
  lemma {:induction false} CommitConsumes(cfg: Settings, t: Tables, q: Query, newId: UserId)
    requires q.k1 in t.challenges
    ensures var o := Decide(cfg, t, q, newId);
            o.Committed? ==>
              o.tables.challenges == t.challenges[q.k1 := t.challenges[q.k1].(consumed := true, user := Some(o.user))]
  {
    match t.challenges[q.k1].action
    case Register =>
    case Login =>
    case Link =>
    case Auth =>
  }

  // A committing callback keeps the accounts sound, consumes exactly its own challenge and
  // leaves the signing key with the account it reports.
  lemma {:induction false} CommitLaw(cfg: Settings, t: Tables, q: Query, newId: UserId)
    requires q.k1 in t.challenges && Accounts(t.users)
    requires Decide(cfg, t, q, newId).Committed?
    ensures var o := Decide(cfg, t, q, newId);
            && Accounts(o.tables.users)
            && OwnerOf(o.tables.users, q.key) == Some(o.user)
            && o.tables.challenges == t.challenges[q.k1 := t.challenges[q.k1].(consumed := true, user := Some(o.user))]
            && q.action == Some(t.challenges[q.k1].action) && t.challenges[q.k1].action != Auth
            && cfg.verify(q.k1, q.key, q.sig)
            && AccountsAfter(t.users, t.challenges[q.k1], q, newId, o.tables.users)
  {
    var c := t.challenges[q.k1];
    match c.action
    case Register =>
      assert FindByKey(t.users, q.key).Some? <==> KeyTaken(t.users, q.key);
      if OwnerOf(t.users, q.key).None? { AddingKeepsAccounts(t.users, User(newId, Some(q.key), None)); }
    case Login =>
    case Link =>
      var i := FindById(t.users, c.user.value).value;
      if FindByKey(t.users, q.key).Some? {
        FoundById(t.users, FindByKey(t.users, q.key).value);
      }
      RekeyKeepsAccounts(t.users, i, q.key);
    case Auth =>
  }

  lemma {:induction false} CallbackObeysLaw(cfg: Settings, before: Tables, q: Query, now: Time, newId: UserId,
                                            after: Tables, reply: Reply, event: Option<Event>)
    requires Accounts(before.users) && CallbackIs(cfg, before, q, now, newId, after, reply, event)
    ensures CallbackLaw(cfg, before, q, now, newId, after, reply, event)
  {
    if Claimable(before, q.k1, now, cfg.ttl) {
      var o := Decide(cfg, before, q, newId);
      CommitsExactly(cfg, before, q, newId);
      if o.Committed? {
        CommitLaw(cfg, before, q, newId);
        assert Owns(after.users, o.user, q.key);
      } else if o.Refused? {
        RefusalLaw(cfg, before, q, newId);
      }
    }
  }

  lemma {:induction false} RefusalLaw(cfg: Settings, t: Tables, q: Query, newId: UserId)
    requires q.k1 in t.challenges && Accounts(t.users) && Decide(cfg, t, q, newId).Refused?
    ensures var c, reason := t.challenges[q.k1], Decide(cfg, t, q, newId).reason;
            if q.action != Some(c.action) then reason == "Action mismatch"
            else if !cfg.verify(q.k1, q.key, q.sig) then reason == "Bad Signature Error"
            else RefusedFor(t.users, c, q.key, reason)
  {
    var c := t.challenges[q.k1];
    if c.action == Link && c.user.Some? { LinkGuard(t.users, q.key, c.user.value); }
  }

  lemma {:induction false} CommitsExactly(cfg: Settings, t: Tables, q: Query, newId: UserId)
    requires q.k1 in t.challenges && Accounts(t.users)
    ensures Decide(cfg, t, q, newId).Committed? <==> Permitted(cfg, t, q, newId)
  {
    var users, user := t.users, t.challenges[q.k1].user;
    assert FindByKey(users, q.key).Some? <==> KeyTaken(users, q.key);
    assert FindById(users, newId).Some? <==> IdTaken(users, newId);
    if user.Some? {
      assert FindById(users, user.value).Some? <==> IdTaken(users, user.value);
      LinkGuard(users, q.key, user.value);
    }
  }

  lemma {:induction false} LinkGuard(users: seq<User>, key: PubKey, id: UserId)
    requires Accounts(users)
    ensures KeyOnlyOf(users, key, id) <==> OwnerOf(users, key).None? || OwnerOf(users, key) == Some(id)
  {
    forall i | 0 <= i < |users| && users[i].pubkey == Some(key) ensures OwnerOf(users, key) == Some(users[i].id) {
      FoundByKey(users, i, key);
    }
  }

  lemma {:induction false} PasswordKeepsAccounts(t: Tables, user: UserId, hash: Hash)
    requires Accounts(t.users)
    ensures Accounts(SavePassword(t, user, hash).users)
  {
  }

  lemma {:induction false} UnlinkKeepsAccounts(t: Tables, user: UserId)
    requires Accounts(t.users)
    ensures Accounts(Unlink(t, user).users)
  {
  }
}
