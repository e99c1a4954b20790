// LNURL-auth as a protocol: callbacks are transactions that lock the claimed challenge and
// later commit or roll back, and browser, wallet and event steps come in any order.
module LnurlProtocol {
  import opened Common
  import opened Lnurl

  // A callback that has read the clock for its cutoff; its claiming update has not been executed yet.
  datatype Arrival = Arrival(query: Query, arrivedAt: Time)

  // A transaction between its claiming update and its end.
  datatype Tx = Tx(query: Query, arrivedAt: Time, claimedAt: Time)

  // One callback that answered OK. owner is who held the signing key right after it ended.
  datatype Success = Success(
    query: Query,
    action: Action,
    user: Option<UserId>,
    owner: Option<UserId>,
    arrivedAt: Time,
    claimedAt: Time,
    endedAt: Time)

  // One redirect that put a user into a session, and the challenge that user came from.
  datatype Entry = Entry(session: SessionId, nonce: Nonce, user: UserId, k1: K1)

  // What happened so far; no step reads it.
  datatype History = History(
    successes: seq<Success>,
    shown: map<K1, PageId>,
    origin: map<Nonce, K1>,
    logins: seq<Entry>)

  datatype Net = Net(
    server: Server,
    clock: Time,
    waiting: map<nat, Arrival>,
    txs: map<nat, Tx>,
    pending: seq<Event>,
    past: History)

  datatype Step =
    | Open(sid: SessionId, page: PageId, nonce: Nonce, registering: bool)
    | Refresh(page: PageId, k1: K1)
    | NewLink(k1: K1, user: UserId)
    | NewAuth(k1: K1)
    | Arrive(tx: nat, query: Query)
    | Claim(tx: nat)
    | Finish(tx: nat, newId: UserId)
    | Abort(tx: nat)
    | Handle(index: nat)
    | FollowRedirect(sid: SessionId)
    | PostLogin(sid: SessionId, formNonce: Option<Nonce>, account: Option<UserId>)
    | PostRegister(sid: SessionId, newId: UserId, hash: Hash)
    | NewPassword(user: UserId, hash: Hash)
    | UnlinkKey(user: UserId)
    | LeaveSession(sid: SessionId)
    | Tick(elapsed: nat)

  function Start(users: seq<User>): Net {
    Net(Server(Tables(users, map[]), map[], map[], map[]), 0, map[], map[], [], History([], map[], map[], []))
  }

  predicate Locked(n: Net, k1: K1) {
    exists t :: t in n.txs && n.txs[t].query.k1 == k1
  }

  predicate NonceUsed(n: Net, nonce: Nonce) {
    exists p :: p in n.server.pages && n.server.pages[p].nonce == nonce
  }

  // The commit itself: new tables, one event, one line of history.
  function EndCommitted(n: Net, tx: nat, tables: Tables, user: UserId): Net
    requires tx in n.txs && n.txs[tx].query.k1 in n.server.tables.challenges
  {
    var t := n.txs[tx];
    var s := Success(t.query, n.server.tables.challenges[t.query.k1].action, Some(user),
                     OwnerOf(tables.users, t.query.key), t.arrivedAt, t.claimedAt, n.clock);
    n.(server := n.server.(tables := tables), txs := n.txs - {tx},
       pending := n.pending + [Event(t.query.k1, Some(user))],
       past := n.past.(successes := n.past.successes + [s]))
  }

  // The auth action: an answer and an event, but no commit.
  function EndAnswered(n: Net, tx: nat, user: Option<UserId>): Net
    requires tx in n.txs && n.txs[tx].query.k1 in n.server.tables.challenges
  {
    var t := n.txs[tx];
    var s := Success(t.query, n.server.tables.challenges[t.query.k1].action, user,
                     OwnerOf(n.server.tables.users, t.query.key), t.arrivedAt, t.claimedAt, n.clock);
    n.(txs := n.txs - {tx}, pending := n.pending + [Event(t.query.k1, user)],
       past := n.past.(successes := n.past.successes + [s]))
  }

  function End(cfg: Settings, n: Net, tx: nat, newId: UserId): Net {
    if tx !in n.txs || n.txs[tx].query.k1 !in n.server.tables.challenges then n
    else
      match Decide(cfg, n.server.tables, n.txs[tx].query, newId)
      case Committed(tables, user) => EndCommitted(n, tx, tables, user)
      case Answered(user) => EndAnswered(n, tx, user)
      case Refused(_) => n.(txs := n.txs - {tx})
  }

  // The page's nonce is fresh (a random UUID), so is the page.
  function OpenStep(n: Net, sid: SessionId, page: PageId, nonce: Nonce, registering: bool): Net {
    if page in n.server.pages || NonceUsed(n, nonce) then n
    else n.(server := OpenPage(n.server, sid, page, nonce, if registering then Register else Login))
  }

  function RefreshStep(n: Net, page: PageId, k1: K1): Net {
    if page !in n.server.pages || k1 in n.server.tables.challenges then n
    else n.(server := RefreshQr(n.server, page, k1, n.clock), past := n.past.(shown := n.past.shown[k1 := page]))
  }

  function ArriveStep(n: Net, tx: nat, q: Query): Net {
    if tx in n.waiting || tx in n.txs then n
    else n.(waiting := n.waiting[tx := Arrival(q, n.clock)])
  }

  // The update waits while another transaction holds the row, and then still decides by the cutoff
  // of its arrival.
  function ClaimStep(cfg: Settings, n: Net, tx: nat): Net {
    if tx !in n.waiting || Locked(n, n.waiting[tx].query.k1) then n
    else
      var a := n.waiting[tx];
      var served := n.(waiting := n.waiting - {tx});
      if Claimable(n.server.tables, a.query.k1, a.arrivedAt, cfg.ttl)
      then served.(txs := n.txs[tx := Tx(a.query, a.arrivedAt, n.clock)])
      else served
  }

  function HandleStep(n: Net, index: nat): Net {
    if index >= |n.pending| then n
    else
      var e := n.pending[index];
      n.(server := Deliver(n.server, e), pending := n.pending[..index] + n.pending[index + 1..],
         past := n.past.(origin := n.past.origin + map x | x in NoncesShowing(n.server.pages, e.k1) :: e.k1))
  }

  function RedirectStep(n: Net, sid: SessionId): Net {
    var session := SessionOf(n.server, sid);
    if session.nonce.None? then n
    else
      var nonce := session.nonce.value;
      var user := Stored(n.server, sid);
      n.(server := Redirect(n.server, sid),
         past := n.past.(origin := n.past.origin - {nonce},
                         logins := if user.Some? && nonce in n.past.origin
                                   then n.past.logins + [Entry(sid, nonce, user.value, n.past.origin[nonce])]
                                   else n.past.logins))
  }

  function Next(cfg: Settings, n: Net, step: Step): Net {
    match step
    case Open(sid, page, nonce, registering) => OpenStep(n, sid, page, nonce, registering)
    case Refresh(page, k1) => RefreshStep(n, page, k1)
    case NewLink(k1, user) =>
      n.(server := n.server.(tables := NewChallenge(n.server.tables, k1, Link, Some(user), n.clock)))
    case NewAuth(k1) => n.(server := n.server.(tables := NewChallenge(n.server.tables, k1, Auth, None, n.clock)))
    case Arrive(tx, q) => ArriveStep(n, tx, q)
    case Claim(tx) => ClaimStep(cfg, n, tx)
    case Finish(tx, newId) => End(cfg, n, tx, newId)
    case Abort(tx) => n.(waiting := n.waiting - {tx}, txs := n.txs - {tx})
    case Handle(index) => HandleStep(n, index)
    case FollowRedirect(sid) => RedirectStep(n, sid)
    case PostLogin(sid, formNonce, account) => n.(server := LoginPost(n.server, sid, formNonce, account))
    case PostRegister(sid, newId, hash) => n.(server := RegisterPost(n.server, sid, newId, hash))
    case NewPassword(user, hash) => n.(server := n.server.(tables := SavePassword(n.server.tables, user, hash)))
    case UnlinkKey(user) => n.(server := n.server.(tables := Unlink(n.server.tables, user)))
    case LeaveSession(sid) => n.(server := Logout(n.server, sid))
    case Tick(elapsed) => n.(clock := n.clock + elapsed)
  }

  function Run(cfg: Settings, n: Net, steps: seq<Step>): Net {
    if |steps| == 0 then n else Next(cfg, Run(cfg, n, steps[..|steps| - 1]), steps[|steps| - 1])
  }

  // ---------------------------------------------------------------- challenges only move forward

  ghost predicate Forward(before: map<K1, Challenge>, after: map<K1, Challenge>) {
    forall k :: k in before ==>
      && k in after
      && after[k].action == before[k].action && after[k].createdAt == before[k].createdAt
      && (before[k].consumed ==> after[k] == before[k])
  }

  // The only step that consumes a challenge is the commit of the transaction that holds it.
  ghost predicate ConsumesOnly(before: map<K1, Challenge>, after: map<K1, Challenge>, k1: Option<K1>) {
    forall k :: k in before && Some(k) != k1 ==> k in after && after[k] == before[k]
  }

  // ---------------------------------------------------------------- transactions and successes

  ghost predicate TxSound(cfg: Settings, n: Net, t: nat)
    requires t in n.txs
  {
    var x := n.txs[t];
    && x.query.k1 in n.server.tables.challenges
    && !n.server.tables.challenges[x.query.k1].consumed
    && x.arrivedAt <= x.claimedAt <= n.clock
    && x.arrivedAt <= n.server.tables.challenges[x.query.k1].createdAt + cfg.ttl * SECOND
  }

  ghost predicate TxsSound(cfg: Settings, n: Net) {
    && (forall w :: w in n.waiting ==> n.waiting[w].arrivedAt <= n.clock)
    && (forall t :: t in n.txs ==> TxSound(cfg, n, t))
    && (forall t, u :: t in n.txs && u in n.txs && n.txs[t].query.k1 == n.txs[u].query.k1 ==> t == u)
  }

  ghost predicate SuccessSound(cfg: Settings, challenges: map<K1, Challenge>, clock: Time, s: Success) {
    && s.query.k1 in challenges
    && s.action == challenges[s.query.k1].action && s.query.action == Some(s.action)
    && cfg.verify(s.query.k1, s.query.key, s.query.sig)
    && s.arrivedAt <= s.claimedAt <= s.endedAt <= clock
    && s.arrivedAt <= challenges[s.query.k1].createdAt + cfg.ttl * SECOND
    && (s.action != Auth ==>
          challenges[s.query.k1].consumed && s.user.Some? && s.user == challenges[s.query.k1].user && s.owner == s.user)
  }

  ghost predicate SuccessesSound(cfg: Settings, challenges: map<K1, Challenge>, clock: Time, successes: seq<Success>) {
    forall i :: 0 <= i < |successes| ==> SuccessSound(cfg, challenges, clock, successes[i])
  }

  ghost predicate OncePerChallenge(successes: seq<Success>) {
    forall i, j :: 0 <= i < j < |successes| && successes[i].action != Auth ==>
      successes[i].query.k1 != successes[j].query.k1
  }

  ghost predicate CallbackInv(cfg: Settings, n: Net) {
    && Accounts(n.server.tables.users)
    && TxsSound(cfg, n)
    && SuccessesSound(cfg, n.server.tables.challenges, n.clock, n.past.successes)
    && OncePerChallenge(n.past.successes)
  }

  // Steps that neither end a transaction successfully nor begin one.
  lemma {:induction false} QuietKeepsCallbacks(cfg: Settings, n: Net, m: Net)
    requires CallbackInv(cfg, n)
    requires Accounts(m.server.tables.users)
    requires ConsumesOnly(n.server.tables.challenges, m.server.tables.challenges, None)
    requires n.clock <= m.clock && m.past.successes == n.past.successes
    requires forall w :: w in m.waiting ==> m.waiting[w].arrivedAt <= m.clock
    requires forall t :: t in m.txs ==> t in n.txs && m.txs[t] == n.txs[t]
    ensures CallbackInv(cfg, m)
  {
    forall t | t in m.txs ensures TxSound(cfg, m, t) {
      assert TxSound(cfg, n, t);
      assert Some(n.txs[t].query.k1) != None;
    }
    forall i | 0 <= i < |m.past.successes|
      ensures SuccessSound(cfg, m.server.tables.challenges, m.clock, m.past.successes[i]) {
      assert SuccessSound(cfg, n.server.tables.challenges, n.clock, n.past.successes[i]);
    }
  }

  lemma {:induction false} ClaimKeepsCallbacks(cfg: Settings, n: Net, tx: nat)
    requires CallbackInv(cfg, n)
    ensures CallbackInv(cfg, ClaimStep(cfg, n, tx))
  {
    var m := ClaimStep(cfg, n, tx);
    forall t | t in m.txs ensures TxSound(cfg, m, t) {
      if t in n.txs { assert TxSound(cfg, n, t); }
    }
  }

  // The new line of history, for either kind of success.
  lemma {:induction false} NewSuccessIsSound(cfg: Settings, n: Net, tx: nat, newId: UserId)
    requires CallbackInv(cfg, n) && tx in n.txs && n.txs[tx].query.k1 in n.server.tables.challenges
    requires !Decide(cfg, n.server.tables, n.txs[tx].query, newId).Refused?
    ensures var m := End(cfg, n, tx, newId);
            && |m.past.successes| == |n.past.successes| + 1
            && m.past.successes[..|n.past.successes|] == n.past.successes
            && SuccessSound(cfg, m.server.tables.challenges, m.clock, m.past.successes[|n.past.successes|])
            && m.past.successes[|n.past.successes|].query == n.txs[tx].query
            && Accounts(m.server.tables.users)
            && ConsumesOnly(n.server.tables.challenges, m.server.tables.challenges, Some(n.txs[tx].query.k1))
            && Forward(n.server.tables.challenges, m.server.tables.challenges)
  {
    assert TxSound(cfg, n, tx);
    if Decide(cfg, n.server.tables, n.txs[tx].query, newId).Committed? {
      CommitLaw(cfg, n.server.tables, n.txs[tx].query, newId);
    }
  }

  // No earlier committed success used the challenge of an open transaction.
  lemma {:induction false} OpenMeansUnspent(cfg: Settings, n: Net, tx: nat, i: nat)
    requires CallbackInv(cfg, n) && tx in n.txs && i < |n.past.successes| && n.past.successes[i].action != Auth
    ensures n.past.successes[i].query.k1 != n.txs[tx].query.k1
  {
    assert TxSound(cfg, n, tx);
    assert SuccessSound(cfg, n.server.tables.challenges, n.clock, n.past.successes[i]);
  }

  lemma {:induction false} EndKeepsTxs(cfg: Settings, n: Net, tx: nat, newId: UserId)
    requires CallbackInv(cfg, n) && tx in n.txs
    requires ConsumesOnly(n.server.tables.challenges, End(cfg, n, tx, newId).server.tables.challenges,
                          Some(n.txs[tx].query.k1))
    ensures TxsSound(cfg, End(cfg, n, tx, newId))
  {
    var m := End(cfg, n, tx, newId);
    assert TxSound(cfg, n, tx);
    forall t | t in m.txs ensures TxSound(cfg, m, t) {
      assert TxSound(cfg, n, t);
      assert n.txs[t].query.k1 != n.txs[tx].query.k1;
    }
  }

  lemma {:induction false} EndKeepsOnce(cfg: Settings, n: Net, tx: nat, newId: UserId)
    requires CallbackInv(cfg, n) && tx in n.txs && n.txs[tx].query.k1 in n.server.tables.challenges
    requires !Decide(cfg, n.server.tables, n.txs[tx].query, newId).Refused?
    ensures OncePerChallenge(End(cfg, n, tx, newId).past.successes)
  {
    var m := End(cfg, n, tx, newId);
    var last := |n.past.successes|;
    NewSuccessIsSound(cfg, n, tx, newId);
    forall i | 0 <= i < last
      ensures m.past.successes[i] == n.past.successes[i]
              && (m.past.successes[i].action != Auth ==>
                    m.past.successes[i].query.k1 != m.past.successes[last].query.k1) {
      assert m.past.successes[i] == m.past.successes[..last][i];
      if n.past.successes[i].action != Auth { OpenMeansUnspent(cfg, n, tx, i); }
    }
  }

  lemma {:induction false} EndKeepsSuccesses(cfg: Settings, n: Net, tx: nat, newId: UserId)
    requires CallbackInv(cfg, n) && tx in n.txs && n.txs[tx].query.k1 in n.server.tables.challenges
    requires !Decide(cfg, n.server.tables, n.txs[tx].query, newId).Refused?
    ensures var m := End(cfg, n, tx, newId);
            SuccessesSound(cfg, m.server.tables.challenges, m.clock, m.past.successes)
  {
    var m := End(cfg, n, tx, newId);
    var last := |n.past.successes|;
    NewSuccessIsSound(cfg, n, tx, newId);
    forall i | 0 <= i < last ensures SuccessSound(cfg, m.server.tables.challenges, m.clock, m.past.successes[i]) {
      assert m.past.successes[i] == m.past.successes[..last][i];
      assert SuccessSound(cfg, n.server.tables.challenges, n.clock, n.past.successes[i]);
      if n.past.successes[i].action != Auth { OpenMeansUnspent(cfg, n, tx, i); }
    }
  }

  lemma {:induction false} EndKeepsCallbacks(cfg: Settings, n: Net, tx: nat, newId: UserId)
    requires CallbackInv(cfg, n) && tx in n.txs && n.txs[tx].query.k1 in n.server.tables.challenges
    requires !Decide(cfg, n.server.tables, n.txs[tx].query, newId).Refused?
    ensures CallbackInv(cfg, End(cfg, n, tx, newId))
  {
    NewSuccessIsSound(cfg, n, tx, newId);
    EndKeepsTxs(cfg, n, tx, newId);
    EndKeepsSuccesses(cfg, n, tx, newId);
    EndKeepsOnce(cfg, n, tx, newId);
  }

  lemma {:induction false} FinishKeepsCallbacks(cfg: Settings, n: Net, tx: nat, newId: UserId)
    requires CallbackInv(cfg, n)
    ensures CallbackInv(cfg, End(cfg, n, tx, newId))
  {
    if tx in n.txs {
      assert TxSound(cfg, n, tx);
      if Decide(cfg, n.server.tables, n.txs[tx].query, newId).Refused? {
        QuietKeepsCallbacks(cfg, n, End(cfg, n, tx, newId));
      } else {
        EndKeepsCallbacks(cfg, n, tx, newId);
      }
    }
  }

  lemma {:induction false} OtherStepKeepsCallbacks(cfg: Settings, n: Net, step: Step)
    requires CallbackInv(cfg, n) && !step.Claim? && !step.Finish?
    ensures CallbackInv(cfg, Next(cfg, n, step))
  {
    AccountsKeptQuietly(cfg, n, step);
    QuietKeepsCallbacks(cfg, n, Next(cfg, n, step));
  }

  lemma {:induction false} StepKeepsCallbacks(cfg: Settings, n: Net, step: Step)
    requires CallbackInv(cfg, n)
    ensures CallbackInv(cfg, Next(cfg, n, step))
  {
    match step
    case Claim(tx) => ClaimKeepsCallbacks(cfg, n, tx);
    case Finish(tx, newId) => FinishKeepsCallbacks(cfg, n, tx, newId);
    case _ => OtherStepKeepsCallbacks(cfg, n, step);
  }

  lemma {:induction false} AccountsKeptQuietly(cfg: Settings, n: Net, step: Step)
    requires Accounts(n.server.tables.users) && !step.Finish?
    ensures Accounts(Next(cfg, n, step).server.tables.users)
  {
    match step
    case PostRegister(sid, newId, hash) =>
      if FindById(n.server.tables.users, newId).None? {
        AddingKeepsAccounts(n.server.tables.users, User(newId, None, Some(hash)));
      }
    case NewPassword(user, hash) => PasswordKeepsAccounts(n.server.tables, user, hash);
    case UnlinkKey(user) => UnlinkKeepsAccounts(n.server.tables, user);
    case _ =>
  }

  lemma {:induction false} RunKeepsCallbacks(cfg: Settings, n: Net, steps: seq<Step>)
    requires CallbackInv(cfg, n)
    ensures CallbackInv(cfg, Run(cfg, n, steps))
    decreases |steps|
  {
    if |steps| == 0 {
    } else {
      RunKeepsCallbacks(cfg, n, steps[..|steps| - 1]);
      StepKeepsCallbacks(cfg, Run(cfg, n, steps[..|steps| - 1]), steps[|steps| - 1]);
    }
  }

  // ---------------------------------------------------------------- main results on callbacks

  // In every run: no challenge has two successful register, login or link callbacks; each success
  // arrived within the life time of its challenge, with a valid signature and the challenge's own
  // action; and each but auth consumed it and left the signing key with the account it reported.
  lemma {:induction false} SingleSuccess(cfg: Settings, users: seq<User>, steps: seq<Step>)
    requires Accounts(users)
    ensures var n := Run(cfg, Start(users), steps);
            && OncePerChallenge(n.past.successes)
            && SuccessesSound(cfg, n.server.tables.challenges, n.clock, n.past.successes)
  {
    RunKeepsCallbacks(cfg, Start(users), steps);
  }

  // No two users share a key, and everybody can log in, through every mutator of accounts.
  lemma {:induction false} AccountsStaySound(cfg: Settings, users: seq<User>, steps: seq<Step>)
    requires Accounts(users)
    ensures Accounts(Run(cfg, Start(users), steps).server.tables.users)
  {
    RunKeepsCallbacks(cfg, Start(users), steps);
  }

  // A callback that nothing interrupts is its three steps: the tables and the event are those the
  // single-request method promises.
  lemma {:induction false} CallbackIsItsSteps(cfg: Settings, n: Net, tx: nat, q: Query, newId: UserId)
    requires tx !in n.txs && tx !in n.waiting && !Locked(n, q.k1)
    ensures var m := Callback(cfg, n, tx, q, newId);
            && m.waiting == n.waiting && m.txs == n.txs
            && if !Claimable(n.server.tables, q.k1, n.clock, cfg.ttl) then m == n
               else
                 match Decide(cfg, n.server.tables, q, newId)
                 case Committed(after, user) =>
                   m.server == n.server.(tables := after) && m.pending == n.pending + [Event(q.k1, Some(user))]
                 case Answered(user) => m.server == n.server && m.pending == n.pending + [Event(q.k1, user)]
                 case Refused(_) => m == n
  {
    ArriveThenClaim(cfg, n, tx, q);
    assert n.txs[tx := Tx(q, n.clock, n.clock)] - {tx} == n.txs;
  }

  function Callback(cfg: Settings, n: Net, tx: nat, q: Query, newId: UserId): Net {
    Next(cfg, Next(cfg, Next(cfg, n, Arrive(tx, q)), Claim(tx)), Finish(tx, newId))
  }

  lemma {:induction false} ArriveThenClaim(cfg: Settings, n: Net, tx: nat, q: Query)
    requires tx !in n.txs && tx !in n.waiting && !Locked(n, q.k1)
    ensures Next(cfg, Next(cfg, n, Arrive(tx, q)), Claim(tx)) ==
            if Claimable(n.server.tables, q.k1, n.clock, cfg.ttl) then n.(txs := n.txs[tx := Tx(q, n.clock, n.clock)])
            else n
  {
    assert n.waiting[tx := Arrival(q, n.clock)] - {tx} == n.waiting;
    assert !Locked(Next(cfg, n, Arrive(tx, q)), q.k1);
  }

  // ---------------------------------------------------------------- runs in pieces

  lemma {:induction false} RunSnoc(cfg: Settings, n: Net, steps: seq<Step>, step: Step)
    ensures Run(cfg, n, steps + [step]) == Next(cfg, Run(cfg, n, steps), step)
  {
    assert (steps + [step])[..|steps|] == steps;
  }

  lemma {:induction false} RunAppend(cfg: Settings, n: Net, a: seq<Step>, b: seq<Step>)
    ensures Run(cfg, n, a + b) == Run(cfg, Run(cfg, n, a), b)
    decreases |b|
  {
    if |b| == 0 {
      assert a + b == a;
    } else {
      var past, last := a + b[..|b| - 1], b[|b| - 1];
      assert Run(cfg, n, a + b) == Next(cfg, Run(cfg, n, past), last) by {
        assert a + b == past + [last];
        RunSnoc(cfg, n, past, last);
      }
      assert Run(cfg, Run(cfg, n, a), b) == Next(cfg, Run(cfg, Run(cfg, n, a), b[..|b| - 1]), last) by {
        RunEnds(cfg, Run(cfg, n, a), b);
      }
      RunAppend(cfg, n, a, b[..|b| - 1]);
    }
  }

  lemma {:induction false} RunEnds(cfg: Settings, n: Net, steps: seq<Step>)
    requires |steps| > 0
    ensures Run(cfg, n, steps) == Next(cfg, Run(cfg, n, steps[..|steps| - 1]), steps[|steps| - 1])
  {
  }

  lemma {:induction false} RunOfTwo(cfg: Settings, n: Net, x: Step, y: Step)
    ensures Run(cfg, n, [x, y]) == Next(cfg, Next(cfg, n, x), y)
  {
    RunSnoc(cfg, n, [], x);
    RunSnoc(cfg, n, [x], y);
    assert [] + [x] == [x] && [x] + [y] == [x, y];
  }

  lemma {:induction false} RunOfThree(cfg: Settings, n: Net, x: Step, y: Step, z: Step)
    ensures Run(cfg, n, [x, y, z]) == Next(cfg, Next(cfg, Next(cfg, n, x), y), z)
  {
    RunOfTwo(cfg, n, x, y);
    RunSnoc(cfg, n, [x, y], z);
    assert [x, y] + [z] == [x, y, z];
  }

  // ---------------------------------------------------------------- what consumes a challenge

  ghost predicate SucceededOn(successes: seq<Success>, k1: K1) {
    exists i :: 0 <= i < |successes| && successes[i].query.k1 == k1 && successes[i].action != Auth
  }

  ghost predicate ConsumptionExplained(n: Net) {
    forall k :: k in n.server.tables.challenges && n.server.tables.challenges[k].consumed ==>
      SucceededOn(n.past.successes, k)
  }

  lemma {:induction false} SucceededOnExtends(a: seq<Success>, s: Success, k1: K1)
    requires SucceededOn(a, k1)
    ensures SucceededOn(a + [s], k1)
  {
    var i :| 0 <= i < |a| && a[i].query.k1 == k1 && a[i].action != Auth;
    assert (a + [s])[i] == a[i];
  }

  lemma {:induction false} EndExplainsConsumption(cfg: Settings, n: Net, tx: nat, newId: UserId)
    requires CallbackInv(cfg, n) && ConsumptionExplained(n)
    ensures ConsumptionExplained(End(cfg, n, tx, newId))
  {
    var m := End(cfg, n, tx, newId);
    if |m.past.successes| > |n.past.successes| {
      var s := m.past.successes[|n.past.successes|];
      assert m.past.successes == n.past.successes + [s];
      if m.server.tables != n.server.tables { CommitLaw(cfg, n.server.tables, n.txs[tx].query, newId); }
      forall k | k in m.server.tables.challenges && m.server.tables.challenges[k].consumed
        ensures SucceededOn(m.past.successes, k) {
        if k in n.server.tables.challenges && n.server.tables.challenges[k].consumed {
          SucceededOnExtends(n.past.successes, s, k);
        } else {
          assert m.past.successes[|n.past.successes|].query.k1 == k;
        }
      }
    }
  }

  lemma {:induction false} StepExplainsConsumption(cfg: Settings, n: Net, step: Step)
    requires CallbackInv(cfg, n) && ConsumptionExplained(n)
    ensures ConsumptionExplained(Next(cfg, n, step))
  {
    if step.Finish? { EndExplainsConsumption(cfg, n, step.tx, step.newId); }
  }

  lemma {:induction false} RunExplainsConsumption(cfg: Settings, users: seq<User>, steps: seq<Step>)
    requires Accounts(users)
    ensures ConsumptionExplained(Run(cfg, Start(users), steps))
    decreases |steps|
  {
    if |steps| == 0 {
    } else {
      RunExplainsConsumption(cfg, users, steps[..|steps| - 1]);
      RunKeepsCallbacks(cfg, Start(users), steps[..|steps| - 1]);
      StepExplainsConsumption(cfg, Run(cfg, Start(users), steps[..|steps| - 1]), steps[|steps| - 1]);
    }
  }

  // In every reachable state a challenge is consumed exactly when a register, login or link
  // callback has succeeded on it: nothing else ever uses one up.
  lemma {:induction false} ConsumedExactlyBySuccess(cfg: Settings, users: seq<User>, steps: seq<Step>, k1: K1)
    requires Accounts(users)
    requires k1 in Run(cfg, Start(users), steps).server.tables.challenges
    ensures var n := Run(cfg, Start(users), steps);
            n.server.tables.challenges[k1].consumed <==> SucceededOn(n.past.successes, k1)
  {
    RunExplainsConsumption(cfg, users, steps);
    RunKeepsCallbacks(cfg, Start(users), steps);
    var n := Run(cfg, Start(users), steps);
    if SucceededOn(n.past.successes, k1) {
      var i :| 0 <= i < |n.past.successes| && n.past.successes[i].query.k1 == k1 && n.past.successes[i].action != Auth;
      assert SuccessSound(cfg, n.server.tables.challenges, n.clock, n.past.successes[i]);
    }
  }

  // A callback that may not commit, for whatever reason, leaves the server as it was and gives the
  // lock back: a later callback on the same challenge consumes it exactly when it has not expired
  // and that callback itself may commit.
  lemma {:induction false} FailedCallbackSpendsNothing(
    cfg: Settings, users: seq<User>, steps: seq<Step>, tx: nat, newId: UserId, retry: nat, q: Query, laterId: UserId)
    requires Accounts(users)
    requires var n := Run(cfg, Start(users), steps);
             && tx in n.txs && n.txs[tx].query.k1 in n.server.tables.challenges
             && !Permitted(cfg, n.server.tables, n.txs[tx].query, newId)
             && retry !in n.txs && retry !in n.waiting && q.k1 == n.txs[tx].query.k1
    ensures var n := Run(cfg, Start(users), steps);
            var failed := Next(cfg, n, Finish(tx, newId));
            var again := Callback(cfg, failed, retry, q, laterId);
            && failed.server == n.server
            && q.k1 in again.server.tables.challenges
            && (again.server.tables.challenges[q.k1].consumed <==>
                  && n.clock <= n.server.tables.challenges[q.k1].createdAt + cfg.ttl * SECOND
                  && Permitted(cfg, n.server.tables, q, laterId))
  {
    RunKeepsCallbacks(cfg, Start(users), steps);
    var n := Run(cfg, Start(users), steps);
    assert TxSound(cfg, n, tx);
    CommitsExactly(cfg, n.server.tables, n.txs[tx].query, newId);
    CommitsExactly(cfg, n.server.tables, q, laterId);
    var failed := Next(cfg, n, Finish(tx, newId));
    assert !Locked(failed, q.k1);
    CallbackIsItsSteps(cfg, failed, retry, q, laterId);
    CommitConsumes(cfg, n.server.tables, q, laterId);
  }

  // The same at the input the documentation speaks of: a signature that does not verify.
  lemma {:induction false} BadSignatureSpendsNothing(
    cfg: Settings, users: seq<User>, steps: seq<Step>, tx: nat, newId: UserId, retry: nat, q: Query, laterId: UserId)
    requires Accounts(users)
    requires var n := Run(cfg, Start(users), steps);
             && tx in n.txs && !cfg.verify(n.txs[tx].query.k1, n.txs[tx].query.key, n.txs[tx].query.sig)
             && retry !in n.txs && retry !in n.waiting && q.k1 == n.txs[tx].query.k1
    ensures var n := Run(cfg, Start(users), steps);
            var failed := Next(cfg, n, Finish(tx, newId));
            && failed.server == n.server && q.k1 in failed.server.tables.challenges
            && !failed.server.tables.challenges[q.k1].consumed
            && (Permitted(cfg, n.server.tables, q, laterId) &&
                n.clock <= n.server.tables.challenges[q.k1].createdAt + cfg.ttl * SECOND ==>
                  SucceededOn(Callback(cfg, failed, retry, q, laterId).past.successes, q.k1))
  {
    RunKeepsCallbacks(cfg, Start(users), steps);
    var n := Run(cfg, Start(users), steps);
    assert TxSound(cfg, n, tx);
    FailedCallbackSpendsNothing(cfg, users, steps, tx, newId, retry, q, laterId);
    var failed := steps + [Finish(tx, newId)];
    var more := failed + [Arrive(retry, q)] + [Claim(retry)] + [Finish(retry, laterId)];
    RunSnoc(cfg, Start(users), steps, Finish(tx, newId));
    RunSnoc(cfg, Start(users), failed, Arrive(retry, q));
    RunSnoc(cfg, Start(users), failed + [Arrive(retry, q)], Claim(retry));
    RunSnoc(cfg, Start(users), failed + [Arrive(retry, q)] + [Claim(retry)], Finish(retry, laterId));
    ConsumedExactlyBySuccess(cfg, users, more, q.k1);
  }

  // ---------------------------------------------------------------- the exact bound on late commits

  // A success whose callback took at most hold from arrival to end.
  predicate EndsInTime(cfg: Settings, n: Net, s: Success, hold: nat, slack: nat) {
    s.query.k1 in n.server.tables.challenges && s.endedAt - s.arrivedAt <= hold ==>
      s.endedAt <= n.server.tables.challenges[s.query.k1].createdAt + cfg.ttl * SECOND + slack
  }

  // In every run, callbacks of this action that take at most hold end within the life time and slack more.
  ghost predicate HoldIsSafe(cfg: Settings, action: Action, hold: nat, slack: nat) {
    forall users, steps, i | Accounts(users) && 0 <= i < |Run(cfg, Start(users), steps).past.successes| ::
      Run(cfg, Start(users), steps).past.successes[i].action == action ==>
        EndsInTime(cfg, Run(cfg, Start(users), steps), Run(cfg, Start(users), steps).past.successes[i], hold, slack)
  }

  // One account that owns the key and has a password, so that every action can succeed.
  function Owner(key: PubKey): seq<User> {
    [User(0, Some(key), Some("h"))]
  }

  // How a challenge of each action comes to be.
  function Ask(action: Action, k1: K1): seq<Step> {
    match action
    case Register => [Open(0, 0, "n", true), Refresh(0, k1)]
    case Login => [Open(0, 0, "n", false), Refresh(0, k1)]
    case Link => [NewLink(k1, 0), Tick(0)]
    case Auth => [NewAuth(k1), Tick(0)]
  }

  // It arrives at the last moment of the life time and takes hold to commit.
  function ArriveLast(cfg: Settings, q: Query, hold: nat): seq<Step> {
    [Tick(cfg.ttl * SECOND), Arrive(0, q), Claim(0)] + [Tick(hold), Finish(0, 0)]
  }

  ghost predicate Asked(n: Net, key: PubKey, k1: K1, action: Action) {
    && n.server.tables.users == Owner(key) && n.clock == 0 && n.waiting == map[] && n.txs == map[]
    && n.past.successes == []
    && k1 in n.server.tables.challenges
    && n.server.tables.challenges[k1] == Challenge(action, if action == Link then Some(0) else None, false, 0)
  }

  lemma {:induction false} AskMakesChallenge(cfg: Settings, key: PubKey, k1: K1, action: Action)
    ensures Asked(Run(cfg, Start(Owner(key)), Ask(action, k1)), key, k1, action)
  {
    var steps := Ask(action, k1);
    RunOfTwo(cfg, Start(Owner(key)), steps[0], steps[1]);
    assert !NonceUsed(Start(Owner(key)), "n");
  }

  lemma {:induction false} OwnerMaySucceed(cfg: Settings, t: Tables, q: Query)
    requires t.users == Owner(q.key) && q.k1 in t.challenges && cfg.verify(q.k1, q.key, q.sig)
    requires q.action == Some(t.challenges[q.k1].action)
    requires t.challenges[q.k1].action == Link ==> t.challenges[q.k1].user == Some(0)
    ensures !Decide(cfg, t, q, 0).Refused?
  {
    assert Accounts(t.users);
    FoundByKey(t.users, 0, q.key);
    FoundById(t.users, 0);
  }

  // The claim is made at the last moment of the life time ...
  lemma {:induction false} ClaimedLast(cfg: Settings, n: Net, q: Query, action: Action)
    requires Asked(n, q.key, q.k1, action)
    ensures var m := Run(cfg, n, [Tick(cfg.ttl * SECOND), Arrive(0, q), Claim(0)]);
            && m.server == n.server && m.past == n.past && m.clock == cfg.ttl * SECOND
            && m.txs == map[0 := Tx(q, m.clock, m.clock)]
  {
    var last := cfg.ttl * SECOND;
    RunOfThree(cfg, n, Tick(last), Arrive(0, q), Claim(0));
    ArriveThenClaim(cfg, n.(clock := last), 0, q);
  }

  // ... and the commit comes hold later.
  lemma {:induction false} EndedLate(cfg: Settings, m: Net, q: Query, hold: nat)
    requires m.txs == map[0 := Tx(q, m.clock, m.clock)] && m.past.successes == []
    requires q.k1 in m.server.tables.challenges && !Decide(cfg, m.server.tables, q, 0).Refused?
    ensures var e := Run(cfg, m, [Tick(hold), Finish(0, 0)]);
            && |e.past.successes| == 1 && q.k1 in e.server.tables.challenges
            && e.server.tables.challenges[q.k1].createdAt == m.server.tables.challenges[q.k1].createdAt
            && var s := e.past.successes[0];
               && s.query == q && s.action == m.server.tables.challenges[q.k1].action
               && s.arrivedAt == m.clock && s.endedAt == m.clock + hold
  {
    RunOfTwo(cfg, m, Tick(hold), Finish(0, 0));
    EndRecords(cfg, m.(clock := m.clock + hold), 0, 0);
  }

  // A successful end writes one line of history and moves no challenge in time.
  lemma {:induction false} EndRecords(cfg: Settings, n: Net, tx: nat, newId: UserId)
    requires tx in n.txs && n.txs[tx].query.k1 in n.server.tables.challenges
    requires !Decide(cfg, n.server.tables, n.txs[tx].query, newId).Refused?
    ensures var t, m := n.txs[tx], End(cfg, n, tx, newId);
            && |m.past.successes| == |n.past.successes| + 1 && t.query.k1 in m.server.tables.challenges
            && m.server.tables.challenges[t.query.k1].createdAt == n.server.tables.challenges[t.query.k1].createdAt
            && var s := m.past.successes[|n.past.successes|];
               && s.query == t.query && s.action == n.server.tables.challenges[t.query.k1].action
               && s.arrivedAt == t.arrivedAt && s.endedAt == n.clock
  {
    CommitConsumes(cfg, n.server.tables, n.txs[tx].query, newId);
  }

  // For every hold there is a run whose only success ends exactly hold after its challenge's life time.
  lemma {:induction false} LateCommit(cfg: Settings, action: Action, hold: nat, k1: K1, key: PubKey, sig: string)
    requires cfg.verify(k1, key, sig)
    ensures var q := Query(k1, key, sig, Some(action));
            var n := Run(cfg, Start(Owner(key)), Ask(action, k1) + ArriveLast(cfg, q, hold));
            && |n.past.successes| == 1 && k1 in n.server.tables.challenges
            && var s := n.past.successes[0];
               && s.query == q && s.action == action && s.endedAt - s.arrivedAt == hold
               && s.endedAt == n.server.tables.challenges[k1].createdAt + cfg.ttl * SECOND + hold
  {
    var q := Query(k1, key, sig, Some(action));
    var claim, end := [Tick(cfg.ttl * SECOND), Arrive(0, q), Claim(0)], [Tick(hold), Finish(0, 0)];
    var n := Run(cfg, Start(Owner(key)), Ask(action, k1));
    AskMakesChallenge(cfg, key, k1, action);
    ClaimedLast(cfg, n, q, action);
    OwnerMaySucceed(cfg, n.server.tables, q);
    EndedLate(cfg, Run(cfg, n, claim), q, hold);
    RunAppend(cfg, n, claim, end);
    RunAppend(cfg, Start(Owner(key)), Ask(action, k1), claim + end);
  }

  // The life time binds the arrival; a commit can be late by as much as its callback takes, and by
  // no more: ending within the life time and slack more is guaranteed exactly for callbacks that
  // take no longer than slack, whatever the action.
  lemma {:induction false} LifeTimeBoundIsExact(
    cfg: Settings, action: Action, hold: nat, slack: nat, k1: K1, key: PubKey, sig: string)
    requires cfg.verify(k1, key, sig)
    ensures HoldIsSafe(cfg, action, hold, slack) <==> hold <= slack
  {
    if hold <= slack {
      forall users, steps, i: nat | Accounts(users) && i < |Run(cfg, Start(users), steps).past.successes|
        ensures var n := Run(cfg, Start(users), steps); EndsInTime(cfg, n, n.past.successes[i], hold, slack) {
        SingleSuccess(cfg, users, steps);
        var n := Run(cfg, Start(users), steps);
        assert SuccessSound(cfg, n.server.tables.challenges, n.clock, n.past.successes[i]);
      }
    } else {
      var q := Query(k1, key, sig, Some(action));
      var steps := Ask(action, k1) + ArriveLast(cfg, q, hold);
      LateCommit(cfg, action, hold, k1, key, sig);
      var n := Run(cfg, Start(Owner(key)), steps);
      assert Accounts(Owner(key));
      assert !EndsInTime(cfg, n, n.past.successes[0], hold, slack);
    }
  }

  // ---------------------------------------------------------------- only auth can repeat

  ghost predicate NeverTwice(cfg: Settings, action: Action) {
    forall users, steps, i, j | Accounts(users) && 0 <= i < j < |Run(cfg, Start(users), steps).past.successes| ::
      NotTwice(Run(cfg, Start(users), steps).past.successes, i, j, action)
  }

  predicate NotTwice(successes: seq<Success>, i: nat, j: nat, action: Action)
    requires i < |successes| && j < |successes|
  {
    !(successes[i].action == action && successes[j].action == action && successes[i].query.k1 == successes[j].query.k1)
  }

  // A stateless challenge answers OK and is as good as before.
  lemma {:induction false} AuthAnswersAgain(cfg: Settings, n: Net, q: Query)
    requires q.k1 in n.server.tables.challenges
             && n.server.tables.challenges[q.k1] == Challenge(Auth, None, false, n.clock)
    requires n.txs == map[] && n.waiting == map[] && q.action == Some(Auth) && cfg.verify(q.k1, q.key, q.sig)
    ensures var m := Run(cfg, n, AskOnce(q));
            && m.server == n.server && m.clock == n.clock && m.txs == map[] && m.waiting == map[]
            && |m.past.successes| == |n.past.successes| + 1
            && m.past.successes[..|n.past.successes|] == n.past.successes
            && m.past.successes[|n.past.successes|].query == q && m.past.successes[|n.past.successes|].action == Auth
  {
    RunOfThree(cfg, n, Arrive(0, q), Claim(0), Finish(0, 0));
    ArriveThenClaim(cfg, n, 0, q);
    assert map[0 := Tx(q, n.clock, n.clock)] - {0} == map[];
  }

  function AskOnce(q: Query): seq<Step> {
    [Arrive(0, q), Claim(0), Finish(0, 0)]
  }

  function AskAuthTwice(q: Query): seq<Step> {
    [NewAuth(q.k1)] + AskOnce(q) + AskOnce(q)
  }

  lemma {:induction false} AuthSucceedsTwice(cfg: Settings, q: Query)
    requires q.action == Some(Auth) && cfg.verify(q.k1, q.key, q.sig)
    ensures var successes := Run(cfg, Start([]), AskAuthTwice(q)).past.successes;
            |successes| == 2 && !NotTwice(successes, 0, 1, Auth)
  {
    var n := Next(cfg, Start([]), NewAuth(q.k1));
    RunSnoc(cfg, Start([]), [], NewAuth(q.k1));
    assert [] + [NewAuth(q.k1)] == [NewAuth(q.k1)];
    AuthAnswersAgain(cfg, n, q);
    var m := Run(cfg, n, AskOnce(q));
    AuthAnswersAgain(cfg, m, q);
    RunAppend(cfg, Start([]), [NewAuth(q.k1)], AskOnce(q));
    RunAppend(cfg, Start([]), [NewAuth(q.k1)] + AskOnce(q), AskOnce(q));
    var successes := Run(cfg, Start([]), AskAuthTwice(q)).past.successes;
    assert successes[0] == successes[..1][0] == m.past.successes[0];
  }

  // A challenge succeeds at most once exactly for the actions other than auth, whenever some
  // signature can be valid at all.
  lemma {:induction false} OnlyAuthCanRepeat(cfg: Settings, action: Action, k1: K1, key: PubKey, sig: string)
    requires cfg.verify(k1, key, sig)
    ensures NeverTwice(cfg, action) <==> action != Auth
  {
    if action != Auth {
      forall users, steps, i: nat, j: nat | Accounts(users) && i < j < |Run(cfg, Start(users), steps).past.successes|
        ensures NotTwice(Run(cfg, Start(users), steps).past.successes, i, j, action) {
        SingleSuccess(cfg, users, steps);
      }
    } else {
      var q := Query(k1, key, sig, Some(Auth));
      AuthSucceedsTwice(cfg, q);
      var steps := AskAuthTwice(q);
      assert Accounts([]);
      assert !NotTwice(Run(cfg, Start([]), steps).past.successes, 0, 1, Auth);
    }
  }

  // ---------------------------------------------------------------- the password form

  predicate Opens(step: Step, sid: SessionId) {
    step.Open? && step.sid == sid
  }

  lemma {:induction false} NoPageNoNonce(cfg: Settings, n: Net, sid: SessionId, steps: seq<Step>)
    requires SessionOf(n.server, sid).nonce == None
    requires forall i :: 0 <= i < |steps| ==> !Opens(steps[i], sid)
    ensures SessionOf(Run(cfg, n, steps).server, sid).nonce == None
    decreases |steps|
  {
    if |steps| == 0 {
    } else {
      NoPageNoNonce(cfg, n, sid, steps[..|steps| - 1]);
      StepAddsNoNonce(cfg, Run(cfg, n, steps[..|steps| - 1]), sid, steps[|steps| - 1]);
    }
  }

  lemma {:induction false} StepAddsNoNonce(cfg: Settings, n: Net, sid: SessionId, step: Step)
    requires SessionOf(n.server, sid).nonce == None && !Opens(step, sid)
    ensures SessionOf(Next(cfg, n, step).server, sid).nonce == None
  {
  }

  // A password form logs in only under the nonce the session expects. After it, however the run
  // goes on, no password form and no redirect changes who is in this session until a page is
  // opened for it again.
  lemma {:induction false} PasswordFormWorksOnce(
    cfg: Settings, n: Net, sid: SessionId, formNonce: Option<Nonce>, account: Option<UserId>, steps: seq<Step>,
    laterNonce: Option<Nonce>, laterAccount: Option<UserId>)
    requires forall i :: 0 <= i < |steps| ==> !Opens(steps[i], sid)
    ensures var posted := Next(cfg, n, PostLogin(sid, formNonce, account));
            var m := Run(cfg, posted, steps);
            && (SessionOf(posted.server, sid).user != SessionOf(n.server, sid).user ==>
                  && SessionOf(n.server, sid).nonce.Some? && formNonce == SessionOf(n.server, sid).nonce
                  && SessionOf(posted.server, sid).user == account)
            && SessionOf(Next(cfg, m, PostLogin(sid, laterNonce, laterAccount)).server, sid) == SessionOf(m.server, sid)
            && Next(cfg, m, FollowRedirect(sid)) == m
  {
    NoPageNoNonce(cfg, Next(cfg, n, PostLogin(sid, formNonce, account)), sid, steps);
  }

  // ---------------------------------------------------------------- what a step can touch

  // A challenge that a step adds is new, unused and stamped with the moment of the step, for the
  // action and the user it was asked for.
  lemma {:induction false} NewChallengesAreFresh(cfg: Settings, n: Net, step: Step, k1: K1)
    requires k1 !in n.server.tables.challenges && k1 in Next(cfg, n, step).server.tables.challenges
    ensures var c := Next(cfg, n, step).server.tables.challenges[k1];
            && !c.consumed && c.createdAt == n.clock
            && match step
               case Refresh(page, k) =>
                 k == k1 && page in n.server.pages && c.action == n.server.pages[page].action && c.user == None
               case NewLink(k, user) => k == k1 && c.action == Link && c.user == Some(user)
               case NewAuth(k) => k == k1 && c.action == Auth && c.user == None
               case _ => false
  {
    if step.Finish? { EndAddsNoChallenge(cfg, n, step.tx, step.newId); }
  }

  lemma {:induction false} EndAddsNoChallenge(cfg: Settings, n: Net, tx: nat, newId: UserId)
    ensures End(cfg, n, tx, newId).server.tables.challenges.Keys == n.server.tables.challenges.Keys
  {
    if tx in n.txs && n.txs[tx].query.k1 in n.server.tables.challenges {
      CommitConsumes(cfg, n.server.tables, n.txs[tx].query, newId);
    }
  }

  // The session a step belongs to, if any; no step changes another one.
  function SessionNamed(step: Step): Option<SessionId> {
    match step
    case Open(sid, _, _, _) => Some(sid)
    case FollowRedirect(sid) => Some(sid)
    case PostLogin(sid, _, _) => Some(sid)
    case PostRegister(sid, _, _) => Some(sid)
    case LeaveSession(sid) => Some(sid)
    case _ => None
  }

  lemma {:induction false} OnlyOwnSessionChanges(cfg: Settings, n: Net, step: Step, sid: SessionId)
    ensures SessionNamed(step) != Some(sid) ==> SessionOf(Next(cfg, n, step).server, sid) == SessionOf(n.server, sid)
    ensures step == LeaveSession(sid) ==> SessionOf(Next(cfg, n, step).server, sid) == Session(None, None)
  {
    if step.Finish? { EndKeepsSessions(cfg, n, step.tx, step.newId); }
  }

  lemma {:induction false} EndKeepsSessions(cfg: Settings, n: Net, tx: nat, newId: UserId)
    ensures End(cfg, n, tx, newId).server.sessions == n.server.sessions
  {
  }

  // What the steps outside the callback do to the account table, row by row.
  lemma {:induction false} AccountStepsLaw(cfg: Settings, n: Net, step: Step)
    requires Accounts(n.server.tables.users) && !step.Finish?
    ensures var before, after := n.server.tables.users, Next(cfg, n, step).server.tables.users;
            match step
            case PostRegister(sid, newId, hash) =>
              after == if IdTaken(before, newId) then before else before + [User(newId, None, Some(hash))]
            case NewPassword(user, hash) =>
              |after| == |before| && forall i :: 0 <= i < |before| ==>
                after[i] == if before[i].id == user then before[i].(password := Some(hash)) else before[i]
            case UnlinkKey(user) =>
              |after| == |before| && forall i :: 0 <= i < |before| ==>
                after[i] == if before[i].id == user && before[i].password.Some? then before[i].(pubkey := None)
                            else before[i]
            case _ => after == before
  {
    match step
    case PostRegister(_, newId, _) =>
      assert FindById(n.server.tables.users, newId).Some? <==> IdTaken(n.server.tables.users, newId);
    case _ =>
  }

  // A broken connection gives the lock back: a callback that waited for it is decided by the
  // cutoff of its own arrival, and nothing else changes.
  lemma {:induction false} AbortReleases(cfg: Settings, n: Net, tx: nat, other: nat)
    requires CallbackInv(cfg, n) && tx in n.txs && other in n.waiting && other != tx && other !in n.txs
    requires n.waiting[other].query.k1 == n.txs[tx].query.k1
    ensures var m := Next(cfg, n, Abort(tx));
            var a, c := n.waiting[other], n.server.tables.challenges;
            && m == n.(waiting := m.waiting, txs := m.txs)
            && m.txs.Keys == n.txs.Keys - {tx} && m.waiting.Keys == n.waiting.Keys - {tx}
            && a.query.k1 in c
            && (other in Next(cfg, m, Claim(other)).txs <==> a.arrivedAt <= c[a.query.k1].createdAt + cfg.ttl * SECOND)
            && (other !in Next(cfg, n, Claim(other)).txs)
  {
    assert TxSound(cfg, n, tx);
    var m := Next(cfg, n, Abort(tx));
    assert Locked(n, n.waiting[other].query.k1);
    assert !Locked(m, n.waiting[other].query.k1);
  }
}
