// Agreement: who is logged in by a redirect, and where that user came from.
module LnurlAgreement {
  import opened Common
  import opened Lnurl
  import opened LnurlProtocol

  // ---------------------------------------------------------------- the invariant

  predicate LoginAction(a: Action) {
    a == Login || a == Register
  }

  // A successful login or register callback on k1 for this user, whose key was the user's at its end.
  predicate IsWitness(s: Success, k1: K1, user: UserId) {
    s.query.k1 == k1 && LoginAction(s.action) && s.user == Some(user)
  }

  ghost predicate Witnessed(successes: seq<Success>, k1: K1, user: UserId) {
    exists i :: 0 <= i < |successes| && IsWitness(successes[i], k1, user)
  }

  // k1 was shown by the page with this nonce, rendered for this session.
  predicate ShownBy(n: Net, k1: K1, nonce: Nonce) {
    && k1 in n.past.shown && n.past.shown[k1] in n.server.pages
    && n.server.pages[n.past.shown[k1]].nonce == nonce
  }

  ghost predicate PagesSound(n: Net) {
    && (forall p :: p in n.server.pages ==>
          && LoginAction(n.server.pages[p].action)
          && (n.server.pages[p].k1.Some? ==>
                n.server.pages[p].k1.value in n.past.shown && n.past.shown[n.server.pages[p].k1.value] == p))
    && (forall p, q ::
          p in n.server.pages && q in n.server.pages && n.server.pages[p].nonce == n.server.pages[q].nonce ==> p == q)
    && (forall k :: k in n.past.shown ==>
          && n.past.shown[k] in n.server.pages
          && k in n.server.tables.challenges && LoginAction(n.server.tables.challenges[k].action))
  }

  // A session's nonce is that of a page rendered for this very session.
  predicate NonceOwned(n: Net, sid: SessionId, nonce: Nonce) {
    exists p :: p in n.server.pages && n.server.pages[p].nonce == nonce && n.server.pages[p].session == sid
  }

  ghost predicate SessionsSound(n: Net) {
    forall sid :: sid in n.server.sessions && n.server.sessions[sid].nonce.Some? ==>
      NonceOwned(n, sid, n.server.sessions[sid].nonce.value)
  }

  ghost predicate EventSound(n: Net, e: Event) {
    && e.k1 in n.server.tables.challenges
    && (e.k1 in n.past.shown ==> e.user.Some? && Witnessed(n.past.successes, e.k1, e.user.value))
  }

  ghost predicate StoredSound(n: Net, nonce: Nonce)
    requires nonce in n.past.origin && nonce in n.server.storage
  {
    && ShownBy(n, n.past.origin[nonce], nonce)
    && n.server.storage[nonce].Some?
    && Witnessed(n.past.successes, n.past.origin[nonce], n.server.storage[nonce].value)
  }

  ghost predicate EntrySound(n: Net, e: Entry) {
    && ShownBy(n, e.k1, e.nonce)
    && n.server.pages[n.past.shown[e.k1]].session == e.session
    && Witnessed(n.past.successes, e.k1, e.user)
  }

  // Where a challenge's user is on its way: waiting, stored, or already in a session.
  ghost predicate Waiting(n: Net, k1: K1) {
    k1 in n.past.shown && exists i :: 0 <= i < |n.pending| && n.pending[i].k1 == k1
  }

  ghost predicate Kept(n: Net, k1: K1) {
    exists x :: x in n.past.origin && n.past.origin[x] == k1
  }

  ghost predicate Spent(n: Net, k1: K1) {
    exists i :: 0 <= i < |n.past.logins| && n.past.logins[i].k1 == k1
  }

  ghost predicate EventsSound(n: Net) {
    && (forall i :: 0 <= i < |n.pending| ==> EventSound(n, n.pending[i]))
    && (forall i, j :: 0 <= i < j < |n.pending| && n.pending[i].k1 == n.pending[j].k1 ==>
          n.pending[i].k1 !in n.past.shown)
  }

  ghost predicate StorageSound(n: Net) {
    && n.server.storage.Keys == n.past.origin.Keys
    && (forall x :: x in n.past.origin ==> StoredSound(n, x))
  }

  ghost predicate LoginsSound(n: Net) {
    && (forall i :: 0 <= i < |n.past.logins| ==> EntrySound(n, n.past.logins[i]))
    && (forall i, j :: 0 <= i < j < |n.past.logins| ==> n.past.logins[i].k1 != n.past.logins[j].k1)
  }

  ghost predicate OnePlace(n: Net) {
    forall k :: !(Waiting(n, k) && Kept(n, k)) && !(Waiting(n, k) && Spent(n, k)) && !(Kept(n, k) && Spent(n, k))
  }

  ghost predicate FlowInv(n: Net) {
    PagesSound(n) && SessionsSound(n) && EventsSound(n) && StorageSound(n) && LoginsSound(n) && OnePlace(n)
  }

  // ---------------------------------------------------------------- steps that only extend what is known

  ghost predicate Extends(n: Net, m: Net) {
    && (forall p :: p in n.server.pages ==>
          && p in m.server.pages
          && m.server.pages[p].nonce == n.server.pages[p].nonce
          && m.server.pages[p].session == n.server.pages[p].session)
    && (forall k :: k in n.past.shown ==> k in m.past.shown && m.past.shown[k] == n.past.shown[k])
    && (forall k :: k in m.past.shown && k !in n.past.shown ==> k !in n.server.tables.challenges)
    && (forall k :: k in n.server.tables.challenges ==> k in m.server.tables.challenges)
    && |n.past.successes| <= |m.past.successes|
    && (forall i :: 0 <= i < |n.past.successes| ==> m.past.successes[i] == n.past.successes[i])
  }

  lemma {:induction false} WitnessExtends(n: Net, m: Net, k1: K1, user: UserId)
    requires Extends(n, m) && Witnessed(n.past.successes, k1, user)
    ensures Witnessed(m.past.successes, k1, user)
  {
    var i :| 0 <= i < |n.past.successes| && IsWitness(n.past.successes[i], k1, user);
    assert IsWitness(m.past.successes[i], k1, user);
  }

  lemma {:induction false} EventExtends(n: Net, m: Net, e: Event)
    requires Extends(n, m) && EventSound(n, e)
    ensures EventSound(m, e)
    ensures e.k1 in m.past.shown <==> e.k1 in n.past.shown
  {
    if e.k1 in m.past.shown { WitnessExtends(n, m, e.k1, e.user.value); }
  }

  lemma {:induction false} StoredExtends(n: Net, m: Net, x: Nonce)
    requires Extends(n, m)
    requires x in n.past.origin && x in n.server.storage && StoredSound(n, x)
    requires x in m.past.origin && x in m.server.storage
    requires m.past.origin[x] == n.past.origin[x] && m.server.storage[x] == n.server.storage[x]
    ensures StoredSound(m, x)
  {
    WitnessExtends(n, m, n.past.origin[x], n.server.storage[x].value);
  }

  lemma {:induction false} EntryExtends(n: Net, m: Net, e: Entry)
    requires Extends(n, m) && EntrySound(n, e)
    ensures EntrySound(m, e)
  {
    WitnessExtends(n, m, e.k1, e.user);
  }

  lemma {:induction false} LoginsExtend(n: Net, m: Net)
    requires Extends(n, m) && LoginsSound(n) && m.past.logins == n.past.logins
    ensures LoginsSound(m)
  {
    forall i | 0 <= i < |m.past.logins| ensures EntrySound(m, m.past.logins[i]) {
      EntryExtends(n, m, n.past.logins[i]);
    }
  }

  lemma {:induction false} StorageExtends(n: Net, m: Net)
    requires Extends(n, m) && StorageSound(n) && m.past.origin == n.past.origin && m.server.storage == n.server.storage
    ensures StorageSound(m)
  {
    forall x | x in m.past.origin ensures StoredSound(m, x) {
      assert StoredSound(n, x);
      StoredExtends(n, m, x);
    }
  }

  lemma {:induction false} EventsExtend(n: Net, m: Net)
    requires Extends(n, m) && EventsSound(n) && m.pending == n.pending
    ensures EventsSound(m)
  {
    forall i | 0 <= i < |m.pending|
      ensures EventSound(m, m.pending[i]) && (m.pending[i].k1 in m.past.shown <==> n.pending[i].k1 in n.past.shown) {
      assert EventSound(n, n.pending[i]);
      EventExtends(n, m, n.pending[i]);
    }
  }

  // Nothing on its way moves.
  lemma {:induction false} StillKeepsFlow(n: Net, m: Net)
    requires EventsSound(n) && StorageSound(n) && LoginsSound(n) && OnePlace(n)
    requires Extends(n, m)
    requires m.pending == n.pending && m.past.origin == n.past.origin && m.past.logins == n.past.logins
    requires m.server.storage == n.server.storage
    ensures EventsSound(m) && StorageSound(m) && LoginsSound(m) && OnePlace(m)
  {
    EventsExtend(n, m);
    StorageExtends(n, m);
    LoginsExtend(n, m);
    forall k ensures Waiting(m, k) ==> Waiting(n, k) {
      if Waiting(m, k) {
        var i :| 0 <= i < |m.pending| && m.pending[i].k1 == k;
        assert EventSound(n, n.pending[i]);
        EventExtends(n, m, n.pending[i]);
      }
    }
    forall k ensures Kept(m, k) <==> Kept(n, k) {
    }
    forall k ensures Spent(m, k) <==> Spent(n, k) {
    }
  }

  // Pages and challenges stay, apart from consumption.
  lemma {:induction false} PagesStay(n: Net, m: Net)
    requires PagesSound(n) && m.server.pages == n.server.pages && m.past.shown == n.past.shown
    requires Forward(n.server.tables.challenges, m.server.tables.challenges)
    ensures PagesSound(m)
  {
  }

  lemma {:induction false} SessionsStay(n: Net, m: Net)
    requires SessionsSound(n) && Extends(n, m)
    requires forall sid :: sid in m.server.sessions && m.server.sessions[sid].nonce.Some? ==>
               sid in n.server.sessions && m.server.sessions[sid].nonce == n.server.sessions[sid].nonce
    ensures SessionsSound(m)
  {
    forall sid | sid in m.server.sessions && m.server.sessions[sid].nonce.Some?
      ensures NonceOwned(m, sid, m.server.sessions[sid].nonce.value) {
      var nonce := n.server.sessions[sid].nonce.value;
      assert NonceOwned(n, sid, nonce);
      var p :| p in n.server.pages && n.server.pages[p].nonce == nonce && n.server.pages[p].session == sid;
      assert m.server.pages[p].nonce == nonce;
    }
  }

  // Steps that show no new page and move no user.
  lemma {:induction false} QuietKeepsFlow(n: Net, m: Net)
    requires FlowInv(n)
    requires m.server.pages == n.server.pages && m.past == n.past && m.pending == n.pending
             && m.server.storage == n.server.storage
    requires Forward(n.server.tables.challenges, m.server.tables.challenges)
    requires forall sid :: sid in m.server.sessions && m.server.sessions[sid].nonce.Some? ==>
               sid in n.server.sessions && m.server.sessions[sid].nonce == n.server.sessions[sid].nonce
    ensures FlowInv(m)
  {
    assert Extends(n, m);
    StillKeepsFlow(n, m);
    PagesStay(n, m);
    SessionsStay(n, m);
  }

  // ---------------------------------------------------------------- the steps that matter

  lemma {:induction false} OpenKeepsFlow(n: Net, sid: SessionId, page: PageId, nonce: Nonce, registering: bool)
    requires FlowInv(n)
    ensures FlowInv(OpenStep(n, sid, page, nonce, registering))
  {
    var m := OpenStep(n, sid, page, nonce, registering);
    if m != n {
      assert Extends(n, m);
      StillKeepsFlow(n, m);
      OpenKeepsPages(n, sid, page, nonce, registering);
      OpenKeepsSessions(n, sid, page, nonce, registering);
    }
  }

  lemma {:induction false} OpenKeepsPages(n: Net, sid: SessionId, page: PageId, nonce: Nonce, registering: bool)
    requires PagesSound(n)
    ensures PagesSound(OpenStep(n, sid, page, nonce, registering))
  {
    var m := OpenStep(n, sid, page, nonce, registering);
    if m != n {
      forall p | p in n.server.pages ensures n.server.pages[p].nonce != nonce {
        assert n.server.pages[p].nonce == nonce ==> NonceUsed(n, nonce);
      }
    }
  }

  lemma {:induction false} OpenKeepsSessions(n: Net, sid: SessionId, page: PageId, nonce: Nonce, registering: bool)
    requires SessionsSound(n)
    ensures SessionsSound(OpenStep(n, sid, page, nonce, registering))
  {
    var m := OpenStep(n, sid, page, nonce, registering);
    if m != n {
      forall s | s in m.server.sessions && m.server.sessions[s].nonce.Some?
        ensures NonceOwned(m, s, m.server.sessions[s].nonce.value) {
        if s == sid {
          assert m.server.pages[page].nonce == nonce && m.server.pages[page].session == sid;
        } else {
          var x := n.server.sessions[s].nonce.value;
          assert NonceOwned(n, s, x);
          var p :| p in n.server.pages && n.server.pages[p].nonce == x && n.server.pages[p].session == s;
          assert m.server.pages[p] == n.server.pages[p];
        }
      }
    }
  }

  lemma {:induction false} RefreshKeepsFlow(n: Net, page: PageId, k1: K1)
    requires FlowInv(n)
    ensures FlowInv(RefreshStep(n, page, k1))
  {
    var m := RefreshStep(n, page, k1);
    if m != n {
      assert Extends(n, m);
      StillKeepsFlow(n, m);
      SessionsStay(n, m);
      RefreshKeepsPages(n, page, k1);
    }
  }

  lemma {:induction false} RefreshKeepsPages(n: Net, page: PageId, k1: K1)
    requires PagesSound(n)
    ensures PagesSound(RefreshStep(n, page, k1))
  {
  }

  // A success on a shown challenge is new: nothing of that challenge was on its way before.
  lemma {:induction false} FreshOnTheWay(cfg: Settings, n: Net, tx: nat)
    requires CallbackInv(cfg, n) && FlowInv(n) && tx in n.txs
    ensures var k := n.txs[tx].query.k1; !Waiting(n, k) && !Kept(n, k) && !Spent(n, k)
  {
    var k := n.txs[tx].query.k1;
    forall user ensures !Witnessed(n.past.successes, k, user) {
      OpenMeansUnwitnessed(cfg, n, tx, user);
    }
    assert forall i :: 0 <= i < |n.pending| ==> EventSound(n, n.pending[i]);
    assert forall x :: x in n.past.origin ==> StoredSound(n, x);
    assert forall i :: 0 <= i < |n.past.logins| ==> EntrySound(n, n.past.logins[i]);
  }

  lemma {:induction false} OpenMeansUnwitnessed(cfg: Settings, n: Net, tx: nat, user: UserId)
    requires CallbackInv(cfg, n) && tx in n.txs
    ensures !Witnessed(n.past.successes, n.txs[tx].query.k1, user)
  {
    forall i | 0 <= i < |n.past.successes| ensures !IsWitness(n.past.successes[i], n.txs[tx].query.k1, user) {
      if n.past.successes[i].action != Auth { OpenMeansUnspent(cfg, n, tx, i); }
    }
  }

  // What the end of a successful callback appends, and what it leaves alone.
  lemma {:induction false} SuccessExtends(cfg: Settings, n: Net, tx: nat, newId: UserId)
    requires CallbackInv(cfg, n) && tx in n.txs && n.txs[tx].query.k1 in n.server.tables.challenges
    requires !Decide(cfg, n.server.tables, n.txs[tx].query, newId).Refused?
    ensures var m := End(cfg, n, tx, newId);
            && Extends(n, m) && SameFlow(n, m)
            && |m.pending| == |n.pending| + 1 && m.pending[..|n.pending|] == n.pending
            && m.pending[|n.pending|] == Event(n.txs[tx].query.k1, m.past.successes[|n.past.successes|].user)
  {
    NewSuccessIsSound(cfg, n, tx, newId);
    SuccessAppends(cfg, n, tx, newId);
    AppendedSuccessExtends(n, End(cfg, n, tx, newId));
  }

  lemma {:induction false} SuccessAppends(cfg: Settings, n: Net, tx: nat, newId: UserId)
    requires tx in n.txs && n.txs[tx].query.k1 in n.server.tables.challenges
    requires !Decide(cfg, n.server.tables, n.txs[tx].query, newId).Refused?
    ensures var m := End(cfg, n, tx, newId);
            && |m.past.successes| == |n.past.successes| + 1
            && m.past.successes[..|n.past.successes|] == n.past.successes
            && m.pending == n.pending + [Event(n.txs[tx].query.k1, m.past.successes[|n.past.successes|].user)]
            && m.server.pages == n.server.pages && m.server.sessions == n.server.sessions
            && m.server.storage == n.server.storage
            && m.past.shown == n.past.shown && m.past.origin == n.past.origin && m.past.logins == n.past.logins
  {
  }

  lemma {:induction false} AppendedSuccessExtends(n: Net, m: Net)
    requires SameFlow(n, m) && |m.past.successes| == |n.past.successes| + 1
    requires m.past.successes[..|n.past.successes|] == n.past.successes
    ensures Extends(n, m)
  {
    forall i | 0 <= i < |n.past.successes| ensures m.past.successes[i] == n.past.successes[i] {
      assert m.past.successes[i] == m.past.successes[..|n.past.successes|][i];
    }
  }

  // Everything users flow through stays, events and accounts apart.
  ghost predicate SameFlow(n: Net, m: Net) {
    && m.server.pages == n.server.pages && m.server.sessions == n.server.sessions
    && m.server.storage == n.server.storage
    && m.past.shown == n.past.shown && m.past.origin == n.past.origin && m.past.logins == n.past.logins
    && Forward(n.server.tables.challenges, m.server.tables.challenges)
  }

  // The event of a success, and why its user is witnessed if a page can show it.
  lemma {:induction false} SuccessEventIsSound(cfg: Settings, n: Net, tx: nat, newId: UserId)
    requires CallbackInv(cfg, n) && PagesSound(n) && tx in n.txs && n.txs[tx].query.k1 in n.server.tables.challenges
    requires !Decide(cfg, n.server.tables, n.txs[tx].query, newId).Refused?
    ensures var m := End(cfg, n, tx, newId); |m.pending| > |n.pending| && EventSound(m, m.pending[|n.pending|])
  {
    var m := End(cfg, n, tx, newId);
    SuccessExtends(cfg, n, tx, newId);
    NewSuccessIsSound(cfg, n, tx, newId);
    NewSuccessIsWitness(cfg, n, m, m.pending[|n.pending|]);
  }

  lemma {:induction false} NewSuccessIsWitness(cfg: Settings, n: Net, m: Net, e: Event)
    requires PagesSound(n) && SameFlow(n, m) && |m.past.successes| > |n.past.successes|
    requires var s := m.past.successes[|n.past.successes|];
             SuccessSound(cfg, m.server.tables.challenges, m.clock, s) && e == Event(s.query.k1, s.user)
    ensures EventSound(m, e)
  {
    var s := m.past.successes[|n.past.successes|];
    if e.k1 in m.past.shown {
      assert LoginAction(s.action);
      assert IsWitness(s, e.k1, e.user.value);
    }
  }

  lemma {:induction false} AppendedEventKeepsFlow(n: Net, m: Net)
    requires EventsSound(n) && StorageSound(n) && LoginsSound(n) && OnePlace(n) && Extends(n, m)
    requires m.past.shown == n.past.shown && m.past.origin == n.past.origin && m.past.logins == n.past.logins
    requires m.server.storage == n.server.storage
    requires |m.pending| == |n.pending| + 1 && m.pending[..|n.pending|] == n.pending
    requires var k := m.pending[|n.pending|].k1; !Waiting(n, k) && !Kept(n, k) && !Spent(n, k)
    requires EventSound(m, m.pending[|n.pending|])
    ensures EventsSound(m) && StorageSound(m) && LoginsSound(m) && OnePlace(m)
  {
    var last := |n.pending|;
    var k1 := m.pending[last].k1;
    StorageExtends(n, m);
    LoginsExtend(n, m);
    forall i | 0 <= i < last
      ensures m.pending[i] == n.pending[i] && EventSound(m, m.pending[i])
              && (m.pending[i].k1 == m.pending[last].k1 ==> m.pending[i].k1 !in m.past.shown) {
      assert m.pending[i] == m.pending[..last][i];
      EventExtends(n, m, n.pending[i]);
      assert n.pending[i].k1 == k1 && k1 in n.past.shown ==> Waiting(n, k1);
    }
    assert forall k :: Kept(m, k) <==> Kept(n, k);
    assert forall k :: Spent(m, k) <==> Spent(n, k);
    forall k ensures Waiting(m, k) ==> Waiting(n, k) || k == m.pending[last].k1 {
      if Waiting(m, k) && k != m.pending[last].k1 {
        var i :| 0 <= i < |m.pending| && m.pending[i].k1 == k;
        assert n.pending[i].k1 == k;
      }
    }
  }

  lemma {:induction false} NewEventKeepsFlow(n: Net, m: Net)
    requires FlowInv(n) && Extends(n, m) && SameFlow(n, m)
    requires |m.pending| == |n.pending| + 1 && m.pending[..|n.pending|] == n.pending
    requires var k := m.pending[|n.pending|].k1; !Waiting(n, k) && !Kept(n, k) && !Spent(n, k)
    requires EventSound(m, m.pending[|n.pending|])
    ensures FlowInv(m)
  {
    AppendedEventKeepsFlow(n, m);
    PagesStay(n, m);
    SessionsStay(n, m);
  }

  lemma {:induction false} SuccessKeepsFlow(cfg: Settings, n: Net, tx: nat, newId: UserId)
    requires CallbackInv(cfg, n) && FlowInv(n) && tx in n.txs && n.txs[tx].query.k1 in n.server.tables.challenges
    requires !Decide(cfg, n.server.tables, n.txs[tx].query, newId).Refused?
    ensures FlowInv(End(cfg, n, tx, newId))
  {
    SuccessExtends(cfg, n, tx, newId);
    SuccessEventIsSound(cfg, n, tx, newId);
    FreshOnTheWay(cfg, n, tx);
    NewEventKeepsFlow(n, End(cfg, n, tx, newId));
  }

  lemma {:induction false} FinishKeepsFlow(cfg: Settings, n: Net, tx: nat, newId: UserId)
    requires CallbackInv(cfg, n) && FlowInv(n)
    ensures FlowInv(End(cfg, n, tx, newId))
  {
    if tx in n.txs {
      assert TxSound(cfg, n, tx);
      if Decide(cfg, n.server.tables, n.txs[tx].query, newId).Refused? {
        QuietKeepsFlow(n, End(cfg, n, tx, newId));
      } else {
        SuccessKeepsFlow(cfg, n, tx, newId);
      }
    }
  }

  // Only the page that was last refreshed with this challenge can show it.
  lemma {:induction false} ShownAlone(n: Net, k1: K1, x: Nonce)
    requires PagesSound(n) && x in NoncesShowing(n.server.pages, k1)
    ensures ShownBy(n, k1, x)
    ensures NoncesShowing(n.server.pages, k1) == {x}
  {
    var p :| p in n.server.pages && n.server.pages[p].k1 == Some(k1) && n.server.pages[p].nonce == x;
    forall y | y in NoncesShowing(n.server.pages, k1) ensures y == x {
      var q :| q in n.server.pages && n.server.pages[q].k1 == Some(k1) && n.server.pages[q].nonce == y;
      assert n.past.shown[k1] == q == p;
    }
  }

  lemma {:induction false} HandleKeepsStorage(n: Net, index: nat)
    requires PagesSound(n) && EventsSound(n) && StorageSound(n) && index < |n.pending|
    ensures StorageSound(HandleStep(n, index))
  {
    var m := HandleStep(n, index);
    var e := n.pending[index];
    assert EventSound(n, e);
    forall x | x in m.past.origin ensures StoredSound(m, x) {
      if x in NoncesShowing(n.server.pages, e.k1) {
        ShownAlone(n, e.k1, x);
      } else {
        assert StoredSound(n, x);
      }
    }
  }

  lemma {:induction false} HandleKeepsEvents(n: Net, index: nat)
    requires EventsSound(n) && index < |n.pending|
    ensures EventsSound(HandleStep(n, index))
    ensures forall k :: Waiting(HandleStep(n, index), k) ==> Waiting(n, k) && k != n.pending[index].k1
  {
    var m := HandleStep(n, index);
    forall i | 0 <= i < |m.pending|
      ensures EventSound(m, m.pending[i]) && m.pending[i] == n.pending[if i < index then i else i + 1] {
      assert EventSound(n, n.pending[if i < index then i else i + 1]);
    }
    forall k | Waiting(m, k) ensures Waiting(n, k) && k != n.pending[index].k1 {
      var i :| 0 <= i < |m.pending| && m.pending[i].k1 == k;
      var j := if i < index then i else i + 1;
      assert n.pending[j].k1 == k;
    }
  }

  lemma {:induction false} HandleKeepsFlow(n: Net, index: nat)
    requires FlowInv(n)
    ensures FlowInv(HandleStep(n, index))
  {
    var m := HandleStep(n, index);
    if index < |n.pending| {
      assert Extends(n, m);
      HandleKeepsStorage(n, index);
      HandleKeepsEvents(n, index);
      LoginsExtend(n, m);
      PagesStay(n, m);
      SessionsStay(n, m);
      HandleKeepsPlaces(n, index);
    }
  }

  lemma {:induction false} HandleKeepsPlaces(n: Net, index: nat)
    requires PagesSound(n) && OnePlace(n) && EventsSound(n) && index < |n.pending|
    ensures OnePlace(HandleStep(n, index))
  {
    var m := HandleStep(n, index);
    var e := n.pending[index];
    HandleKeepsEvents(n, index);
    forall k ensures Kept(m, k) ==> Kept(n, k) || (k == e.k1 && Waiting(n, k)) {
      if Kept(m, k) {
        var x :| x in m.past.origin && m.past.origin[x] == k;
        if x in NoncesShowing(n.server.pages, e.k1) {
          ShownAlone(n, e.k1, x);
          assert n.pending[index].k1 == k;
        } else {
          assert n.past.origin[x] == k;
        }
      }
    }
    assert forall k :: Spent(m, k) <==> Spent(n, k);
  }

  // What a redirect records is what was stored for the nonce of its session.
  lemma {:induction false} RedirectEntryIsSound(n: Net, sid: SessionId)
    requires PagesSound(n) && SessionsSound(n) && StorageSound(n) && Stored(n.server, sid).Some?
    ensures var nonce := SessionOf(n.server, sid).nonce.value;
            && nonce in n.past.origin
            && EntrySound(n, Entry(sid, nonce, Stored(n.server, sid).value, n.past.origin[nonce]))
            && RedirectStep(n, sid).past.logins ==
               n.past.logins + [Entry(sid, nonce, Stored(n.server, sid).value, n.past.origin[nonce])]
  {
    var nonce := SessionOf(n.server, sid).nonce.value;
    assert StoredSound(n, nonce);
    assert NonceOwned(n, sid, nonce);
    var p :| p in n.server.pages && n.server.pages[p].nonce == nonce && n.server.pages[p].session == sid;
    assert p == n.past.shown[n.past.origin[nonce]];
  }

  lemma {:induction false} RedirectKeepsStorage(n: Net, sid: SessionId)
    requires StorageSound(n)
    ensures StorageSound(RedirectStep(n, sid))
  {
    var m := RedirectStep(n, sid);
    forall x | x in m.past.origin ensures StoredSound(m, x) {
      assert StoredSound(n, x);
    }
  }

  lemma {:induction false} RedirectKeepsLogins(n: Net, sid: SessionId)
    requires PagesSound(n) && SessionsSound(n) && StorageSound(n) && LoginsSound(n) && OnePlace(n)
    ensures LoginsSound(RedirectStep(n, sid))
  {
    var m := RedirectStep(n, sid);
    assert Extends(n, m);
    if Stored(n.server, sid).Some? {
      RedirectEntryIsSound(n, sid);
      var nonce := SessionOf(n.server, sid).nonce.value;
      assert Kept(n, n.past.origin[nonce]);
      LoginAppended(n, m, Entry(sid, nonce, Stored(n.server, sid).value, n.past.origin[nonce]));
    } else {
      LoginsExtend(n, m);
    }
  }

  lemma {:induction false} LoginAppended(n: Net, m: Net, e: Entry)
    requires LoginsSound(n) && Extends(n, m) && m.past.logins == n.past.logins + [e]
    requires EntrySound(n, e) && !Spent(n, e.k1)
    ensures LoginsSound(m)
  {
    forall i | 0 <= i < |m.past.logins| ensures EntrySound(m, m.past.logins[i]) {
      EntryExtends(n, m, m.past.logins[i]);
    }
    assert forall i :: 0 <= i < |n.past.logins| ==> (n.past.logins[i].k1 == e.k1 ==> Spent(n, e.k1));
  }

  lemma {:induction false} RedirectKeepsPlaces(n: Net, sid: SessionId)
    requires PagesSound(n) && StorageSound(n) && OnePlace(n)
    ensures OnePlace(RedirectStep(n, sid))
  {
    var m := RedirectStep(n, sid);
    assert forall k :: Waiting(m, k) <==> Waiting(n, k);
    forall k ensures Kept(m, k) ==> Kept(n, k) && !Delivers(n, sid, k) {
      if Kept(m, k) {
        var x :| x in m.past.origin && m.past.origin[x] == k;
        assert n.past.origin[x] == k;
        assert StoredSound(n, x);
        if Stored(n.server, sid).Some? { assert StoredSound(n, SessionOf(n.server, sid).nonce.value); }
      }
    }
    forall k ensures Spent(m, k) ==> Spent(n, k) || (Delivers(n, sid, k) && Kept(n, k)) {
      if Spent(m, k) && !Spent(n, k) {
        var i :| 0 <= i < |m.past.logins| && m.past.logins[i].k1 == k;
        assert i == |n.past.logins|;
        assert n.past.origin[SessionOf(n.server, sid).nonce.value] == k;
      }
    }
  }

  // The redirect of this session would deliver the user stored for this challenge.
  predicate Delivers(n: Net, sid: SessionId, k1: K1) {
    var nonce := SessionOf(n.server, sid).nonce;
    Stored(n.server, sid).Some? && nonce.value in n.past.origin && n.past.origin[nonce.value] == k1
  }

  lemma {:induction false} RedirectKeepsFlow(n: Net, sid: SessionId)
    requires FlowInv(n)
    ensures FlowInv(RedirectStep(n, sid))
  {
    var m := RedirectStep(n, sid);
    assert Extends(n, m);
    EventsExtend(n, m);
    RedirectKeepsStorage(n, sid);
    RedirectKeepsLogins(n, sid);
    RedirectKeepsPlaces(n, sid);
    PagesStay(n, m);
    SessionsStay(n, m);
  }

  predicate TouchesAccounts(step: Step) {
    step.PostLogin? || step.PostRegister? || step.NewPassword? || step.UnlinkKey? || step.LeaveSession?
  }

  predicate TouchesChallenges(step: Step) {
    step.NewLink? || step.NewAuth? || step.Arrive? || step.Claim? || step.Abort? || step.Tick?
  }

  lemma {:induction false} AccountStepKeepsFlow(cfg: Settings, n: Net, step: Step)
    requires FlowInv(n) && TouchesAccounts(step)
    ensures FlowInv(Next(cfg, n, step))
  {
    AccountStepIsQuiet(cfg, n, step);
    QuietKeepsFlow(n, Next(cfg, n, step));
  }

  lemma {:induction false} AccountStepIsQuiet(cfg: Settings, n: Net, step: Step)
    requires TouchesAccounts(step)
    ensures var m := Next(cfg, n, step);
            && m.server.pages == n.server.pages && m.server.storage == n.server.storage
            && m.past == n.past && m.pending == n.pending
            && m.server.tables.challenges == n.server.tables.challenges
            && forall sid :: sid in m.server.sessions && m.server.sessions[sid].nonce.Some? ==>
                 sid in n.server.sessions && m.server.sessions[sid].nonce == n.server.sessions[sid].nonce
  {
  }

  lemma {:induction false} ChallengeStepKeepsFlow(cfg: Settings, n: Net, step: Step)
    requires FlowInv(n) && TouchesChallenges(step)
    ensures FlowInv(Next(cfg, n, step))
  {
    QuietKeepsFlow(n, Next(cfg, n, step));
  }

  lemma {:induction false} StepKeepsFlow(cfg: Settings, n: Net, step: Step)
    requires CallbackInv(cfg, n) && FlowInv(n)
    ensures FlowInv(Next(cfg, n, step))
  {
    match step
    case Open(sid, page, nonce, registering) => OpenKeepsFlow(n, sid, page, nonce, registering);
    case Refresh(page, k1) => RefreshKeepsFlow(n, page, k1);
    case Finish(tx, newId) => FinishKeepsFlow(cfg, n, tx, newId);
    case Handle(index) => HandleKeepsFlow(n, index);
    case FollowRedirect(sid) => RedirectKeepsFlow(n, sid);
    case _ =>
      if TouchesAccounts(step) {
        AccountStepKeepsFlow(cfg, n, step);
      } else {
        ChallengeStepKeepsFlow(cfg, n, step);
      }
  }

  lemma {:induction false} RunKeepsFlow(cfg: Settings, users: seq<User>, steps: seq<Step>)
    requires Accounts(users)
    ensures CallbackInv(cfg, Run(cfg, Start(users), steps)) && FlowInv(Run(cfg, Start(users), steps))
    decreases |steps|
  {
    RunKeepsCallbacks(cfg, Start(users), steps);
    if |steps| == 0 {
    } else {
      RunKeepsFlow(cfg, users, steps[..|steps| - 1]);
      StepKeepsFlow(cfg, Run(cfg, Start(users), steps[..|steps| - 1]), steps[|steps| - 1]);
    }
  }

  // ---------------------------------------------------------------- main results

  // The success a login entry goes back to: same challenge, same user, a valid signature by the
  // key that belonged to that user, and a challenge shown by the page rendered for this session.
  ghost predicate Agrees(cfg: Settings, n: Net, e: Entry, s: Success) {
    && s.query.k1 == e.k1 && s.user == Some(e.user) && LoginAction(s.action)
    && cfg.verify(e.k1, s.query.key, s.query.sig) && s.owner == Some(e.user)
    && ShownBy(n, e.k1, e.nonce)
    && n.server.pages[n.past.shown[e.k1]].session == e.session
  }

  ghost predicate Traceable(cfg: Settings, n: Net, e: Entry) {
    exists i :: 0 <= i < |n.past.successes| && Agrees(cfg, n, e, n.past.successes[i])
  }

  lemma {:induction false} EntriesAgree(cfg: Settings, n: Net, e: Entry)
    requires CallbackInv(cfg, n) && EntrySound(n, e)
    ensures Traceable(cfg, n, e)
  {
    var i :| 0 <= i < |n.past.successes| && IsWitness(n.past.successes[i], e.k1, e.user);
    assert SuccessSound(cfg, n.server.tables.challenges, n.clock, n.past.successes[i]);
    assert Agrees(cfg, n, e, n.past.successes[i]);
  }

  // In every run: every entry of a user into a session agrees with a successful login or register
  // callback, and no two entries go back to the same challenge.
  lemma {:induction false} Agreement(cfg: Settings, users: seq<User>, steps: seq<Step>)
    requires Accounts(users)
    ensures var n := Run(cfg, Start(users), steps);
            && (forall i :: 0 <= i < |n.past.logins| ==> Traceable(cfg, n, n.past.logins[i]))
            && (forall i, j :: 0 <= i < j < |n.past.logins| ==> n.past.logins[i].k1 != n.past.logins[j].k1)
  {
    RunKeepsFlow(cfg, users, steps);
    var n := Run(cfg, Start(users), steps);
    forall i | 0 <= i < |n.past.logins| ensures Traceable(cfg, n, n.past.logins[i]) {
      EntriesAgree(cfg, n, n.past.logins[i]);
    }
  }

  // What a redirect does to the user of its session, if anything, is one traceable entry of this
  // session under its own nonce.
  ghost predicate ChangeIsEntry(cfg: Settings, n: Net, m: Net, sid: SessionId) {
    SessionOf(m.server, sid).user != SessionOf(n.server, sid).user ==>
      && SessionOf(n.server, sid).nonce.Some?
      && |m.past.logins| == |n.past.logins| + 1
      && var e := m.past.logins[|n.past.logins|];
         && e.session == sid && Some(e.nonce) == SessionOf(n.server, sid).nonce
         && Some(e.user) == SessionOf(m.server, sid).user
         && Traceable(cfg, n, e)
  }

  lemma {:induction false} RedirectRecordsItsChange(cfg: Settings, n: Net, sid: SessionId)
    requires CallbackInv(cfg, n) && FlowInv(n)
    ensures ChangeIsEntry(cfg, n, RedirectStep(n, sid), sid)
  {
    if Stored(n.server, sid).Some? {
      RedirectEntryIsSound(n, sid);
      var nonce := SessionOf(n.server, sid).nonce.value;
      EntriesAgree(cfg, n, Entry(sid, nonce, Stored(n.server, sid).value, n.past.origin[nonce]));
    }
  }

  lemma {:induction false} RedirectIsItsStep(cfg: Settings, n: Net, sid: SessionId)
    ensures Next(cfg, n, FollowRedirect(sid)) == RedirectStep(n, sid)
  {
  }

  // Nothing else logs a session in at the redirect.
  lemma {:induction false} RedirectChangesAreEntries(cfg: Settings, users: seq<User>, steps: seq<Step>, sid: SessionId)
    requires Accounts(users)
    ensures var n := Run(cfg, Start(users), steps);
            ChangeIsEntry(cfg, n, Next(cfg, n, FollowRedirect(sid)), sid)
  {
    var n := Run(cfg, Start(users), steps);
    RunKeepsFlow(cfg, users, steps);
    RedirectRecordsItsChange(cfg, n, sid);
    RedirectIsItsStep(cfg, n, sid);
  }

  // ---------------------------------------------------------------- where every logged-in user came from

  // The step that puts this user into this session: a redirect with a traceable entry, an accepted
  // password form under the session's nonce, or a registration.
  ghost predicate Enters(cfg: Settings, n: Net, step: Step, sid: SessionId, user: UserId) {
    match step
    case FollowRedirect(s) =>
      var m := RedirectStep(n, sid);
      && s == sid && SessionOf(m.server, sid).user == Some(user)
      && SessionOf(m.server, sid).user != SessionOf(n.server, sid).user
      && ChangeIsEntry(cfg, n, m, sid)
    case PostLogin(s, formNonce, account) =>
      s == sid && account == Some(user) && formNonce.Some? && formNonce == SessionOf(n.server, sid).nonce
    case PostRegister(s, newId, _) =>
      s == sid && newId == user && !IdTaken(n.server.tables.users, user)
    case _ => false
  }

  predicate InSession(cfg: Settings, users: seq<User>, steps: seq<Step>, sid: SessionId, user: UserId) {
    SessionOf(Run(cfg, Start(users), steps).server, sid).user == Some(user)
  }

  // Step i of the run put the user into the session, and the user has been there ever since.
  ghost predicate EnteredAt(cfg: Settings, users: seq<User>, steps: seq<Step>, i: nat, sid: SessionId, user: UserId)
    requires i < |steps|
  {
    && Enters(cfg, Run(cfg, Start(users), steps[..i]), steps[i], sid, user)
    && forall j :: i < j <= |steps| ==> InSession(cfg, users, steps[..j], sid, user)
  }

  lemma {:induction false} OtherStepsEnterNobody(cfg: Settings, n: Net, step: Step, sid: SessionId)
    requires !step.FollowRedirect? && !step.PostLogin? && !step.PostRegister?
    ensures SessionOf(Next(cfg, n, step).server, sid).user in {None, SessionOf(n.server, sid).user}
  {
  }

  lemma {:induction false} ChangeEnters(cfg: Settings, n: Net, step: Step, sid: SessionId, user: UserId)
    requires CallbackInv(cfg, n) && FlowInv(n)
    requires SessionOf(Next(cfg, n, step).server, sid).user == Some(user) != SessionOf(n.server, sid).user
    ensures Enters(cfg, n, step, sid, user)
  {
    match step
    case FollowRedirect(s) => RedirectRecordsItsChange(cfg, n, sid);
    case PostLogin(s, formNonce, account) =>
    case PostRegister(s, newId, _) => assert FindById(n.server.tables.users, newId).None?;
    case _ => OtherStepsEnterNobody(cfg, n, step, sid);
  }

  // The other direction: each of these steps does put its user into the session.
  lemma {:induction false} EnteringWorks(cfg: Settings, n: Net, step: Step, sid: SessionId, user: UserId)
    requires Enters(cfg, n, step, sid, user)
    ensures SessionOf(Next(cfg, n, step).server, sid).user == Some(user)
  {
    match step
    case PostRegister(s, newId, _) => assert FindById(n.server.tables.users, newId).None?;
    case _ =>
  }

  // In every reachable state, whoever is in a session was put there by a traceable login or
  // register callback, by an accepted password form of that session, or by registering in it,
  // and has been in it since that step.
  lemma {:induction false} SessionUsersAreTraceable(
    cfg: Settings, users: seq<User>, steps: seq<Step>, sid: SessionId, user: UserId)
    requires Accounts(users) && InSession(cfg, users, steps, sid, user)
    ensures exists i :: 0 <= i < |steps| && EnteredAt(cfg, users, steps, i, sid, user)
    decreases |steps|
  {
    if |steps| == 0 {
      assert false;
    } else {
      var past := steps[..|steps| - 1];
      if InSession(cfg, users, past, sid, user) {
        SessionUsersAreTraceable(cfg, users, past, sid, user);
        var i :| 0 <= i < |past| && EnteredAt(cfg, users, past, i, sid, user);
        StillEntered(cfg, users, steps, i, sid, user);
      } else {
        EnteredLast(cfg, users, steps, sid, user);
      }
    }
  }

  lemma {:induction false} EnteredLast(
    cfg: Settings, users: seq<User>, steps: seq<Step>, sid: SessionId, user: UserId)
    requires Accounts(users) && |steps| > 0 && InSession(cfg, users, steps, sid, user)
    requires !InSession(cfg, users, steps[..|steps| - 1], sid, user)
    ensures EnteredAt(cfg, users, steps, |steps| - 1, sid, user)
  {
    var k := |steps| - 1;
    var n := Run(cfg, Start(users), steps[..k]);
    assert Enters(cfg, n, steps[k], sid, user) by {
      RunKeepsFlow(cfg, users, steps[..k]);
      ChangeEnters(cfg, n, steps[k], sid, user);
    }
    assert steps[..|steps|] == steps;
  }

  lemma {:induction false} StillEntered(
    cfg: Settings, users: seq<User>, steps: seq<Step>, i: nat, sid: SessionId, user: UserId)
    requires i < |steps| - 1 && EnteredAt(cfg, users, steps[..|steps| - 1], i, sid, user)
    requires InSession(cfg, users, steps, sid, user)
    ensures EnteredAt(cfg, users, steps, i, sid, user)
  {
    var past := steps[..|steps| - 1];
    assert past[..i] == steps[..i];
    forall j | i < j <= |steps| ensures InSession(cfg, users, steps[..j], sid, user) {
      if j == |steps| {
        assert steps[..j] == steps;
      } else {
        assert steps[..j] == past[..j];
      }
    }
  }

  // ---------------------------------------------------------------- one page for each challenge

  // What was shown stays shown by the same page, and a page keeps its nonce and session.
  ghost predicate PagesRemembered(n: Net, m: Net) {
    && (forall k :: k in n.past.shown ==> k in m.past.shown && m.past.shown[k] == n.past.shown[k])
    && (forall p :: p in n.server.pages ==>
          && p in m.server.pages
          && m.server.pages[p].nonce == n.server.pages[p].nonce
          && m.server.pages[p].session == n.server.pages[p].session)
  }

  lemma {:induction false} StepRemembersPages(cfg: Settings, n: Net, step: Step)
    requires PagesSound(n)
    ensures PagesRemembered(n, Next(cfg, n, step))
  {
    match step
    case Open(sid, page, nonce, registering) => assert PagesRemembered(n, OpenStep(n, sid, page, nonce, registering));
    case Refresh(page, k1) => assert PagesRemembered(n, RefreshStep(n, page, k1));
    case _ => OtherStepsKeepPages(cfg, n, step);
  }

  lemma {:induction false} OtherStepsKeepPages(cfg: Settings, n: Net, step: Step)
    requires !step.Open? && !step.Refresh?
    ensures var m := Next(cfg, n, step); m.server.pages == n.server.pages && m.past.shown == n.past.shown
  {
    if step.Finish? { EndKeepsPages(cfg, n, step.tx, step.newId); }
  }

  lemma {:induction false} EndKeepsPages(cfg: Settings, n: Net, tx: nat, newId: UserId)
    ensures var m := End(cfg, n, tx, newId); m.server.pages == n.server.pages && m.past.shown == n.past.shown
  {
  }

  lemma {:induction false} RunRemembersPages(cfg: Settings, users: seq<User>, past: seq<Step>, future: seq<Step>)
    requires Accounts(users)
    ensures PagesRemembered(Run(cfg, Start(users), past), Run(cfg, Start(users), past + future))
    decreases |future|
  {
    if |future| == 0 {
      assert past + future == past;
    } else {
      var k := |future| - 1;
      var before := past + future[..k];
      var mid := Run(cfg, Start(users), before);
      RunRemembersPages(cfg, users, past, future[..k]);
      RunKeepsFlow(cfg, users, before);
      StepRemembersPages(cfg, mid, future[k]);
      RunSnoc(cfg, Start(users), before, future[k]);
      assert past + future == before + [future[k]];
      StillRemembered(Run(cfg, Start(users), past), mid, Run(cfg, Start(users), past + future));
    }
  }

  lemma {:induction false} StillRemembered(a: Net, b: Net, c: Net)
    requires PagesRemembered(a, b) && PagesRemembered(b, c)
    ensures PagesRemembered(a, c)
  {
  }

  predicate Shows(n: Net, page: PageId, k1: K1) {
    page in n.server.pages && n.server.pages[page].k1 == Some(k1)
  }

  // Over all time at most one page shows a challenge, always under the same nonce and for the same
  // session, and so an event is stored under at most one nonce.
  lemma {:induction false} OnePageShows(
    cfg: Settings, users: seq<User>, past: seq<Step>, future: seq<Step>, k1: K1, page: PageId, later: PageId)
    requires Accounts(users)
    requires Shows(Run(cfg, Start(users), past), page, k1) && Shows(Run(cfg, Start(users), past + future), later, k1)
    ensures var n, m := Run(cfg, Start(users), past), Run(cfg, Start(users), past + future);
            && later == page
            && m.server.pages[page].nonce == n.server.pages[page].nonce
            && m.server.pages[page].session == n.server.pages[page].session
            && NoncesShowing(m.server.pages, k1) == {n.server.pages[page].nonce}
  {
    RunKeepsFlow(cfg, users, past);
    RunKeepsFlow(cfg, users, past + future);
    RunRemembersPages(cfg, users, past, future);
    var m := Run(cfg, Start(users), past + future);
    assert m.server.pages[later].nonce in NoncesShowing(m.server.pages, k1);
    ShownAlone(m, k1, m.server.pages[later].nonce);
  }

  // ---------------------------------------------------------------- an allowed callback logs its session in

  // The session holds the nonce of this page, and the page shows this challenge.
  predicate InHand(n: Net, sid: SessionId, page: PageId, k1: K1) {
    Shows(n, page, k1) && SessionOf(n.server, sid).nonce == Some(n.server.pages[page].nonce)
  }

  // Steps that leave this session's nonce and this page's challenge alone.
  predicate LeavesAlone(step: Step, sid: SessionId, page: PageId) {
    match step
    case Open(s, _, _, _) => s != sid
    case Refresh(p, _) => p != page
    case FollowRedirect(s) => s != sid
    case PostLogin(s, _, _) => s != sid
    case LeaveSession(s) => s != sid
    case _ => true
  }

  ghost predicate EventWaits(n: Net, k1: K1, user: UserId) {
    exists i :: 0 <= i < |n.pending| && n.pending[i] == Event(k1, Some(user))
  }

  predicate UserStored(n: Net, nonce: Nonce, k1: K1, user: UserId) {
    && nonce in n.server.storage && n.server.storage[nonce] == Some(user)
    && nonce in n.past.origin && n.past.origin[nonce] == k1
  }

  ghost predicate OnTheWay(n: Net, sid: SessionId, page: PageId, k1: K1, user: UserId) {
    && InHand(n, sid, page, k1)
    && (EventWaits(n, k1, user) || UserStored(n, n.server.pages[page].nonce, k1, user))
  }

  lemma {:induction false} InHandStays(cfg: Settings, n: Net, step: Step, sid: SessionId, page: PageId, k1: K1)
    requires InHand(n, sid, page, k1) && LeavesAlone(step, sid, page)
    ensures InHand(Next(cfg, n, step), sid, page, k1)
    ensures Next(cfg, n, step).server.pages[page].nonce == n.server.pages[page].nonce
  {
    if step.Finish? { EndKeepsPages(cfg, n, step.tx, step.newId); }
  }

  // Handling the event itself stores its user ...
  lemma {:induction false} OwnEventIsStored(n: Net, index: nat, sid: SessionId, page: PageId, k1: K1, user: UserId)
    requires InHand(n, sid, page, k1) && index < |n.pending| && n.pending[index] == Event(k1, Some(user))
    ensures UserStored(HandleStep(n, index), n.server.pages[page].nonce, k1, user)
  {
    assert n.server.pages[page].nonce in NoncesShowing(n.server.pages, k1);
  }

  // ... handling another one does not lose it ...
  lemma {:induction false} OtherEventWaitsOn(n: Net, index: nat, k1: K1, user: UserId)
    requires index < |n.pending| && n.pending[index] != Event(k1, Some(user)) && EventWaits(n, k1, user)
    ensures EventWaits(HandleStep(n, index), k1, user)
  {
    var m := HandleStep(n, index);
    var i :| 0 <= i < |n.pending| && n.pending[i] == Event(k1, Some(user));
    assert m.pending[if i < index then i else i - 1] == n.pending[i];
  }

  // ... nor, once it has been stored, replace it.
  lemma {:induction false} StoredUserStays(
    n: Net, index: nat, sid: SessionId, page: PageId, k1: K1, user: UserId)
    requires PagesSound(n) && OnePlace(n) && InHand(n, sid, page, k1) && index < |n.pending|
    requires UserStored(n, n.server.pages[page].nonce, k1, user)
    ensures UserStored(HandleStep(n, index), n.server.pages[page].nonce, k1, user)
  {
    var e, nonce := n.pending[index], n.server.pages[page].nonce;
    assert Kept(n, k1);
    assert e.k1 == k1 ==> Waiting(n, k1);
    assert nonce !in NoncesShowing(n.server.pages, e.k1);
  }

  lemma {:induction false} HandleKeepsGoing(n: Net, index: nat, sid: SessionId, page: PageId, k1: K1, user: UserId)
    requires FlowInv(n) && OnTheWay(n, sid, page, k1, user) && index < |n.pending|
    ensures var m := HandleStep(n, index);
            EventWaits(m, k1, user) || UserStored(m, n.server.pages[page].nonce, k1, user)
  {
    if n.pending[index] == Event(k1, Some(user)) {
      OwnEventIsStored(n, index, sid, page, k1, user);
    } else if EventWaits(n, k1, user) {
      OtherEventWaitsOn(n, index, k1, user);
    } else {
      StoredUserStays(n, index, sid, page, k1, user);
    }
  }

  lemma {:induction false} OtherRedirectsKeepStored(
    n: Net, other: SessionId, sid: SessionId, page: PageId, k1: K1, user: UserId)
    requires FlowInv(n) && InHand(n, sid, page, k1) && UserStored(n, n.server.pages[page].nonce, k1, user)
    requires other != sid
    ensures UserStored(RedirectStep(n, other), n.server.pages[page].nonce, k1, user)
  {
    var mine, theirs := SessionOf(n.server, sid).nonce, SessionOf(n.server, other).nonce;
    assert NonceOwned(n, sid, mine.value);
    if theirs.Some? { assert NonceOwned(n, other, theirs.value); }
  }

  lemma {:induction false} EventsStay(cfg: Settings, n: Net, step: Step, k1: K1, user: UserId)
    requires EventWaits(n, k1, user) && !step.Handle?
    ensures EventWaits(Next(cfg, n, step), k1, user)
  {
    var i :| 0 <= i < |n.pending| && n.pending[i] == Event(k1, Some(user));
    PendingOnlyGrows(cfg, n, step);
    assert Next(cfg, n, step).pending[i] == n.pending[i];
  }

  lemma {:induction false} PendingOnlyGrows(cfg: Settings, n: Net, step: Step)
    requires !step.Handle?
    ensures |n.pending| <= |Next(cfg, n, step).pending|
    ensures forall i :: 0 <= i < |n.pending| ==> Next(cfg, n, step).pending[i] == n.pending[i]
  {
  }

  lemma {:induction false} StoreStays(cfg: Settings, n: Net, step: Step)
    requires !step.Handle? && !step.FollowRedirect?
    ensures Next(cfg, n, step).server.storage == n.server.storage && Next(cfg, n, step).past.origin == n.past.origin
  {
  }

  lemma {:induction false} StepKeepsGoing(
    cfg: Settings, n: Net, step: Step, sid: SessionId, page: PageId, k1: K1, user: UserId)
    requires FlowInv(n) && OnTheWay(n, sid, page, k1, user) && LeavesAlone(step, sid, page)
    ensures OnTheWay(Next(cfg, n, step), sid, page, k1, user)
  {
    InHandStays(cfg, n, step, sid, page, k1);
    match step
    case Handle(index) => if index < |n.pending| { HandleKeepsGoing(n, index, sid, page, k1, user); }
    case FollowRedirect(other) =>
      if EventWaits(n, k1, user) {
        EventsStay(cfg, n, step, k1, user);
      } else {
        OtherRedirectsKeepStored(n, other, sid, page, k1, user);
      }
    case _ =>
      if EventWaits(n, k1, user) {
        EventsStay(cfg, n, step, k1, user);
      } else {
        StoreStays(cfg, n, step);
      }
  }

  lemma {:induction false} RunKeepsGoing(
    cfg: Settings, users: seq<User>, past: seq<Step>, between: seq<Step>,
    sid: SessionId, page: PageId, k1: K1, user: UserId)
    requires Accounts(users) && OnTheWay(Run(cfg, Start(users), past), sid, page, k1, user)
    requires forall i :: 0 <= i < |between| ==> LeavesAlone(between[i], sid, page)
    ensures OnTheWay(Run(cfg, Start(users), past + between), sid, page, k1, user)
    decreases |between|
  {
    if |between| == 0 {
      assert past + between == past;
    } else {
      var k := |between| - 1;
      var before := past + between[..k];
      var n := Run(cfg, Start(users), before);
      assert OnTheWay(n, sid, page, k1, user) by {
        RunKeepsGoing(cfg, users, past, between[..k], sid, page, k1, user);
      }
      assert Run(cfg, Start(users), past + between) == Next(cfg, n, between[k]) by {
        RunSnoc(cfg, Start(users), before, between[k]);
        assert past + between == before + [between[k]];
      }
      RunKeepsFlow(cfg, users, before);
      StepKeepsGoing(cfg, n, between[k], sid, page, k1, user);
    }
  }

  // Once the event has been handled the redirect logs the user in; while it has not, handling it
  // and following the redirect does.
  ghost predicate LogsIn(cfg: Settings, n: Net, sid: SessionId, k1: K1, user: UserId) {
    && (!EventWaits(n, k1, user) ==>
          SessionOf(Next(cfg, n, FollowRedirect(sid)).server, sid).user == Some(user))
    && forall i :: 0 <= i < |n.pending| && n.pending[i] == Event(k1, Some(user)) ==>
         SessionOf(Next(cfg, Next(cfg, n, Handle(i)), FollowRedirect(sid)).server, sid).user == Some(user)
  }

  lemma {:induction false} RedirectEnters(
    cfg: Settings, n: Net, sid: SessionId, page: PageId, k1: K1, user: UserId)
    requires InHand(n, sid, page, k1) && UserStored(n, n.server.pages[page].nonce, k1, user)
    ensures SessionOf(Next(cfg, n, FollowRedirect(sid)).server, sid).user == Some(user)
  {
  }

  lemma {:induction false} OnTheWayLogsIn(
    cfg: Settings, n: Net, sid: SessionId, page: PageId, k1: K1, user: UserId)
    requires FlowInv(n) && OnTheWay(n, sid, page, k1, user)
    ensures LogsIn(cfg, n, sid, k1, user)
  {
    if !EventWaits(n, k1, user) { RedirectEnters(cfg, n, sid, page, k1, user); }
    forall i | 0 <= i < |n.pending| && n.pending[i] == Event(k1, Some(user))
      ensures SessionOf(Next(cfg, Next(cfg, n, Handle(i)), FollowRedirect(sid)).server, sid).user == Some(user) {
      OwnEventIsStored(n, i, sid, page, k1, user);
      InHandStays(cfg, n, Handle(i), sid, page, k1);
      RedirectEnters(cfg, Next(cfg, n, Handle(i)), sid, page, k1, user);
    }
  }

  // The end of an allowed callback puts the owner of the signing key on the way to the session.
  lemma {:induction false} SuccessSetsOut(
    cfg: Settings, n: Net, tx: nat, newId: UserId, sid: SessionId, page: PageId)
    requires CallbackInv(cfg, n) && tx in n.txs && n.txs[tx].query.k1 in n.server.tables.challenges
    requires Permitted(cfg, n.server.tables, n.txs[tx].query, newId) && InHand(n, sid, page, n.txs[tx].query.k1)
    ensures var q, m := n.txs[tx].query, Next(cfg, n, Finish(tx, newId));
            var owner := OwnerOf(m.server.tables.users, q.key);
            owner.Some? && OnTheWay(m, sid, page, q.k1, owner.value)
  {
    var q, m := n.txs[tx].query, Next(cfg, n, Finish(tx, newId));
    CommitsExactly(cfg, n.server.tables, q, newId);
    CommitLaw(cfg, n.server.tables, q, newId);
    InHandStays(cfg, n, Finish(tx, newId), sid, page, q.k1);
    assert m.pending[|n.pending|] == Event(q.k1, OwnerOf(m.server.tables.users, q.key));
  }

  // In every run: when a callback may commit on the challenge that a page shows under the nonce a
  // session holds, its end logs the owner of the signing key into that session, whatever else runs
  // before the event is handled and the redirect followed, as long as it leaves that session and
  // that page alone.
  lemma {:induction false} LoginCompletes(
    cfg: Settings, users: seq<User>, past: seq<Step>, tx: nat, newId: UserId, between: seq<Step>,
    sid: SessionId, page: PageId)
    requires Accounts(users)
    requires var n := Run(cfg, Start(users), past);
             && tx in n.txs && n.txs[tx].query.k1 in n.server.tables.challenges
             && Permitted(cfg, n.server.tables, n.txs[tx].query, newId)
             && InHand(n, sid, page, n.txs[tx].query.k1)
    requires forall i :: 0 <= i < |between| ==> LeavesAlone(between[i], sid, page)
    ensures var q := Run(cfg, Start(users), past).txs[tx].query;
            var ended := past + [Finish(tx, newId)];
            var owner := OwnerOf(Run(cfg, Start(users), ended).server.tables.users, q.key);
            owner.Some? && LogsIn(cfg, Run(cfg, Start(users), ended + between), sid, q.k1, owner.value)
  {
    var n := Run(cfg, Start(users), past);
    var q, ended := n.txs[tx].query, past + [Finish(tx, newId)];
    RunKeepsFlow(cfg, users, past);
    SuccessSetsOut(cfg, n, tx, newId, sid, page);
    RunSnoc(cfg, Start(users), past, Finish(tx, newId));
    var owner := OwnerOf(Run(cfg, Start(users), ended).server.tables.users, q.key);
    RunKeepsGoing(cfg, users, ended, between, sid, page, q.k1, owner.value);
    RunKeepsFlow(cfg, users, ended + between);
    OnTheWayLogsIn(cfg, Run(cfg, Start(users), ended + between), sid, page, q.k1, owner.value);
  }

  // ---------------------------------------------------------------- every recorded entry happened

  lemma {:induction false} StepRecordsEntry(cfg: Settings, n: Net, step: Step)
    ensures var m := Next(cfg, n, step);
            m.past.logins == n.past.logins ||
            (&& step.FollowRedirect? && |m.past.logins| == |n.past.logins| + 1
             && m.past.logins[..|n.past.logins|] == n.past.logins
             && var e := m.past.logins[|n.past.logins|];
                e.session == step.sid && SessionOf(m.server, e.session).user == Some(e.user))
  {
    if step.Finish? { EndKeepsLogins(cfg, n, step.tx, step.newId); }
  }

  lemma {:induction false} EndKeepsLogins(cfg: Settings, n: Net, tx: nat, newId: UserId)
    ensures End(cfg, n, tx, newId).past.logins == n.past.logins
  {
  }

  // Step j is the redirect that recorded entry i and put its user into its session.
  ghost predicate HappenedAt(cfg: Settings, users: seq<User>, steps: seq<Step>, i: nat, e: Entry, j: nat)
    requires j < |steps|
  {
    && steps[j] == FollowRedirect(e.session)
    && |Run(cfg, Start(users), steps[..j]).past.logins| == i
    && InSession(cfg, users, steps[..j + 1], e.session, e.user)
  }

  lemma {:induction false} StillHappened(
    cfg: Settings, users: seq<User>, steps: seq<Step>, i: nat, e: Entry, j: nat)
    requires j < |steps| - 1 && HappenedAt(cfg, users, steps[..|steps| - 1], i, e, j)
    ensures HappenedAt(cfg, users, steps, i, e, j)
  {
    assert steps[..|steps| - 1][..j] == steps[..j] && steps[..|steps| - 1][..j + 1] == steps[..j + 1];
  }

  // The last step records the entry that the runs before it did not have.
  lemma {:induction false} LastStepRecords(cfg: Settings, users: seq<User>, steps: seq<Step>, i: nat)
    requires |steps| > 0 && i < |Run(cfg, Start(users), steps).past.logins|
    ensures var before, m := Run(cfg, Start(users), steps[..|steps| - 1]), Run(cfg, Start(users), steps);
            (i < |before.past.logins| && m.past.logins[i] == before.past.logins[i]) ||
            HappenedAt(cfg, users, steps, i, m.past.logins[i], |steps| - 1)
  {
    var k := |steps| - 1;
    var n, m := Run(cfg, Start(users), steps[..k]), Run(cfg, Start(users), steps);
    assert m == Next(cfg, n, steps[k]);
    StepRecordsEntry(cfg, n, steps[k]);
    assert steps[..k + 1] == steps;
    if i < |n.past.logins| { assert m.past.logins[i] == m.past.logins[..|n.past.logins|][i]; }
  }

  // Every entry of every run is one redirect of its session, right after which its user is in it.
  lemma {:induction false} EntriesHappened(cfg: Settings, users: seq<User>, steps: seq<Step>, i: nat)
    requires i < |Run(cfg, Start(users), steps).past.logins|
    ensures var e := Run(cfg, Start(users), steps).past.logins[i];
            exists j :: 0 <= j < |steps| && HappenedAt(cfg, users, steps, i, e, j)
    decreases |steps|
  {
    if |steps| == 0 {
      assert false;
    } else {
      var past, e := steps[..|steps| - 1], Run(cfg, Start(users), steps).past.logins[i];
      LastStepRecords(cfg, users, steps, i);
      if !HappenedAt(cfg, users, steps, i, e, |steps| - 1) {
        EntriesHappened(cfg, users, past, i);
        var j :| 0 <= j < |past| && HappenedAt(cfg, users, past, i, e, j);
        StillHappened(cfg, users, steps, i, e, j);
      }
    }
  }
}
