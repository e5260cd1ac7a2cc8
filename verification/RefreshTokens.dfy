/**
 Refresh-token rotation in families (apps/api/src/routes/auth.ts): the stored tokens in order of creation, and
 serial runs of register, login, refresh and logout over them.
 */
module RefreshTokens {
  import opened Wrappers

  datatype Token = Token(hash: string, user: string, family: string, expires: int, revoked: bool,
      replacedBy: Option<string>)

  type Tokens = seq<Token>

  datatype Refusal = Invalid | Reused | Expired | Collision

  datatype Reply = Issued(hash: string) | Refused(why: Refusal) | LoggedOut

  /** Start is a successful register or login; hash and family are the random values the server draws. */
  datatype Request =
    | Start(user: string, family: string, hash: string, expires: int)
    | Refresh(token: string, now: int, hash: string, expires: int)
    | Logout(token: string, user: string)

  predicate Known(ts: Tokens, hash: string) {
    exists i | 0 <= i < |ts| :: ts[i].hash == hash
  }

  function Find(ts: Tokens, hash: string): (i: nat)
    ensures i <= |ts| && (i < |ts| <==> Known(ts, hash))
    ensures i < |ts| ==> ts[i].hash == hash
    ensures forall j | 0 <= j < i :: ts[j].hash != hash
  {
    if ts == [] then 0 else
    var i := Find(ts[..|ts| - 1], hash);
    if i < |ts| - 1 then assert ts[i].hash == hash; i
    else if ts[|ts| - 1].hash == hash then |ts| - 1 else |ts|
  }

  /** One write: every unrevoked token of the family is revoked. */
  function RevokeFamily(ts: Tokens, family: string): (r: Tokens)
    ensures |r| == |ts|
    ensures forall i | 0 <= i < |ts| :: r[i] == if ts[i].family == family then ts[i].(revoked := true) else ts[i]
  {
    seq(|ts|, i requires 0 <= i < |ts| => if ts[i].family == family then ts[i].(revoked := true) else ts[i])
  }

  /** The first write of a rotation: the new token is stored in the old one's family. */
  function Issue(ts: Tokens, user: string, family: string, hash: string, expires: int): Tokens {
    ts + [Token(hash, user, family, expires, false, None)]
  }

  /** The second write of a rotation: the old token is revoked and points to its successor. */
  function Retire(ts: Tokens, i: nat, hash: string): Tokens
    requires i < |ts|
  {
    ts[i := ts[i].(revoked := true, replacedBy := Some(hash))]
  }

  function Rotate(ts: Tokens, i: nat, hash: string, expires: int): Tokens
    requires i < |ts|
  {
    Retire(Issue(ts, ts[i].user, ts[i].family, hash, expires), i, hash)
  }

  function Answer(ts: Tokens, q: Request): Reply {
    match q
    case Start(_, _, hash, _) => if Known(ts, hash) then Refused(Collision) else Issued(hash)
    case Refresh(token, now, hash, _) =>
      var i := Find(ts, token);
      if i == |ts| then Refused(Invalid)
      else if ts[i].revoked then Refused(Reused)
      else if ts[i].expires < now then Refused(Expired)
      else if Known(ts, hash) then Refused(Collision)
      else Issued(hash)
    case Logout(_, _) => LoggedOut
  }

  function Handle(ts: Tokens, q: Request): Tokens {
    match q
    case Start(user, family, hash, expires) =>
      if Answer(ts, q).Issued? then Issue(ts, user, family, hash, expires) else ts
    case Refresh(token, _, hash, expires) =>
      var i := Find(ts, token);
      (match Answer(ts, q)
       case Issued(_) => Rotate(ts, i, hash, expires)
       case Refused(Reused) => RevokeFamily(ts, ts[i].family)
       case _ => ts)
    case Logout(token, user) =>
      var i := Find(ts, token);
      if i < |ts| && ts[i].user == user then RevokeFamily(ts, ts[i].family) else ts
  }

  /** The random family of a new session is unused; nothing is asked of the random hashes. */
  predicate Fresh(ts: Tokens, q: Request) {
    q.Start? ==> forall i | 0 <= i < |ts| :: ts[i].family != q.family
  }

  class TokenStore {
    var rows: Tokens

    constructor ()
      ensures rows == []
    {
      rows := [];
    }

    method Create(user: string, family: string, hash: string, expires: int) returns (ok: bool)
      modifies this
      ensures ok <==> !Known(old(rows), hash)
      ensures rows == if ok then Issue(old(rows), user, family, hash, expires) else old(rows)
    {
      var i := Lookup(hash);
      ok := i == |rows|;
      if ok {
        rows := rows + [Token(hash, user, family, expires, false, None)];
      }
    }

    method Lookup(hash: string) returns (i: nat)
      ensures i == Find(rows, hash)
    {
      i := 0;
      while i < |rows| && rows[i].hash != hash
        invariant 0 <= i <= |rows|
        invariant forall j | 0 <= j < i :: rows[j].hash != hash
      {
        i := i + 1;
      }
    }

    method StartSession(user: string, family: string, hash: string, expires: int) returns (r: Reply)
      modifies this
      ensures r == Answer(old(rows), Start(user, family, hash, expires))
      ensures rows == Handle(old(rows), Start(user, family, hash, expires))
    {
      var ok := Create(user, family, hash, expires);
      r := if ok then Issued(hash) else Refused(Collision);
    }

    method RefreshSession(token: string, now: int, hash: string, expires: int) returns (r: Reply)
      modifies this
      ensures r == Answer(old(rows), Refresh(token, now, hash, expires))
      ensures rows == Handle(old(rows), Refresh(token, now, hash, expires))
    {
      var i := Lookup(token);
      if i == |rows| {
        return Refused(Invalid);
      }
      var stored := rows[i];
      if stored.revoked {
        rows := RevokeFamily(rows, stored.family);
        return Refused(Reused);
      }
      if stored.expires < now {
        return Refused(Expired);
      }
      var ok := Create(stored.user, stored.family, hash, expires);
      if !ok {
        return Refused(Collision);
      }
      rows := rows[i := rows[i].(revoked := true, replacedBy := Some(hash))];
      return Issued(hash);
    }

    method LogoutSession(token: string, user: string)
      modifies this
      ensures rows == Handle(old(rows), Logout(token, user))
    {
      var i := Lookup(token);
      if i < |rows| && rows[i].user == user {
        rows := RevokeFamily(rows, rows[i].family);
      }
    }
  }

  // ----- families are chains -----

  /** j is the next token of i's family. */
  predicate Next(ts: Tokens, i: nat, j: nat) {
    && i < j < |ts| && ts[i].family == ts[j].family
    && forall k | i < k < j :: ts[k].family != ts[i].family
  }

  predicate Last(ts: Tokens, i: nat) {
    i < |ts| && forall k | i < k < |ts| :: ts[k].family != ts[i].family
  }

  predicate Unique(ts: Tokens) {
    forall i, j | 0 <= i < j < |ts| :: ts[i].hash != ts[j].hash
  }

  /** Every token of a family but the newest is revoked, belongs to the family's user and points to the next one;
      the newest points nowhere. Links only lead forward in time, so a family is one acyclic chain. */
  ghost predicate Chained(ts: Tokens) {
    && (forall i: nat, j: nat | Next(ts, i, j) ::
          ts[i].revoked && ts[i].replacedBy == Some(ts[j].hash) && ts[i].user == ts[j].user)
    && (forall i: nat | Last(ts, i) :: ts[i].replacedBy == None)
  }

  lemma {:induction false} NextExists(ts: Tokens, i: nat, m: nat) returns (j: nat)
    requires i < m < |ts| && ts[i].family == ts[m].family
    ensures Next(ts, i, j) && j <= m
    decreases m - i
  {
    if k :| i < k < m && ts[k].family == ts[i].family {
      j := NextExists(ts, i, k);
    } else {
      j := m;
    }
  }

  /** At most one unrevoked token per family: the newest. */
  lemma OneLive(ts: Tokens, i: nat, j: nat)
    requires Chained(ts) && i < |ts| && j < |ts| && ts[i].family == ts[j].family
    requires !ts[i].revoked && !ts[j].revoked
    ensures i == j
  {
    if i < j {
      var k := NextExists(ts, i, j);
      assert false;
    } else if j < i {
      var k := NextExists(ts, j, i);
      assert false;
    }
  }

  lemma LiveIsLast(ts: Tokens, i: nat)
    requires Chained(ts) && i < |ts| && !ts[i].revoked
    ensures Last(ts, i)
  {
    if m :| i < m < |ts| && ts[m].family == ts[i].family {
      var k := NextExists(ts, i, m);
      assert false;
    }
  }

  lemma RevokeKeeps(ts: Tokens, family: string)
    requires Chained(ts) && Unique(ts)
    ensures Chained(RevokeFamily(ts, family)) && Unique(RevokeFamily(ts, family))
  {
    var r := RevokeFamily(ts, family);
    forall i: nat, j: nat | Next(r, i, j)
      ensures r[i].revoked && r[i].replacedBy == Some(r[j].hash) && r[i].user == r[j].user
    {
      assert Next(ts, i, j);
    }
    forall i: nat | Last(r, i) ensures r[i].replacedBy == None {
      assert Last(ts, i);
    }
  }

  lemma StartNext(ts: Tokens, t: Token, i: nat, j: nat)
    requires Chained(ts) && Next(ts + [t], i, j) && forall k | 0 <= k < |ts| :: ts[k].family != t.family
    ensures ts[i].revoked && ts[i].replacedBy == Some(ts[j].hash) && ts[i].user == ts[j].user && j < |ts|
  {
    var r := ts + [t];
    assert j < |ts|;
    assert Next(ts, i, j) by {
      forall k | i < k < j ensures ts[k].family != ts[i].family {
        assert r[k] == ts[k];
      }
    }
  }

  lemma StartLast(ts: Tokens, t: Token, i: nat)
    requires Chained(ts) && i < |ts| && Last(ts + [t], i)
    ensures ts[i].replacedBy == None
  {
    var r := ts + [t];
    assert Last(ts, i) by {
      forall k | i < k < |ts| ensures ts[k].family != ts[i].family {
        assert r[k] == ts[k];
      }
    }
  }

  lemma StartKeeps(ts: Tokens, t: Token)
    requires Chained(ts) && Unique(ts) && !Known(ts, t.hash) && t.replacedBy == None
    requires forall k | 0 <= k < |ts| :: ts[k].family != t.family
    ensures Chained(ts + [t]) && Unique(ts + [t])
  {
    var r := ts + [t];
    forall i: nat, j: nat | Next(r, i, j)
      ensures r[i].revoked && r[i].replacedBy == Some(r[j].hash) && r[i].user == r[j].user
    {
      StartNext(ts, t, i, j);
    }
    forall i: nat | Last(r, i) ensures r[i].replacedBy == None {
      if i < |ts| {
        StartLast(ts, t, i);
      }
    }
  }

  lemma RotateSame(ts: Tokens, at: nat, hash: string, expires: int, k: nat)
    requires at < |ts| && k < |ts|
    ensures var r := Rotate(ts, at, hash, expires);
            && r[k].family == ts[k].family && r[k].user == ts[k].user && r[k].hash == ts[k].hash
            && (k != at ==> r[k] == ts[k])
  {
  }

  lemma RotateOldPair(ts: Tokens, at: nat, hash: string, expires: int, i: nat, j: nat)
    requires at < |ts| && j < |ts| && Next(Rotate(ts, at, hash, expires), i, j)
    ensures Next(ts, i, j)
  {
    RotateSame(ts, at, hash, expires, i);
    RotateSame(ts, at, hash, expires, j);
    forall k | i < k < j ensures ts[k].family != ts[i].family {
      RotateSame(ts, at, hash, expires, k);
    }
  }

  lemma RotateNewPair(ts: Tokens, at: nat, hash: string, expires: int, i: nat)
    requires at < |ts| && Last(ts, at) && Next(Rotate(ts, at, hash, expires), i, |ts|)
    ensures i == at
  {
    RotateSame(ts, at, hash, expires, i);
    RotateSame(ts, at, hash, expires, at);
  }

  lemma RotateNext(ts: Tokens, at: nat, hash: string, expires: int, i: nat, j: nat)
    requires Chained(ts) && at < |ts| && Last(ts, at)
    requires var r := Rotate(ts, at, hash, expires); Next(r, i, j)
    ensures var r := Rotate(ts, at, hash, expires);
            r[i].revoked && r[i].replacedBy == Some(r[j].hash) && r[i].user == r[j].user
  {
    if j < |ts| {
      RotateOldPair(ts, at, hash, expires, i, j);
      RotateSame(ts, at, hash, expires, i);
      RotateSame(ts, at, hash, expires, j);
      assert i != at;
    } else {
      RotateNewPair(ts, at, hash, expires, i);
    }
  }

  lemma RotateKeeps(ts: Tokens, at: nat, hash: string, expires: int)
    requires Chained(ts) && Unique(ts) && at < |ts| && !ts[at].revoked && !Known(ts, hash)
    ensures var r := Rotate(ts, at, hash, expires); Chained(r) && Unique(r)
  {
    var r := Rotate(ts, at, hash, expires);
    LiveIsLast(ts, at);
    forall i: nat, j: nat | Next(r, i, j)
      ensures r[i].revoked && r[i].replacedBy == Some(r[j].hash) && r[i].user == r[j].user
    {
      RotateNext(ts, at, hash, expires, i, j);
    }
    forall i: nat | Last(r, i) ensures r[i].replacedBy == None {
      if i < |ts| {
        assert r[|ts|].family == ts[at].family;
        assert i != at;
        assert Last(ts, i) by {
          forall k | i < k < |ts| ensures ts[k].family != ts[i].family {
            assert r[k].family == ts[k].family;
          }
        }
      }
    }
  }

  lemma HandleKeeps(ts: Tokens, q: Request)
    requires Chained(ts) && Unique(ts) && Fresh(ts, q)
    ensures Chained(Handle(ts, q)) && Unique(Handle(ts, q))
  {
    match q
    case Start(user, family, hash, expires) =>
      if Answer(ts, q).Issued? {
        StartKeeps(ts, Token(hash, user, family, expires, false, None));
      }
    case Refresh(token, _, hash, expires) =>
      var i := Find(ts, token);
      if Answer(ts, q).Issued? {
        RotateKeeps(ts, i, hash, expires);
      } else if Answer(ts, q) == Refused(Reused) {
        RevokeKeeps(ts, ts[i].family);
      }
    case Logout(token, user) =>
      var i := Find(ts, token);
      if i < |ts| {
        RevokeKeeps(ts, ts[i].family);
      }
  }

  // ----- runs -----

  function After(ts: Tokens, qs: seq<Request>): Tokens {
    if qs == [] then ts else Handle(After(ts, qs[..|qs| - 1]), qs[|qs| - 1])
  }

  /** Every session of the run gets an unused family. */
  predicate FreshRun(ts: Tokens, qs: seq<Request>) {
    forall k | 0 <= k < |qs| :: Fresh(After(ts, qs[..k]), qs[k])
  }

  lemma FreshPrefix(ts: Tokens, qs: seq<Request>)
    requires qs != [] && FreshRun(ts, qs)
    ensures FreshRun(ts, qs[..|qs| - 1]) && Fresh(After(ts, qs[..|qs| - 1]), qs[|qs| - 1])
  {
    var init := qs[..|qs| - 1];
    forall k | 0 <= k < |init| ensures Fresh(After(ts, init[..k]), init[k]) {
      assert init[..k] == qs[..k];
    }
  }

  /** In every serial run from an empty store, every family is one chain of revoked tokens ending in the only
      token that may still be live. */
  lemma {:induction false} FamiliesStayChains(qs: seq<Request>)
    requires FreshRun([], qs)
    ensures Chained(After([], qs)) && Unique(After([], qs))
    decreases |qs|
  {
    if qs != [] {
      FreshPrefix([], qs);
      FamiliesStayChains(qs[..|qs| - 1]);
      HandleKeeps(After([], qs[..|qs| - 1]), qs[|qs| - 1]);
    }
  }

  /** The family exists and has no live token. */
  predicate Dead(ts: Tokens, family: string) {
    && (exists i | 0 <= i < |ts| :: ts[i].family == family)
    && (forall i | 0 <= i < |ts| && ts[i].family == family :: ts[i].revoked)
  }

  /** Rows are only ever added, and a revocation is never undone. */
  predicate Extends(ts: Tokens, r: Tokens) {
    && |ts| <= |r|
    && forall i | 0 <= i < |ts| :: r[i].hash == ts[i].hash && r[i].family == ts[i].family
        && (ts[i].revoked ==> r[i].revoked)
  }

  lemma HandleExtends(ts: Tokens, q: Request)
    ensures Extends(ts, Handle(ts, q))
  {
  }

  lemma DeadStep(ts: Tokens, q: Request, family: string)
    requires Fresh(ts, q) && Dead(ts, family)
    ensures Dead(Handle(ts, q), family)
  {
    var i :| 0 <= i < |ts| && ts[i].family == family;
    HandleExtends(ts, q);
    assert Handle(ts, q)[i].family == family;
  }

  /** Once a family has no live token it never gains one. */
  lemma {:induction false} DeadForever(ts: Tokens, qs: seq<Request>, family: string)
    requires FreshRun(ts, qs) && Dead(ts, family)
    ensures Dead(After(ts, qs), family)
    decreases |qs|
  {
    if qs != [] {
      FreshPrefix(ts, qs);
      DeadForever(ts, qs[..|qs| - 1], family);
      DeadStep(After(ts, qs[..|qs| - 1]), qs[|qs| - 1], family);
    }
  }

  lemma RevokedIsDead(ts: Tokens, i: nat)
    requires i < |ts|
    ensures Dead(RevokeFamily(ts, ts[i].family), ts[i].family)
  {
    assert RevokeFamily(ts, ts[i].family)[i].family == ts[i].family;
  }

  /** Presenting a revoked token, or the owner logging out with any of its tokens, kills the family. */
  lemma Kills(ts: Tokens, q: Request, i: nat)
    requires i < |ts|
    requires (q.Refresh? && i == Find(ts, q.token) && ts[i].revoked)
             || (q.Logout? && i == Find(ts, q.token) && ts[i].user == q.user)
    ensures Dead(Handle(ts, q), ts[i].family)
  {
    RevokedIsDead(ts, i);
    assert Handle(ts, q) == RevokeFamily(ts, ts[i].family) by {
      if q.Refresh? {
        assert Answer(ts, q) == Refused(Reused);
      }
    }
  }

  // ----- replay -----

  /** The token with this hash is stored and revoked. */
  predicate Spent(ts: Tokens, token: string) {
    Find(ts, token) < |ts| && ts[Find(ts, token)].revoked
  }

  lemma FindKept(ts: Tokens, r: Tokens, token: string)
    requires Extends(ts, r) && Known(ts, token)
    ensures Find(r, token) == Find(ts, token)
  {
    var i := Find(ts, token);
    assert r[i].hash == token;
    assert forall j | 0 <= j < i :: r[j].hash == ts[j].hash;
  }

  lemma SpentStep(ts: Tokens, q: Request, token: string)
    requires Spent(ts, token)
    ensures Spent(Handle(ts, q), token) && Find(Handle(ts, q), token) == Find(ts, token)
    ensures Handle(ts, q)[Find(ts, token)].family == ts[Find(ts, token)].family
  {
    HandleExtends(ts, q);
    FindKept(ts, Handle(ts, q), token);
  }

  lemma {:induction false} SpentForever(ts: Tokens, qs: seq<Request>, token: string)
    requires Spent(ts, token)
    ensures Spent(After(ts, qs), token) && Find(After(ts, qs), token) == Find(ts, token)
    ensures After(ts, qs)[Find(ts, token)].family == ts[Find(ts, token)].family
    decreases |qs|
  {
    if qs != [] {
      SpentForever(ts, qs[..|qs| - 1], token);
      SpentStep(After(ts, qs[..|qs| - 1]), qs[|qs| - 1], token);
    }
  }

  /** A token that was exchanged once is never exchanged again: whatever happens in between, presenting it a
      second time is answered as reuse and leaves its whole family dead. */
  lemma ReplayKillsFamily(ts: Tokens, first: Request, between: seq<Request>, second: Request)
    requires first.Refresh? && second.Refresh? && second.token == first.token && Answer(ts, first).Issued?
    ensures var mid := After(Handle(ts, first), between);
            && Answer(mid, second) == Refused(Reused)
            && Dead(Handle(mid, second), ts[Find(ts, first.token)].family)
  {
    var i := Find(ts, first.token);
    var rotated := Handle(ts, first);
    HandleExtends(ts, first);
    FindKept(ts, rotated, first.token);
    assert Spent(rotated, first.token);
    SpentForever(rotated, between, first.token);
    Kills(After(rotated, between), second, i);
  }

  // ----- rotations that crash between their two writes -----

  function LiveCount(ts: Tokens, family: string): nat {
    if ts == [] then 0
    else LiveCount(ts[..|ts| - 1], family)
         + if ts[|ts| - 1].family == family && !ts[|ts| - 1].revoked then 1 else 0
  }

  /** A request served to its end, or a rotation that crashes after it stored the new token. */
  datatype Event = Serve(request: Request) | Interrupt(request: Request)

  /** An interrupted request stops after its first write, if it is a rotation; every other request has one write. */
  function Perform(ts: Tokens, e: Event): Tokens {
    if e.Interrupt? && e.request.Refresh? && Answer(ts, e.request).Issued? then
      var t := ts[Find(ts, e.request.token)];
      Issue(ts, t.user, t.family, e.request.hash, e.request.expires)
    else Handle(ts, e.request)
  }

  function Served(ts: Tokens, es: seq<Event>): Tokens {
    if es == [] then ts else Perform(Served(ts, es[..|es| - 1]), es[|es| - 1])
  }

  predicate FreshEvents(ts: Tokens, es: seq<Event>) {
    forall k | 0 <= k < |es| :: Fresh(Served(ts, es[..k]), es[k].request)
  }

  /** Whether the event leaves a rotation of the family half done. */
  predicate Interrupts(ts: Tokens, e: Event, family: string) {
    && e.Interrupt? && e.request.Refresh? && Answer(ts, e.request).Issued?
    && ts[Find(ts, e.request.token)].family == family
  }

  function Interruptions(ts: Tokens, es: seq<Event>, family: string): nat {
    if es == [] then 0
    else
      var init := es[..|es| - 1];
      Interruptions(ts, init, family) + if Interrupts(Served(ts, init), es[|es| - 1], family) then 1 else 0
  }

  predicate Present(ts: Tokens, family: string) {
    exists i | 0 <= i < |ts| :: ts[i].family == family
  }

  lemma {:induction false} AbsentCount(ts: Tokens, family: string)
    requires !Present(ts, family)
    ensures LiveCount(ts, family) == 0
    decreases |ts|
  {
    if ts != [] {
      AbsentCount(ts[..|ts| - 1], family);
    }
  }

  lemma IssueCount(ts: Tokens, user: string, family: string, hash: string, expires: int, f: string)
    ensures LiveCount(Issue(ts, user, family, hash, expires), f) == LiveCount(ts, f) + if f == family then 1 else 0
  {
    assert Issue(ts, user, family, hash, expires)[..|ts|] == ts;
  }

  /** Retiring a live token takes one from its family's count. */
  lemma {:induction false} RetireCount(ts: Tokens, i: nat, hash: string, f: string)
    requires i < |ts| && !ts[i].revoked
    ensures LiveCount(ts, f) == LiveCount(Retire(ts, i, hash), f) + if f == ts[i].family then 1 else 0
    decreases |ts|
  {
    if i < |ts| - 1 {
      RetireCount(ts[..|ts| - 1], i, hash, f);
      assert Retire(ts, i, hash)[..|ts| - 1] == Retire(ts[..|ts| - 1], i, hash);
    } else {
      assert Retire(ts, i, hash)[..|ts| - 1] == ts[..|ts| - 1];
    }
  }

  lemma {:induction false} RevokeCount(ts: Tokens, family: string, f: string)
    ensures LiveCount(RevokeFamily(ts, family), f) == if f == family then 0 else LiveCount(ts, f)
    decreases |ts|
  {
    if ts != [] {
      RevokeCount(ts[..|ts| - 1], family, f);
      assert RevokeFamily(ts, family)[..|ts| - 1] == RevokeFamily(ts[..|ts| - 1], family);
    }
  }

  lemma RotateCount(ts: Tokens, i: nat, hash: string, expires: int, f: string)
    requires i < |ts| && !ts[i].revoked
    ensures LiveCount(Rotate(ts, i, hash, expires), f) == LiveCount(ts, f)
  {
    IssueCount(ts, ts[i].user, ts[i].family, hash, expires, f);
    RetireCount(Issue(ts, ts[i].user, ts[i].family, hash, expires), i, hash, f);
  }

  lemma RefreshCount(ts: Tokens, q: Request, f: string)
    requires q.Refresh?
    ensures LiveCount(Handle(ts, q), f) == LiveCount(ts, f) || LiveCount(Handle(ts, q), f) == 0
  {
    var i := Find(ts, q.token);
    if Answer(ts, q).Issued? {
      RotateCount(ts, i, q.hash, q.expires, f);
    } else if Answer(ts, q) == Refused(Reused) {
      RevokeCount(ts, ts[i].family, f);
    }
  }

  /** A served request starts the family with one live token, keeps the count, or ends it. */
  lemma ServeCount(ts: Tokens, q: Request, f: string)
    requires Fresh(ts, q)
    ensures var n := LiveCount(Handle(ts, q), f);
            n == LiveCount(ts, f) || n == 0 || (n == 1 && !Present(ts, f))
  {
    match q
    case Start(user, family, hash, expires) =>
      if Answer(ts, q).Issued? {
        IssueCount(ts, user, family, hash, expires, f);
        if family == f {
          AbsentCount(ts, f);
        }
      }
    case Refresh(_, _, _, _) => RefreshCount(ts, q, f);
    case Logout(token, _) =>
      var i := Find(ts, token);
      if i < |ts| {
        RevokeCount(ts, ts[i].family, f);
      }
  }

  lemma InterruptCount(ts: Tokens, e: Event, f: string)
    requires e.Interrupt? && e.request.Refresh? && Answer(ts, e.request).Issued?
    ensures LiveCount(Perform(ts, e), f) == LiveCount(ts, f) + if Interrupts(ts, e, f) then 1 else 0
    ensures Interrupts(ts, e, f) ==> Present(ts, f) && LiveCount(ts, f) >= 1
  {
    var i := Find(ts, e.request.token);
    var t := ts[i];
    IssueCount(ts, t.user, t.family, e.request.hash, e.request.expires, f);
    RetireCount(ts, i, "", f);
  }

  /** The family counts one live token more than the rotations interrupted on it, or none. */
  predicate Counted(ts: Tokens, family: string, interrupted: nat) {
    && (LiveCount(ts, family) == 0 || LiveCount(ts, family) == 1 + interrupted)
    && (!Present(ts, family) ==> interrupted == 0)
  }

  lemma PresentStays(ts: Tokens, e: Event, f: string)
    requires Present(ts, f)
    ensures Present(Perform(ts, e), f)
  {
    var i :| 0 <= i < |ts| && ts[i].family == f;
    HandleExtends(ts, e.request);
    assert Perform(ts, e)[i].family == f;
  }

  lemma CountedStep(ts: Tokens, e: Event, f: string, n: nat)
    requires Fresh(ts, e.request) && Counted(ts, f, n)
    ensures Counted(Perform(ts, e), f, n + if Interrupts(ts, e, f) then 1 else 0)
  {
    if Present(ts, f) {
      PresentStays(ts, e, f);
    }
    if e.Interrupt? && e.request.Refresh? && Answer(ts, e.request).Issued? {
      InterruptCount(ts, e, f);
    } else {
      ServeCount(ts, e.request, f);
    }
  }

  lemma FreshEventsPrefix(ts: Tokens, es: seq<Event>)
    requires es != [] && FreshEvents(ts, es)
    ensures FreshEvents(ts, es[..|es| - 1]) && Fresh(Served(ts, es[..|es| - 1]), es[|es| - 1].request)
  {
    var init := es[..|es| - 1];
    forall k | 0 <= k < |init| ensures Fresh(Served(ts, init[..k]), init[k].request) {
      assert init[..k] == es[..k];
    }
  }

  /** In every serial run in which rotations may crash between their writes, a family has either no live token or
      exactly one more than the rotations interrupted on it. */
  lemma {:induction false} LiveTokensCounted(es: seq<Event>, family: string)
    requires FreshEvents([], es)
    ensures var n := LiveCount(Served([], es), family);
            n == 0 || n == 1 + Interruptions([], es, family)
    ensures Counted(Served([], es), family, Interruptions([], es, family))
    decreases |es|
  {
    if es != [] {
      var init := es[..|es| - 1];
      FreshEventsPrefix([], es);
      LiveTokensCounted(init, family);
      CountedStep(Served([], init), es[|es| - 1], family, Interruptions([], init, family));
    }
  }

  lemma DeadPerformed(ts: Tokens, e: Event, family: string)
    requires Fresh(ts, e.request) && Dead(ts, family)
    ensures Dead(Perform(ts, e), family)
  {
    if e.Interrupt? && e.request.Refresh? && Answer(ts, e.request).Issued? {
      var i :| 0 <= i < |ts| && ts[i].family == family;
      assert Perform(ts, e)[i] == ts[i];
    } else {
      DeadStep(ts, e.request, family);
    }
  }

  /** A family without a live token never gains one, through interrupted rotations either. */
  lemma {:induction false} DeadThroughCrashes(ts: Tokens, es: seq<Event>, family: string)
    requires FreshEvents(ts, es) && Dead(ts, family)
    ensures Dead(Served(ts, es), family)
    decreases |es|
  {
    if es != [] {
      FreshEventsPrefix(ts, es);
      DeadThroughCrashes(ts, es[..|es| - 1], family);
      DeadPerformed(Served(ts, es[..|es| - 1]), es[|es| - 1], family);
    }
  }

  lemma {:induction false} NoLiveCount(ts: Tokens, family: string)
    requires forall i | 0 <= i < |ts| && ts[i].family == family :: ts[i].revoked
    ensures LiveCount(ts, family) == 0
    decreases |ts|
  {
    if ts != [] {
      NoLiveCount(ts[..|ts| - 1], family);
    }
  }

  lemma {:induction false} OneLiveCount(ts: Tokens, at: nat)
    requires at < |ts| && !ts[at].revoked
    requires forall i | 0 <= i < |ts| && i != at && ts[i].family == ts[at].family :: ts[i].revoked
    ensures LiveCount(ts, ts[at].family) == 1
    decreases |ts|
  {
    if at == |ts| - 1 {
      NoLiveCount(ts[..at], ts[at].family);
    } else {
      OneLiveCount(ts[..|ts| - 1], at);
    }
  }

  /** In a store of chains a rotation has two live tokens between its writes and one after them. */
  lemma InterruptedRotationLeavesTwo(ts: Tokens, at: nat, hash: string, expires: int)
    requires Chained(ts) && Unique(ts) && at < |ts| && !ts[at].revoked && !Known(ts, hash)
    ensures LiveCount(Issue(ts, ts[at].user, ts[at].family, hash, expires), ts[at].family) == 2
    ensures LiveCount(Rotate(ts, at, hash, expires), ts[at].family) == 1
  {
    var family := ts[at].family;
    forall i | 0 <= i < |ts| && i != at && ts[i].family == family ensures ts[i].revoked {
      if !ts[i].revoked {
        OneLive(ts, i, at);
      }
    }
    OneLiveCount(ts, at);
    IssueCount(ts, ts[at].user, family, hash, expires, family);
    RotateCount(ts, at, hash, expires, family);
  }

  // ----- one request -----

  /** The stored token with this hash is live. */
  predicate LiveAt(ts: Tokens, i: nat, hash: string) {
    i < |ts| && ts[i].hash == hash && !ts[i].revoked
  }

  lemma FindsIt(ts: Tokens, i: nat, hash: string)
    requires Unique(ts) && i < |ts| && ts[i].hash == hash
    ensures Find(ts, hash) == i
  {
  }

  /** A token is exchanged exactly when it is stored, not revoked, not past its expiry and the drawn hash is new; a live
      token past its expiry is refused as expired. */
  lemma ExchangedExactly(ts: Tokens, i: nat, token: string, now: int, hash: string, expires: int)
    requires Unique(ts) && LiveAt(ts, i, token)
    ensures Answer(ts, Refresh(token, now, hash, expires)).Issued?
            <==> now <= ts[i].expires && forall j | 0 <= j < |ts| :: ts[j].hash != hash
    ensures Answer(ts, Refresh(token, now, hash, expires)) == Refused(Expired) <==> now > ts[i].expires
  {
    FindsIt(ts, i, token);
  }

  /** A refused request, unless it presents a revoked token, and a logout of someone else's token or of an unknown one
      change nothing. */
  lemma OthersChangeNothing(ts: Tokens, q: Request)
    requires match q {
               case Logout(token, user) => forall i | 0 <= i < |ts| && ts[i].hash == token :: ts[i].user != user
               case _ => Answer(ts, q).Refused? && !Answer(ts, q).why.Reused?
             }
    ensures Handle(ts, q) == ts
  {
  }

  /** A new session's token, and the one a rotation hands out, is stored live with the expiry drawn for it, for the user
      of the session or of the presented token and in that token's family; the presented one is retired to it. */
  lemma IssuedIsStored(ts: Tokens, q: Request)
    requires Unique(ts) && Answer(ts, q).Issued?
    ensures var r := Handle(ts, q);
            && |r| == |ts| + 1 && !q.Logout?
            && r[|ts|].hash == q.hash && r[|ts|].expires == q.expires && !r[|ts|].revoked && r[|ts|].replacedBy.None?
            && (q.Start? ==> r[|ts|].user == q.user && r[|ts|].family == q.family && r[..|ts|] == ts)
            && (q.Refresh? ==> forall i | 0 <= i < |ts| :: if ts[i].hash == q.token
                                 then r[|ts|].user == ts[i].user && r[|ts|].family == ts[i].family
                                      && r[i] == ts[i].(revoked := true, replacedBy := Some(q.hash))
                                 else r[i] == ts[i])
  {
    if q.Refresh? {
      var at := Find(ts, q.token);
      forall i | 0 <= i < |ts| && ts[i].hash == q.token ensures i == at {
        FindsIt(ts, i, q.token);
      }
    }
  }
}
