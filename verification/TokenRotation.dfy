/** Registering the device's key at a provider that rotates refresh tokens (section 6
    of RFC 6749), and what that leaves the session with. */
module TokenRotation {
  import opened LeaseClock
  import opened Wrappers

  /** An access token, and whether it is of the wireguard scope: for the provider's own
      key registry rather than for a VPN server. */
  datatype Access = Access(id: nat, registry: bool)

  /** Absent values are Go's empty strings and zero time. */
  datatype Token = Token(value: Option<Access>, expiry: Option<int>, refresh: Option<nat>)

  datatype Event = Presented(refresh: nat, live: bool) | ShownToRegistry(access: Access)

  /** The provider: the refresh tokens it would still take, how many tokens it has
      issued, and what it was shown. */
  datatype Provider = Provider(live: set<nat>, issued: nat, log: seq<Event>)

  /** What comes of a refresh with a live token: it is granted, with a new refresh token
      if the provider rotates; refused; or lost, perhaps after the provider rotated. */
  datatype Reply = Granted(rotates: bool, lifetime: int) | Refused | Lost(rotated: bool)

  /** What the provider and the network do in one RegisterKey. */
  datatype Answers = Answers(discovers: bool, first: Reply, registers: bool, second: Reply)

  datatype Failure = BadDeviceKey | NoEndpoint | NoRefreshToken | RefreshFailed | KeyRefused

  // ------------------------------------------------------- the provider

  predicate Spends(reply: Reply) {
    (reply.Granted? && reply.rotates) || (reply.Lost? && reply.rotated)
  }

  function Rotate(p: Provider, refresh: nat): Provider {
    p.(live := p.live - {refresh} + {p.issued}, issued := p.issued + 1)
  }

  /** The provider after a refresh, and the token if it was granted; narrow asks for
      "openid" alone, otherwise for all that was granted at sign-in. */
  function Exchange(p: Provider, refresh: nat, narrow: bool, reply: Reply, now: int): (Provider, Option<Token>) {
    var q := p.(log := p.log + [Presented(refresh, refresh in p.live)]);
    if refresh !in p.live then (q, None)
    else
      var spent := if Spends(reply) then Rotate(q, refresh) else q;
      match reply
      case Refused => (spent, None)
      case Lost(_) => (spent, None)
      case Granted(rotates, lifetime) =>
        var access := Access(spent.issued, !narrow);
        var expiry := if lifetime > 0 then Some(now + lifetime) else None;
        (spent.(issued := spent.issued + 1),
         Some(Token(Some(access), expiry, Some(if rotates then p.issued else refresh))))
  }

  /** The registry takes a token of its own scope, and may still refuse the key. */
  function Show(p: Provider, access: Option<Access>, registers: bool): (Provider, bool) {
    match access
    case None => (p, false)
    case Some(a) => (p.(log := p.log + [ShownToRegistry(a)]), registers && a.registry)
  }

  /** The sign-in token is absent or ends within a minute. */
  predicate Lapsed(tok: Token, now: int) {
    tok.value.None? || tok.expiry.None? || Until(tok.expiry.value, now) < MINUTE
  }

  /** RegisterKey, as a function of what it is answered. */
  function Registered(p: Provider, tok: Token, now: int, a: Answers): (Provider, Result<Token, Failure>) {
    if !a.discovers then (p, Err(NoEndpoint))
    else if tok.refresh.None? then (p, Err(NoRefreshToken))
    else if Lapsed(tok, now) then
      var (q, t) := Exchange(p, tok.refresh.value, false, a.first, now);
      if t.None? then (q, Err(RefreshFailed)) else Narrowed(q, t.value.value, t.value.refresh.value, now, a)
    else Narrowed(p, tok.value, tok.refresh.value, now, a)
  }

  /** The key is registered, and the refresh token exchanged for the VPN server's token. */
  function Narrowed(p: Provider, registry: Option<Access>, refresh: nat, now: int, a: Answers)
    : (Provider, Result<Token, Failure>)
  {
    var (q, ok) := Show(p, registry, a.registers);
    if !ok then (q, Err(KeyRefused))
    else
      var (r, t) := Exchange(q, refresh, true, a.second, now);
      (r, if t.None? then Err(RefreshFailed) else Ok(t.value))
  }

  // ------------------------------------------------------- RegisterKey and bearerFor

  /** refresh: the old refresh token stands where the answer brings none. */
  method Refresh(p: Provider, refresh: nat, narrow: bool, reply: Reply, now: int)
    returns (q: Provider, r: Option<Token>)
    ensures (q, r) == Exchange(p, refresh, narrow, reply, now)
  {
    q := p.(log := p.log + [Presented(refresh, refresh in p.live)]);
    if refresh !in p.live || reply.Refused? {
      return q, None;
    }
    var answered := if Spends(reply) then Some(q.issued) else None;
    if Spends(reply) {
      q := Rotate(q, refresh);
    }
    if reply.Lost? {
      return q, None;
    }
    var t := Token(Some(Access(q.issued, !narrow)), None, answered);
    q := q.(issued := q.issued + 1);
    if reply.lifetime > 0 {
      t := t.(expiry := Some(now + reply.lifetime));
    }
    if t.refresh.None? {
      t := t.(refresh := Some(refresh));
    }
    r := Some(t);
  }

  method RegisterKey(p: Provider, tok: Token, now: int, a: Answers) returns (q: Provider, r: Result<Token, Failure>)
    ensures (q, r) == Registered(p, tok, now, a)
    ensures SignedIn(p, tok) && Clean(p.log) ==>
              && Clean(q.log) && (r.Err? <==> Fails(tok, now, a))
              && (r.Ok? ==> r.value.value.Some? && !r.value.value.value.registry)
              && (r.Ok? ==> SignedIn(q, tok.(refresh := r.value.refresh)))
              && (tok.refresh.value !in q.live <==> SpendsToken(tok, now, a))
  {
    if SignedIn(p, tok) && Clean(p.log) {
      CallKeepsSession(p, tok, now, a);
      CallSpendsExactly(p, tok, now, a);
    }
    q := p;
    if !a.discovers {
      return q, Err(NoEndpoint);
    }
    if tok.refresh.None? {
      return q, Err(NoRefreshToken);
    }
    var registry, refresh := tok.value, tok.refresh.value;
    if Lapsed(tok, now) {
      var t;
      q, t := Refresh(q, refresh, false, a.first, now);
      if t.None? {
        return q, Err(RefreshFailed);
      }
      registry, refresh := t.value.value, t.value.refresh.value;
    }
    var shown := Show(q, registry, a.registers);
    q := shown.0;
    if !shown.1 {
      return q, Err(KeyRefused);
    }
    var t;
    q, t := Refresh(q, refresh, true, a.second, now);
    r := if t.None? then Err(RefreshFailed) else Ok(t.value);
  }

  /** The app's session. */
  class Session {
    var token: Token

    constructor (token: Token)
      ensures this.token == token
    {
      this.token := token;
    }

    /** bearerFor: the VPN server's bearer. At a provider that keeps the devices' keys the
        session keeps its sign-in token, and takes over the new refresh token only if all
        went well; keyFits is whether the device's key can be read. */
    method BearerFor(p: Provider, registrar: bool, keyFits: bool, now: int, a: Answers)
      returns (q: Provider, bearer: Result<Option<Access>, Failure>, changed: bool)
      modifies this
      ensures !registrar ==> bearer == Ok(old(token).value)
      ensures registrar && !keyFits ==> bearer == Err(BadDeviceKey)
      ensures !registrar || !keyFits ==> q == p && token == old(token) && !changed
      ensures registrar && keyFits ==>
                var (q0, r) := Registered(p, old(token), now, a);
                && q == q0 && changed == r.Ok?
                && (r.Ok? ==> token == old(token).(refresh := r.value.refresh) && bearer == Ok(r.value.value))
                && (r.Err? ==> token == old(token) && bearer == Err(r.error))
    {
      if !registrar {
        return p, Ok(token.value), false;
      }
      if !keyFits {
        return p, Err(BadDeviceKey), false;
      }
      var r;
      q, r := RegisterKey(p, token, now, a);
      match r
      case Ok(t) =>
        token := token.(refresh := t.refresh);
        bearer, changed := Ok(t.value), true;
      case Err(e) => bearer, changed := Err(e), false;
    }
  }

  // ------------------------------------------------------- rotation

  predicate Fresh(p: Provider) { forall r | r in p.live :: r < p.issued }

  /** A session as sign-in leaves it: a registry token, and a refresh token that is live. */
  predicate SignedIn(p: Provider, tok: Token) {
    && Fresh(p)
    && tok.refresh.Some? && tok.refresh.value in p.live
    && (tok.value.Some? ==> tok.value.value.registry)
  }

  predicate NothingSpent(log: seq<Event>) {
    forall e | e in log :: e.Presented? ==> e.live
  }

  predicate OwnScope(log: seq<Event>) {
    forall e | e in log :: e.ShownToRegistry? ==> e.access.registry
  }

  /** No spent refresh token was presented, and the registry saw only its own scope. */
  predicate Clean(log: seq<Event>) { NothingSpent(log) && OwnScope(log) }

  lemma ExchangeKeeps(p: Provider, refresh: nat, narrow: bool, reply: Reply, now: int)
    requires Fresh(p) && refresh in p.live && Clean(p.log)
    ensures var (q, t) := Exchange(p, refresh, narrow, reply, now);
            && Fresh(q) && Clean(q.log) && p.issued <= q.issued
            && (refresh in q.live <==> !Spends(reply))
            && (forall r | r in q.live && r < p.issued :: r in p.live)
            && (t.Some? <==> reply.Granted?)
            && (t.Some? ==>
                  && t.value.value.Some? && t.value.value.value.registry == !narrow
                  && t.value.refresh.Some? && t.value.refresh.value in q.live
                  && (t.value.refresh.value == refresh <==> !reply.rotates)
                  && t.value.expiry == if reply.lifetime > 0 then Some(now + reply.lifetime) else None)
  {
  }

  /** One call from a session that is signed in. Nothing spent is presented, whatever
      comes of it; a success hands the VPN server a token not of the registry's scope
      and leaves the session signed in with the new refresh token. */
  lemma CallKeepsSession(p: Provider, tok: Token, now: int, a: Answers)
    requires SignedIn(p, tok) && Clean(p.log)
    ensures var (q, r) := Registered(p, tok, now, a);
            && Fresh(q) && Clean(q.log)
            && (r.Ok? ==>
                  && r.value.value.Some? && !r.value.value.value.registry
                  && SignedIn(q, tok.(refresh := r.value.refresh))
                  && (a.second.rotates ==> r.value.refresh != tok.refresh))
  {
    if a.discovers {
      if Lapsed(tok, now) {
        ExchangeKeeps(p, tok.refresh.value, false, a.first, now);
        var (q, t) := Exchange(p, tok.refresh.value, false, a.first, now);
        if t.Some? {
          NarrowKeeps(q, t.value.value, t.value.refresh.value, now, a);
        }
      } else {
        NarrowKeeps(p, tok.value, tok.refresh.value, now, a);
      }
    }
  }

  lemma NarrowKeeps(p: Provider, registry: Option<Access>, refresh: nat, now: int, a: Answers)
    requires Fresh(p) && refresh in p.live && Clean(p.log) && (registry.Some? ==> registry.value.registry)
    ensures var (q, r) := Narrowed(p, registry, refresh, now, a);
            && Fresh(q) && Clean(q.log) && p.issued <= q.issued
            && (forall x | x in q.live && x < p.issued :: x in p.live)
            && (r.Ok? ==>
                  && r.value.value.Some? && !r.value.value.value.registry
                  && r.value.refresh.Some? && r.value.refresh.value in q.live && a.second.Granted?
                  && (r.value.refresh.value == refresh <==> !a.second.rotates))
            && (refresh in q.live <==> !(registry.Some? && a.registers && Spends(a.second)))
  {
    var (s, ok) := Show(p, registry, a.registers);
    if ok {
      ExchangeKeeps(s, refresh, true, a.second, now);
    }
  }

  /** A call that cannot find the provider, or has no refresh token, asks nothing. */
  lemma NothingAsked(p: Provider, tok: Token, now: int, a: Answers)
    requires !a.discovers || tok.refresh.None?
    ensures Registered(p, tok, now, a) == (p, Err(if a.discovers then NoRefreshToken else NoEndpoint))
  {
  }

  /** What a call has asked, in its order: with discovery and a refresh token it refreshes
      first exactly if the sign-in token is missing or has less than a minute, or no known
      time, to live; otherwise it shows that token to the registry at once. */
  lemma RefreshesFirstExactly(p: Provider, tok: Token, now: int, a: Answers)
    requires a.discovers && tok.refresh.Some?
    ensures var log := Registered(p, tok, now, a).0.log;
            && p.log <= log && |log| > |p.log|
            && if tok.value.Some? && tok.expiry.Some? && tok.expiry.value - now >= 60_000_000_000 then
                 log[|p.log|] == ShownToRegistry(tok.value.value)
               else
                 log[|p.log|] == Presented(tok.refresh.value, tok.refresh.value in p.live)
  {
  }

  /** A call that succeeds has registered the key, with a token of the registry's scope, before
      it had one for the VPN server; and asked nothing else. */
  lemma SuccessLogs(p: Provider, tok: Token, now: int, a: Answers)
    requires SignedIn(p, tok) && Registered(p, tok, now, a).1.Ok?
    ensures var log := Registered(p, tok, now, a).0.log;
            var kept := tok.value.Some? && tok.expiry.Some? && tok.expiry.value - now >= 60_000_000_000;
            var first := if kept then [] else [Presented(tok.refresh.value, true)];
            exists shown: Access, refresh: nat :: shown.registry && (kept ==> tok.value == Some(shown))
              && log == p.log + first + [ShownToRegistry(shown)] + [Presented(refresh, true)]
  {
    if Lapsed(tok, now) {
      var (q, t) := Exchange(p, tok.refresh.value, false, a.first, now);
      ShowsAndNarrows(q, t.value.value, t.value.refresh.value, now, a);
    } else {
      assert p.log + [] == p.log;
      ShowsAndNarrows(p, tok.value, tok.refresh.value, now, a);
    }
  }

  lemma ShowsAndNarrows(p: Provider, registry: Option<Access>, refresh: nat, now: int, a: Answers)
    requires Narrowed(p, registry, refresh, now, a).1.Ok?
    ensures registry.Some? && registry.value.registry
    ensures Narrowed(p, registry, refresh, now, a).0.log ==
              p.log + [ShownToRegistry(registry.value)] + [Presented(refresh, true)]
  {
  }

  /** The calls of a session one after the other, each at its time with its answers: the
      provider, the session's token and the bearers at the end, if all succeed. */
  function Calls(p: Provider, tok: Token, calls: seq<(int, Answers)>): Option<(Provider, Token, seq<Option<Access>>)> {
    if calls == [] then Some((p, tok, []))
    else
      var before := Calls(p, tok, calls[..|calls|-1]);
      if before.None? then None
      else
        var (q, t, bearers) := before.value;
        var (r, out) := Registered(q, t, calls[|calls|-1].0, calls[|calls|-1].1);
        match out
        case Err(_) => None
        case Ok(v) => Some((r, t.(refresh := v.refresh), bearers + [v.value]))
  }

  /** Over any number of successful calls no spent refresh token is presented, the
      registry sees only tokens of its scope, and the VPN server only tokens without. */
  lemma {:induction false} RotationIsClean(p: Provider, tok: Token, calls: seq<(int, Answers)>)
    requires SignedIn(p, tok) && Clean(p.log) && Calls(p, tok, calls).Some?
    ensures var (q, t, bearers) := Calls(p, tok, calls).value;
            && SignedIn(q, t) && Clean(q.log) && |bearers| == |calls|
            && forall b | b in bearers :: b.Some? && !b.value.registry
    decreases |calls|
  {
    if calls != [] {
      RotationIsClean(p, tok, calls[..|calls|-1]);
      var (q, t, bearers) := Calls(p, tok, calls[..|calls|-1]).value;
      CallKeepsSession(q, t, calls[|calls|-1].0, calls[|calls|-1].1);
    }
  }

  // ------------------------------------------------------- what a call spends

  /** A call from a session that is signed in fails. */
  predicate Fails(tok: Token, now: int, a: Answers) {
    !a.discovers || (Lapsed(tok, now) && !a.first.Granted?) || !a.registers || !a.second.Granted?
  }

  /** One of its refreshes spends the session's refresh token: a first one, where the
      sign-in token has lapsed, or the last. */
  predicate SpendsToken(tok: Token, now: int, a: Answers) {
    a.discovers &&
    if Lapsed(tok, now) then Spends(a.first) || (a.first.Granted? && a.registers && Spends(a.second))
    else a.registers && Spends(a.second)
  }

  /** It gets as far as presenting a session's refresh token that is spent. */
  predicate Presents(tok: Token, now: int, a: Answers) {
    a.discovers && (Lapsed(tok, now) || a.registers)
  }

  /** What a call answers, and whether it spends the refresh token, is decided just so. */
  lemma CallSpendsExactly(p: Provider, tok: Token, now: int, a: Answers)
    requires SignedIn(p, tok) && Clean(p.log)
    ensures var (q, r) := Registered(p, tok, now, a);
            && (r.Err? <==> Fails(tok, now, a))
            && (tok.refresh.value !in q.live <==> SpendsToken(tok, now, a))
            && p.issued <= q.issued
  {
    var refresh := tok.refresh.value;
    if a.discovers {
      if Lapsed(tok, now) {
        ExchangeKeeps(p, refresh, false, a.first, now);
        var (q, t) := Exchange(p, refresh, false, a.first, now);
        if t.Some? {
          NarrowKeeps(q, t.value.value, t.value.refresh.value, now, a);
        }
      } else {
        NarrowKeeps(p, tok.value, refresh, now, a);
      }
    }
  }

  predicate Spent(p: Provider, tok: Token) {
    Fresh(p) && tok.refresh.Some? && tok.refresh.value < p.issued && tok.refresh.value !in p.live
  }

  /** A session whose refresh token is spent gets no token for a VPN server any more, and
      the provider sees the spent token exactly if the call gets that far. */
  lemma SpentFails(p: Provider, tok: Token, now: int, a: Answers)
    requires Spent(p, tok) && (tok.value.Some? ==> tok.value.value.registry)
    ensures var (q, r) := Registered(p, tok, now, a);
            && r.Err? && Spent(q, tok) && (OwnScope(p.log) ==> OwnScope(q.log))
            && (NothingSpent(q.log) <==> NothingSpent(p.log) && !Presents(tok, now, a))
  {
    var (q, r) := Registered(p, tok, now, a);
    var seen := Presented(tok.refresh.value, false);
    if Presents(tok, now, a) {
      assert seen in q.log;
    }
  }

  /** The calls of a session one after the other, whatever comes of each. */
  function Attempts(p: Provider, tok: Token, calls: seq<(int, Answers)>): (Provider, seq<Result<Token, Failure>>)
    decreases |calls|
  {
    if calls == [] then (p, [])
    else
      var (q, r) := Registered(p, tok, calls[0].0, calls[0].1);
      var next := if r.Ok? then tok.(refresh := r.value.refresh) else tok;
      var (q', rs) := Attempts(q, next, calls[1..]);
      (q', [r] + rs)
  }

  predicate SomePresents(tok: Token, calls: seq<(int, Answers)>) {
    exists k :: 0 <= k < |calls| && Presents(tok, calls[k].0, calls[k].1)
  }

  lemma {:induction false} SpentForGood(p: Provider, tok: Token, calls: seq<(int, Answers)>)
    requires Spent(p, tok) && (tok.value.Some? ==> tok.value.value.registry)
    ensures |Attempts(p, tok, calls).1| == |calls|
    ensures forall r | r in Attempts(p, tok, calls).1 :: r.Err?
    ensures var log := Attempts(p, tok, calls).0.log;
            && (NothingSpent(log) <==> NothingSpent(p.log) && !SomePresents(tok, calls))
            && (OwnScope(p.log) ==> OwnScope(log))
    decreases |calls|
  {
    if calls != [] {
      SpentFails(p, tok, calls[0].0, calls[0].1);
      var q := Registered(p, tok, calls[0].0, calls[0].1).0;
      SpentForGood(q, tok, calls[1..]);
      SomeLater(tok, calls);
    }
  }

  lemma SomeLater(tok: Token, calls: seq<(int, Answers)>)
    requires calls != []
    ensures SomePresents(tok, calls) <==> Presents(tok, calls[0].0, calls[0].1) || SomePresents(tok, calls[1..])
  {
    if SomePresents(tok, calls[1..]) {
      var k :| 0 <= k < |calls[1..]| && Presents(tok, calls[1..][k].0, calls[1..][k].1);
      assert Presents(tok, calls[k+1].0, calls[k+1].1);
    }
    if SomePresents(tok, calls) {
      var k :| 0 <= k < |calls| && Presents(tok, calls[k].0, calls[k].1);
      if k > 0 {
        assert Presents(tok, calls[1..][k-1].0, calls[1..][k-1].1);
      }
    }
  }

  /** A failed call spends the refresh token, and a later one presents it. */
  predicate Stale(tok: Token, calls: seq<(int, Answers)>, j: nat, k: nat) {
    && j < k < |calls|
    && Fails(tok, calls[j].0, calls[j].1) && SpendsToken(tok, calls[j].0, calls[j].1)
    && Presents(tok, calls[k].0, calls[k].1)
  }

  /** Over any calls of a session in a row, successful or not, a spent refresh token is
      presented exactly if a call that failed had spent it and a later one gets that far;
      the registry sees only its scope in any case. The condition is on what the session
      signed in with, the times and the answers alone. */
  lemma {:induction false} RotationExactly(p: Provider, tok: Token, calls: seq<(int, Answers)>)
    requires SignedIn(p, tok) && Clean(p.log)
    ensures var log := Attempts(p, tok, calls).0.log;
            && (NothingSpent(log) <==> !exists j, k :: Stale(tok, calls, j, k))
            && OwnScope(log)
    decreases |calls|
  {
    if calls != [] {
      var (now, a) := calls[0];
      var (q, r) := Registered(p, tok, now, a);
      CallKeepsSession(p, tok, now, a);
      CallSpendsExactly(p, tok, now, a);
      var next := if r.Ok? then tok.(refresh := r.value.refresh) else tok;
      if r.Err? && SpendsToken(tok, now, a) {
        SpentForGood(q, tok, calls[1..]);
        StaleFromFirst(tok, calls);
      } else {
        StaleLater(tok, next, calls);
        RotationExactly(q, next, calls[1..]);
      }
    }
  }

  lemma StaleFromFirst(tok: Token, calls: seq<(int, Answers)>)
    requires calls != [] && Fails(tok, calls[0].0, calls[0].1) && SpendsToken(tok, calls[0].0, calls[0].1)
    ensures SomePresents(tok, calls[1..]) <==> exists j, k :: Stale(tok, calls, j, k)
  {
    if SomePresents(tok, calls[1..]) {
      var k :| 0 <= k < |calls[1..]| && Presents(tok, calls[1..][k].0, calls[1..][k].1);
      assert Stale(tok, calls, 0, k + 1);
    }
    if j: nat, k: nat :| Stale(tok, calls, j, k) {
      assert calls[1..][k-1] == calls[k];
    }
  }

  /** The refresh token does not matter to the condition, nor does a first call that kept
      the session whole. */
  lemma StaleLater(tok: Token, next: Token, calls: seq<(int, Answers)>)
    requires calls != [] && next.value == tok.value && next.expiry == tok.expiry
    requires !(Fails(tok, calls[0].0, calls[0].1) && SpendsToken(tok, calls[0].0, calls[0].1))
    ensures (exists j, k :: Stale(tok, calls, j, k)) <==> (exists j, k :: Stale(next, calls[1..], j, k))
  {
    if j: nat, k: nat :| Stale(tok, calls, j, k) {
      assert j > 0 && calls[1..][j-1] == calls[j] && calls[1..][k-1] == calls[k];
      assert Stale(next, calls[1..], j - 1, k - 1);
    }
    if j: nat, k: nat :| Stale(next, calls[1..], j, k) {
      assert calls[1..][j] == calls[j+1] && calls[1..][k] == calls[k+1];
      assert Stale(tok, calls, j + 1, k + 1);
    }
  }

  /** It takes no malfunction: the registry refuses the key of a session whose sign-in
      token has lapsed, and the rotated refresh token is lost with the error. */
  lemma RefusalAfterLapseLosesToken()
    ensures var p := Provider({0}, 1, []);
            var tok := Token(None, None, Some(0));
            var (q, r) := Registered(p, tok, 0, Answers(true, Granted(true, 0), false, Refused));
            SignedIn(p, tok) && r == Err(KeyRefused) && Spent(q, tok)
  {
  }

  /** Two calls on one refresh token, the second begun before the first was given a new one
      and overtaken by it: what the second presents is spent exactly if the first spent it,
      and the second gets that far. Then the second fails. */
  lemma OverlappingCallsExactly(p: Provider, tok: Token, now: int, a: Answers, later: int, b: Answers)
    requires SignedIn(p, tok) && Clean(p.log)
    ensures var q := Registered(p, tok, now, a).0;
            var (q', r) := Registered(q, tok, later, b);
            && (NothingSpent(q'.log) <==> !(SpendsToken(tok, now, a) && Presents(tok, later, b))) && OwnScope(q'.log)
            && (SpendsToken(tok, now, a) ==> r.Err?)
  {
    CallKeepsSession(p, tok, now, a);
    CallSpendsExactly(p, tok, now, a);
    var q := Registered(p, tok, now, a).0;
    if SpendsToken(tok, now, a) {
      SpentFails(q, tok, later, b);
    } else {
      CallKeepsSession(q, tok, later, b);
    }
  }

  /** So it is whenever both get to their last refresh at a provider that rotates. */
  lemma OverlappingCallsPresentSpent(p: Provider, tok: Token, now: int, a: Answers, b: Answers)
    requires SignedIn(p, tok) && Clean(p.log) && !Lapsed(tok, now)
    requires Registered(p, tok, now, a).1.Ok? && a.second.rotates && b.discovers && b.registers
    ensures var q := Registered(p, tok, now, a).0;
            var (q', r) := Registered(q, tok, now, b);
            r == Err(RefreshFailed) && !NothingSpent(q'.log)
  {
    CallSpendsExactly(p, tok, now, a);
    OverlappingCallsExactly(p, tok, now, a, now, b);
  }
}
