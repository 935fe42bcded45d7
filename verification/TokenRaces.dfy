/** Calls that overlap: each loads the stored session and registers the key, and none waits
    for another. Any number of them on one refresh token, their requests interleaved in
    any way. */
module TokenRaces {
  import opened TokenRotation
  import opened Wrappers

  /** Where a call stands: about to refresh, to show its token to the registry, or to
      exchange its refresh token for the VPN server's. */
  datatype Call =
    | Refreshing(refresh: nat)
    | Showing(registry: Option<Access>, refresh: nat)
    | Narrowing(refresh: nat)
    | Over(result: Result<Token, Failure>)

  /** One request of a call, and its answer. */
  datatype Move = Move(call: nat, reply: Reply, registers: bool, now: int)

  datatype State = State(p: Provider, calls: seq<Call>)

  /** RegisterKey up to its first request, with the session's token. */
  function Begin(tok: Token, discovers: bool, now: int): Call {
    if !discovers then Over(Err(NoEndpoint))
    else if tok.refresh.None? then Over(Err(NoRefreshToken))
    else if Lapsed(tok, now) then Refreshing(tok.refresh.value)
    else Showing(tok.value, tok.refresh.value)
  }

  /** A call's next request. */
  function Act(p: Provider, c: Call, m: Move): (Provider, Call) {
    match c
    case Refreshing(refresh) =>
      var (q, t) := Exchange(p, refresh, false, m.reply, m.now);
      (q, if t.None? || t.value.refresh.None? then Over(Err(RefreshFailed))
          else Showing(t.value.value, t.value.refresh.value))
    case Showing(registry, refresh) =>
      var (q, ok) := Show(p, registry, m.registers);
      (q, if ok then Narrowing(refresh) else Over(Err(KeyRefused)))
    case Narrowing(refresh) =>
      var (q, t) := Exchange(p, refresh, true, m.reply, m.now);
      (q, Over(if t.None? then Err(RefreshFailed) else Ok(t.value)))
    case Over(_) => (p, c)
  }

  function After(s: State, m: Move): State {
    if m.call < |s.calls| then
      var (q, c) := Act(s.p, s.calls[m.call], m);
      State(q, s.calls[m.call := c])
    else s
  }

  function Run(s: State, moves: seq<Move>): State {
    if moves == [] then s else After(Run(s, moves[..|moves|-1]), moves[|moves|-1])
  }

  /** A call that nothing comes between is RegisterKey. */
  lemma AloneIsRegistered(p: Provider, tok: Token, now: int, a: Answers)
    ensures var first := Move(0, a.first, a.registers, now);
            var last := Move(0, a.second, a.registers, now);
            var moves := if Lapsed(tok, now) then [first, last, last] else [last, last];
            var s := Run(State(p, [Begin(tok, a.discovers, now)]), moves);
            var (q, r) := Registered(p, tok, now, a);
            s == State(q, [Over(r)])
  {
    var first, last := Move(0, a.first, a.registers, now), Move(0, a.second, a.registers, now);
    var s := State(p, [Begin(tok, a.discovers, now)]);
    var moves := if Lapsed(tok, now) then [first, last, last] else [last, last];
    assert moves[..1] == [moves[0]] && moves[..1][..0] == [];
    assert Run(s, [moves[0]]) == After(s, moves[0]);
    assert [moves[0], moves[1]][..1] == [moves[0]];
    assert Run(s, [moves[0], moves[1]]) == After(After(s, moves[0]), moves[1]);
    if Lapsed(tok, now) {
      assert moves[..2] == [moves[0], moves[1]];
    }
  }

  // ------------------------------------------------------- by the answers alone

  /** Where a call stands, and whether its refresh token is by now one of its own. */
  datatype Phase = First | Register(own: bool) | Last(own: bool) | End

  function PhaseOf(c: Call, shared: nat): Phase {
    match c
    case Refreshing(_) => First
    case Showing(_, refresh) => Register(refresh != shared)
    case Narrowing(refresh) => Last(refresh != shared)
    case Over(_) => End
  }

  /** How a call goes on, as long as none of its refresh tokens is spent by another. */
  function Next(ph: Phase, m: Move): Phase {
    match ph
    case First => if m.reply.Granted? then Register(m.reply.rotates) else End
    case Register(own) => if m.registers then Last(own) else End
    case Last(_) => End
    case End => End
  }

  function Starting(tok: Token, begins: seq<(bool, int)>): seq<Call> {
    seq(|begins|, i requires 0 <= i < |begins| => Begin(tok, begins[i].0, begins[i].1))
  }

  /** Call c after the moves: only its own count. */
  function Stage(tok: Token, begins: seq<(bool, int)>, c: nat, moves: seq<Move>): Phase
    requires c < |begins| && tok.refresh.Some?
  {
    if moves == [] then PhaseOf(Begin(tok, begins[c].0, begins[c].1), tok.refresh.value)
    else
      var ph := Stage(tok, begins, c, moves[..|moves|-1]);
      if moves[|moves|-1].call == c then Next(ph, moves[|moves|-1]) else ph
  }

  predicate PresentsShared(ph: Phase) { ph == First || ph == Last(false) }

  /** The k-th move presents the session's refresh token. */
  predicate PresentsAt(tok: Token, begins: seq<(bool, int)>, moves: seq<Move>, k: nat)
    requires tok.refresh.Some?
  {
    k < |moves| && moves[k].call < |begins| && PresentsShared(Stage(tok, begins, moves[k].call, moves[..k]))
  }

  predicate SpendsAt(tok: Token, begins: seq<(bool, int)>, moves: seq<Move>, k: nat)
    requires tok.refresh.Some?
  {
    PresentsAt(tok, begins, moves, k) && Spends(moves[k].reply)
  }

  /** One call's request spends it, and another call's presents it later. */
  predicate Overtaken(tok: Token, begins: seq<(bool, int)>, moves: seq<Move>, i: nat, j: nat)
    requires tok.refresh.Some?
  {
    && i < j && SpendsAt(tok, begins, moves, i) && PresentsAt(tok, begins, moves, j)
    && moves[i].call != moves[j].call
  }

  predicate OvertakenAt(tok: Token, begins: seq<(bool, int)>, moves: seq<Move>, j: nat)
    requires tok.refresh.Some?
  {
    exists i: nat :: i < |moves| && Overtaken(tok, begins, moves, i, j)
  }

  predicate SomeOvertaken(tok: Token, begins: seq<(bool, int)>, moves: seq<Move>)
    requires tok.refresh.Some?
  {
    exists j: nat :: j < |moves| && OvertakenAt(tok, begins, moves, j)
  }

  // ------------------------------------------------------- until a spent token is presented

  /** The next request of c presents a refresh token. */
  predicate Presenting(c: Call) { c.Refreshing? || c.Narrowing? }

  /** A call that has no more use for the shared refresh token. */
  predicate Parted(ph: Phase) { ph == Register(true) || ph == Last(true) || ph == End }

  predicate HasRefresh(c: Call) { !c.Over? }

  ghost predicate CallSound(p: Provider, c: Call, shared: nat) {
    && (c.Refreshing? ==> c.refresh == shared)
    && (HasRefresh(c) && c.refresh != shared ==> c.refresh in p.live)
    && (c.Showing? ==> c.registry.Some? && c.registry.value.registry)
  }

  ghost predicate Apart(calls: seq<Call>, shared: nat) {
    forall c, d | 0 <= c < d < |calls| && HasRefresh(calls[c]) && HasRefresh(calls[d]) && calls[c].refresh != shared ::
      calls[c].refresh != calls[d].refresh
  }

  /** The calls stand where their answers alone say, each refresh token of their own is
      live, and the shared one is unless a move has spent it. */
  ghost predicate Matches(tok: Token, begins: seq<(bool, int)>, moves: seq<Move>, s: State)
    requires tok.refresh.Some?
  {
    var shared := tok.refresh.value;
    && |s.calls| == |begins|
    && Fresh(s.p) && Clean(s.p.log) && shared < s.p.issued
    && (forall c | 0 <= c < |begins| ::
          CallSound(s.p, s.calls[c], shared) && PhaseOf(s.calls[c], shared) == Stage(tok, begins, c, moves))
    && Apart(s.calls, shared)
    && (shared in s.p.live <==> forall k: nat :: !SpendsAt(tok, begins, moves, k))
    && (forall k: nat | SpendsAt(tok, begins, moves, k) :: Parted(Stage(tok, begins, moves[k].call, moves)))
  }

  lemma EarlierMoves(tok: Token, begins: seq<(bool, int)>, moves: seq<Move>, k: nat)
    requires tok.refresh.Some? && k < |moves| - 1
    ensures PresentsAt(tok, begins, moves, k) == PresentsAt(tok, begins, moves[..|moves|-1], k)
    ensures SpendsAt(tok, begins, moves, k) == SpendsAt(tok, begins, moves[..|moves|-1], k)
  {
    assert moves[..k] == moves[..|moves|-1][..k];
  }

  /** A request that presents no spent token keeps its call sound, where its answer says,
      and apart from the others; it spends at most the token it presents. */
  lemma ActKeeps(p: Provider, c: Call, m: Move, shared: nat)
    requires Fresh(p) && Clean(p.log) && shared < p.issued && CallSound(p, c, shared)
    requires Presenting(c) ==> c.refresh in p.live
    ensures var (q, d) := Act(p, c, m);
            && Fresh(q) && Clean(q.log) && p.issued <= q.issued && CallSound(q, d, shared)
            && PhaseOf(d, shared) == Next(PhaseOf(c, shared), m)
            && (HasRefresh(d) ==> d.refresh >= p.issued || (HasRefresh(c) && d.refresh == c.refresh))
            && (forall r | r in p.live && !(HasRefresh(c) && r == c.refresh) :: r in q.live)
            && (forall r | r in q.live && r < p.issued :: r in p.live)
            && (HasRefresh(c) && c.refresh in p.live ==>
                  (c.refresh !in q.live <==> !c.Showing? && Spends(m.reply)))
  {
    match c
    case Refreshing(refresh) => ExchangeKeeps(p, refresh, false, m.reply, m.now);
    case Narrowing(refresh) => ExchangeKeeps(p, refresh, true, m.reply, m.now);
    case _ =>
  }

  /** One that presents a spent token shows it. */
  lemma ActSpoils(p: Provider, c: Call, m: Move)
    requires Presenting(c) && c.refresh !in p.live
    ensures !NothingSpent(Act(p, c, m).0.log)
  {
    assert Presented(c.refresh, false) in Act(p, c, m).0.log;
  }

  lemma ActLogs(p: Provider, c: Call, m: Move)
    ensures p.log <= Act(p, c, m).0.log
  {
  }

  lemma SpoiledStays(s: State, m: Move)
    requires !NothingSpent(s.p.log)
    ensures !NothingSpent(After(s, m).p.log)
  {
    if m.call < |s.calls| {
      ActLogs(s.p, s.calls[m.call], m);
      var e :| e in s.p.log && e.Presented? && !e.live;
      assert e in After(s, m).p.log;
    }
  }

  /** The step from one move to the next, where the move presents no spent token. */
  lemma MoveKeeps(tok: Token, begins: seq<(bool, int)>, moves: seq<Move>, s: State)
    requires tok.refresh.Some? && moves != [] && Matches(tok, begins, moves[..|moves|-1], s)
    requires var m := moves[|moves|-1];
             m.call < |begins| && (Presenting(s.calls[m.call]) ==> s.calls[m.call].refresh in s.p.live)
    ensures Matches(tok, begins, moves, After(s, moves[|moves|-1]))
  {
    CallsAfter(tok, begins, moves, s);
    SharedAfter(tok, begins, moves, s);
    PartedAfter(tok, begins, moves, s);
  }

  lemma CallsAfter(tok: Token, begins: seq<(bool, int)>, moves: seq<Move>, s: State)
    requires tok.refresh.Some? && moves != [] && Matches(tok, begins, moves[..|moves|-1], s)
    requires var m := moves[|moves|-1];
             m.call < |begins| && (Presenting(s.calls[m.call]) ==> s.calls[m.call].refresh in s.p.live)
    ensures var s', shared := After(s, moves[|moves|-1]), tok.refresh.value;
            && |s'.calls| == |begins| && Fresh(s'.p) && Clean(s'.p.log) && shared < s'.p.issued
            && (forall c | 0 <= c < |begins| ::
                  CallSound(s'.p, s'.calls[c], shared) && PhaseOf(s'.calls[c], shared) == Stage(tok, begins, c, moves))
            && Apart(s'.calls, shared)
  {
    var m, shared := moves[|moves|-1], tok.refresh.value;
    ActKeeps(s.p, s.calls[m.call], m, shared);
    OthersApart(s, After(s, m), m.call, shared);
  }

  /** A call that spent the shared token has no more use for it. */
  lemma PartedAfter(tok: Token, begins: seq<(bool, int)>, moves: seq<Move>, s: State)
    requires tok.refresh.Some? && moves != [] && Matches(tok, begins, moves[..|moves|-1], s)
    ensures forall k: nat | SpendsAt(tok, begins, moves, k) :: Parted(Stage(tok, begins, moves[k].call, moves))
  {
    var n := |moves| - 1;
    forall k: nat | SpendsAt(tok, begins, moves, k)
      ensures Parted(Stage(tok, begins, moves[k].call, moves))
    {
      if k < n {
        EarlierMoves(tok, begins, moves, k);
        assert Parted(Stage(tok, begins, moves[k].call, moves[..n]));
      }
    }
  }

  lemma OthersApart(s: State, s': State, i: nat, shared: nat)
    requires i < |s.calls| && Apart(s.calls, shared) && Fresh(s.p)
    requires forall c | 0 <= c < |s.calls| :: CallSound(s.p, s.calls[c], shared)
    requires |s'.calls| == |s.calls| && s'.calls == s.calls[i := s'.calls[i]] && shared < s.p.issued
    requires var c, d := s.calls[i], s'.calls[i];
             && (HasRefresh(d) ==> d.refresh >= s.p.issued || (HasRefresh(c) && d.refresh == c.refresh))
             && (forall r | r in s.p.live && !(HasRefresh(c) && r == c.refresh) :: r in s'.p.live)
    ensures Apart(s'.calls, shared)
    ensures forall c | 0 <= c < |s.calls| && c != i :: CallSound(s'.p, s'.calls[c], shared)
  {
  }

  lemma SharedAfter(tok: Token, begins: seq<(bool, int)>, moves: seq<Move>, s: State)
    requires tok.refresh.Some? && moves != [] && Matches(tok, begins, moves[..|moves|-1], s)
    requires var m := moves[|moves|-1];
             m.call < |begins| && (Presenting(s.calls[m.call]) ==> s.calls[m.call].refresh in s.p.live)
    ensures var s' := After(s, moves[|moves|-1]);
            tok.refresh.value in s'.p.live <==> forall k: nat :: !SpendsAt(tok, begins, moves, k)
  {
    var n := |moves| - 1;
    var m, init, shared := moves[n], moves[..n], tok.refresh.value;
    var c := s.calls[m.call];
    ActKeeps(s.p, c, m, shared);
    var s' := After(s, m);
    assert PhaseOf(c, shared) == Stage(tok, begins, m.call, init);
    assert SpendsAt(tok, begins, moves, n) <==> !c.Showing? && HasRefresh(c) && c.refresh == shared && Spends(m.reply);
    if shared in s'.p.live {
      forall k: nat
        ensures !SpendsAt(tok, begins, moves, k)
      {
        if k < n {
          EarlierMoves(tok, begins, moves, k);
        }
      }
    } else if shared in s.p.live {
      assert SpendsAt(tok, begins, moves, n);
    } else {
      var k: nat :| SpendsAt(tok, begins, init, k);
      EarlierMoves(tok, begins, moves, k);
    }
  }

  lemma StartMatches(tok: Token, begins: seq<(bool, int)>, p: Provider)
    requires SignedIn(p, tok) && Clean(p.log)
    ensures Matches(tok, begins, [], State(p, Starting(tok, begins)))
  {
  }

  lemma {:induction false} RaceExactly(p: Provider, tok: Token, begins: seq<(bool, int)>, moves: seq<Move>)
    requires SignedIn(p, tok) && Clean(p.log)
    ensures var s := Run(State(p, Starting(tok, begins)), moves);
            if SomeOvertaken(tok, begins, moves) then !NothingSpent(s.p.log)
            else Matches(tok, begins, moves, s)
    decreases |moves|
  {
    if moves == [] {
      StartMatches(tok, begins, p);
    } else {
      var n := |moves| - 1;
      var m, init := moves[n], moves[..n];
      RaceExactly(p, tok, begins, init);
      var s := Run(State(p, Starting(tok, begins)), init);
      OvertakenBy(tok, begins, moves);
      if SomeOvertaken(tok, begins, init) {
        SpoiledStays(s, m);
      } else if m.call >= |begins| {
        StrangerKeeps(tok, begins, moves, s);
      } else {
        LastMove(tok, begins, moves, s);
      }
    }
  }

  lemma OvertakenBy(tok: Token, begins: seq<(bool, int)>, moves: seq<Move>)
    requires tok.refresh.Some? && moves != []
    ensures SomeOvertaken(tok, begins, moves)
       <==> SomeOvertaken(tok, begins, moves[..|moves|-1]) || OvertakenAt(tok, begins, moves, |moves| - 1)
  {
    var n := |moves| - 1;
    forall j: nat | j < n
      ensures OvertakenAt(tok, begins, moves, j) <==> OvertakenAt(tok, begins, moves[..n], j)
    {
      forall i: nat | i < n
        ensures Overtaken(tok, begins, moves, i, j) <==> Overtaken(tok, begins, moves[..n], i, j)
      {
        EarlierMoves(tok, begins, moves, i);
        EarlierMoves(tok, begins, moves, j);
      }
    }
  }

  /** A move of no call changes nothing. */
  lemma StrangerKeeps(tok: Token, begins: seq<(bool, int)>, moves: seq<Move>, s: State)
    requires tok.refresh.Some? && moves != [] && Matches(tok, begins, moves[..|moves|-1], s)
    requires moves[|moves|-1].call >= |begins|
    ensures Matches(tok, begins, moves, s) && !OvertakenAt(tok, begins, moves, |moves| - 1)
  {
    var n := |moves| - 1;
    forall k: nat
      ensures SpendsAt(tok, begins, moves, k) <==> SpendsAt(tok, begins, moves[..n], k)
    {
      if k < n {
        EarlierMoves(tok, begins, moves, k);
      }
    }
  }

  lemma LastMove(tok: Token, begins: seq<(bool, int)>, moves: seq<Move>, s: State)
    requires tok.refresh.Some? && moves != [] && Matches(tok, begins, moves[..|moves|-1], s)
    requires moves[|moves|-1].call < |begins|
    ensures if OvertakenAt(tok, begins, moves, |moves| - 1)
            then !NothingSpent(After(s, moves[|moves|-1]).p.log)
            else Matches(tok, begins, moves, After(s, moves[|moves|-1]))
  {
    var n := |moves| - 1;
    var m, init, shared := moves[n], moves[..n], tok.refresh.value;
    var c := s.calls[m.call];
    assert CallSound(s.p, c, shared) && PhaseOf(c, shared) == Stage(tok, begins, m.call, init);
    if Presenting(c) && c.refresh !in s.p.live {
      assert c.refresh == shared && PresentsAt(tok, begins, moves, n);
      var k: nat :| SpendsAt(tok, begins, init, k);
      assert Parted(Stage(tok, begins, init[k].call, init));
      EarlierMoves(tok, begins, moves, k);
      assert Overtaken(tok, begins, moves, k, n);
      ActSpoils(s.p, c, m);
    } else {
      forall i: nat | i < n
        ensures !Overtaken(tok, begins, moves, i, n)
      {
        EarlierMoves(tok, begins, moves, i);
      }
      MoveKeeps(tok, begins, moves, s);
    }
  }

  /** However the requests of any number of calls on one refresh token interleave, a spent
      one is presented exactly if some call's request spends the session's and a later
      request of another presents it -- by what each call is answered alone. */
  lemma InterleavedCallsExactly(p: Provider, tok: Token, begins: seq<(bool, int)>, moves: seq<Move>)
    requires SignedIn(p, tok) && Clean(p.log)
    ensures NothingSpent(Run(State(p, Starting(tok, begins)), moves).p.log)
       <==> !SomeOvertaken(tok, begins, moves)
  {
    RaceExactly(p, tok, begins, moves);
  }
}
