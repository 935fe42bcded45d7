/** The app's stored session under overlapping calls: each call loads it, registers the key,
    and stores it again with the refresh token it was given. Loads, requests and saves of any
    number of calls interleave in any way, and a save may fail. */
module TokenStore {
  import opened TokenRaces
  import opened TokenRotation
  import opened Wrappers

  /** A call of session: about to load, in RegisterKey with what it loaded, or done. seen is
      how many refresh tokens had been spent when its own was last known to be good. */
  datatype Work = Waiting | Calling(tok: Token, call: Call, seen: nat) | Done

  /** spent counts the refresh tokens spent so far, by whichever call; saved is what the call
      that saved last had seen of that. */
  datatype App = App(p: Provider, store: Token, works: seq<Work>, spent: nat, saved: nat)

  datatype Move =
    | Load(work: nat, discovers: bool, now: int)
    | Ask(work: nat, reply: Reply, registers: bool, now: int)
    | Save(work: nat, ok: bool)

  function Start(p: Provider, tok: Token, n: nat): App {
    App(p, tok, seq(n, _ => Waiting), 0, 0)
  }

  function Asked(s: App, w: nat, m: TokenRaces.Move): App
    requires w < |s.works| && s.works[w].Calling?
  {
    var Calling(tok, c, seen) := s.works[w];
    var (q, d) := Act(s.p, c, m);
    var spends := Presenting(c) && c.refresh in s.p.live && Spends(m.reply);
    var spent := if spends then s.spent + 1 else s.spent;
    s.(p := q, spent := spent, works := s.works[w := Calling(tok, d, if spends then spent else seen)])
  }

  function After(s: App, m: Move): App {
    if m.work >= |s.works| then s
    else match (m, s.works[m.work])
      case (Load(w, discovers, now), Waiting) =>
        s.(works := s.works[w := Calling(s.store, Begin(s.store, discovers, now), s.saved)])
      case (Ask(w, reply, registers, now), Calling(_, _, _)) =>
        Asked(s, w, TokenRaces.Move(w, reply, registers, now))
      case (Save(w, ok), Calling(tok, Over(Ok(t)), seen)) =>
        var s1 := s.(works := s.works[w := Done]);
        if ok then s1.(store := tok.(refresh := t.refresh), saved := seen) else s1
      case _ => s
  }

  function Run(s: App, moves: seq<Move>): App {
    if moves == [] then s else After(Run(s, moves[..|moves|-1]), moves[|moves|-1])
  }

  // ------------------------------------------------------- what is kept

  /** A refresh token that is held somewhere: live exactly if none was spent since it was
      seen, and there is then but one. */
  predicate Tracked(s: App, current: nat, refresh: nat, seen: nat) {
    && refresh < s.p.issued && seen <= s.spent
    && (refresh in s.p.live <==> seen == s.spent)
    && (seen == s.spent ==> refresh == current)
  }

  predicate WorkTracked(s: App, current: nat, w: Work) {
    w.Calling? ==>
      match w.call
      case Over(Ok(t)) => t.refresh.Some? && Tracked(s, current, t.refresh.value, w.seen)
      case Over(Err(_)) => true
      case _ => Tracked(s, current, w.call.refresh, w.seen)
  }

  ghost predicate StoreOk(s: App, current: nat) {
    && Fresh(s.p) && current in s.p.live
    && s.store.refresh.Some? && Tracked(s, current, s.store.refresh.value, s.saved)
    && forall w | 0 <= w < |s.works| :: WorkTracked(s, current, s.works[w])
  }

  lemma StartOk(p: Provider, tok: Token, n: nat)
    requires SignedIn(p, tok)
    ensures StoreOk(Start(p, tok, n), tok.refresh.value)
  {
  }

  /** A request leaves the live tokens alone, or replaces the one it presents by a new one,
      which the call has if the answer reached it. */
  lemma ActReplaces(p: Provider, c: Call, m: TokenRaces.Move)
    requires Fresh(p)
    ensures var (q, d) := Act(p, c, m);
            var spends := Presenting(c) && c.refresh in p.live && Spends(m.reply);
            && Fresh(q) && p.issued <= q.issued
            && (if spends then p.issued < q.issued && q.live == p.live - {c.refresh} + {p.issued} else q.live == p.live)
            && (!d.Over? ==> !c.Over? && d.refresh == if spends then p.issued else c.refresh)
            && (d.Over? && d.result.Ok? && !c.Over? ==>
                  c.refresh in p.live && d.result.value.refresh == Some(if spends then p.issued else c.refresh))
            && (c.Over? ==> d == c)
            && (Presenting(c) && c.refresh !in p.live ==> d.Over? && d.result.Err?)
  {
  }

  lemma StillTracked(s: App, s': App, current: nat, next: nat, refresh: nat, seen: nat)
    requires Tracked(s, current, refresh, seen) && current in s.p.live && s.p.issued <= s'.p.issued
    requires if s'.spent == s.spent then next == current && s'.p.live == s.p.live
             else s'.spent == s.spent + 1 && next == s.p.issued && s'.p.live == s.p.live - {current} + {next}
    ensures Tracked(s', next, refresh, seen)
  {
  }

  lemma AskedKeeps(s: App, w: nat, m: TokenRaces.Move, current: nat) returns (next: nat)
    requires StoreOk(s, current) && w < |s.works| && s.works[w].Calling?
    ensures StoreOk(Asked(s, w, m), next)
  {
    var Calling(tok, c, seen) := s.works[w];
    var s' := Asked(s, w, m);
    assert WorkTracked(s, current, s.works[w]);
    ActReplaces(s.p, c, m);
    next := if s'.spent == s.spent then current else s.p.issued;
    StillTracked(s, s', current, next, s.store.refresh.value, s.saved);
    forall v | 0 <= v < |s'.works|
      ensures WorkTracked(s', next, s'.works[v])
    {
      assert WorkTracked(s, current, s.works[v]);
      WorkStillTracked(s, s', current, next, s.works[v]);
    }
  }

  lemma WorkStillTracked(s: App, s': App, current: nat, next: nat, w: Work)
    requires WorkTracked(s, current, w) && current in s.p.live && s.p.issued <= s'.p.issued
    requires if s'.spent == s.spent then next == current && s'.p.live == s.p.live
             else s'.spent == s.spent + 1 && next == s.p.issued && s'.p.live == s.p.live - {current} + {next}
    ensures WorkTracked(s', next, w)
  {
  }

  lemma AfterKeeps(s: App, m: Move, current: nat) returns (next: nat)
    requires StoreOk(s, current)
    ensures StoreOk(After(s, m), next)
  {
    next := current;
    if m.work < |s.works| {
      assert WorkTracked(s, current, s.works[m.work]);
      if m.Ask? && s.works[m.work].Calling? {
        next := AskedKeeps(s, m.work, TokenRaces.Move(m.work, m.reply, m.registers, m.now), current);
      } else if !m.Ask? {
        OthersKeep(s, m, current);
      }
    }
  }

  lemma OthersKeep(s: App, m: Move, current: nat)
    requires StoreOk(s, current) && !m.Ask? && m.work < |s.works|
    ensures StoreOk(After(s, m), current)
  {
    var s' := After(s, m);
    assert WorkTracked(s, current, s.works[m.work]);
    forall v | 0 <= v < |s'.works|
      ensures WorkTracked(s', current, s'.works[v])
    {
      assert WorkTracked(s, current, s.works[v]);
    }
  }

  lemma {:induction false} RunKeeps(p: Provider, tok: Token, n: nat, moves: seq<Move>) returns (current: nat)
    requires SignedIn(p, tok)
    ensures StoreOk(Run(Start(p, tok, n), moves), current)
    decreases |moves|
  {
    if moves == [] {
      StartOk(p, tok, n);
      current := tok.refresh.value;
    } else {
      var before := RunKeeps(p, tok, n, moves[..|moves|-1]);
      current := AfterKeeps(Run(Start(p, tok, n), moves[..|moves|-1]), moves[|moves|-1], before);
    }
  }

  // ------------------------------------------------------- the stored token

  /** At every moment of every interleaving the stored refresh token is one that the provider
      would take exactly if none was spent, by any call, since the last request of the call
      that saved last -- or since the sign-in, if none has saved. */
  lemma StoredIsLiveExactly(p: Provider, tok: Token, n: nat, moves: seq<Move>)
    requires SignedIn(p, tok)
    ensures var s := Run(Start(p, tok, n), moves);
            s.store.refresh.Some? && (s.store.refresh.value in s.p.live <==> s.saved == s.spent)
  {
    var _ := RunKeeps(p, tok, n, moves);
  }

  /** And a call's next request presents a spent one exactly if some was spent since its own
      was good, also where it loaded what another had saved. */
  lemma PresentedIsLiveExactly(p: Provider, tok: Token, n: nat, moves: seq<Move>, w: nat)
    requires SignedIn(p, tok)
    requires var s := Run(Start(p, tok, n), moves);
             w < |s.works| && s.works[w].Calling? && Presenting(s.works[w].call)
    ensures var s := Run(Start(p, tok, n), moves);
            s.works[w].call.refresh in s.p.live <==> s.works[w].seen == s.spent
  {
    var current := RunKeeps(p, tok, n, moves);
    assert WorkTracked(Run(Start(p, tok, n), moves), current, Run(Start(p, tok, n), moves).works[w]);
  }

  /** So a call's save makes the stored token good exactly if no token was spent since its
      last request, whatever stood there before: it may also put an older one over a newer.
      A save that fails leaves it as good as it was. */
  lemma SaveExactly(p: Provider, tok: Token, n: nat, moves: seq<Move>, w: nat, ok: bool)
    requires SignedIn(p, tok)
    requires var s := Run(Start(p, tok, n), moves);
             w < |s.works| && s.works[w].Calling? && s.works[w].call.Over? && s.works[w].call.result.Ok?
    ensures var s := Run(Start(p, tok, n), moves);
            var s' := Run(Start(p, tok, n), moves + [Save(w, ok)]);
            && s'.store.refresh.Some?
            && (s'.store.refresh.value in s'.p.live <==> (if ok then s.works[w].seen else s.saved) == s.spent)
  {
    assert (moves + [Save(w, ok)])[..|moves|] == moves;
    StoredIsLiveExactly(p, tok, n, moves + [Save(w, ok)]);
  }

  /** A save replaces nothing but the refresh token. */
  lemma {:induction false} StoreKeepsSignIn(p: Provider, tok: Token, n: nat, moves: seq<Move>)
    ensures var s := Run(Start(p, tok, n), moves);
            && s.store.value == tok.value && s.store.expiry == tok.expiry
            && forall w | w in s.works && w.Calling? :: w.tok.value == tok.value && w.tok.expiry == tok.expiry
    decreases |moves|
  {
    if moves != [] {
      StoreKeepsSignIn(p, tok, n, moves[..|moves|-1]);
      var s := Run(Start(p, tok, n), moves[..|moves|-1]);
      var m := moves[|moves|-1];
      if m.work < |s.works| {
        assert s.works[m.work] in s.works;
      }
    }
  }

  // ------------------------------------------------------- two ways to lose it

  const TOK := Token(Some(Access(9, true)), Some(3600_000_000_000), Some(0))
  const NEWLY := Provider({0}, 1, [])

  function Shows(w: nat): Move { Ask(w, Refused, true, 0) }

  function Narrows(w: nat, rotates: bool): Move { Ask(w, Granted(rotates, 0), true, 0) }

  lemma {:induction false} RunOn(s: App, a: seq<Move>, b: seq<Move>)
    ensures Run(s, a + b) == Run(Run(s, a), b)
    decreases |b|
  {
    if b == [] {
      assert a + b == a;
    } else {
      assert (a + b)[..|a + b| - 1] == a + b[..|b|-1];
      RunOn(s, a, b[..|b|-1]);
    }
  }

  lemma RunFour(s: App, a: Move, b: Move, c: Move, d: Move)
    ensures Run(s, [a, b, c, d]) == After(After(After(After(s, a), b), c), d)
  {
    assert [a, b, c, d][..3] == [a, b, c] && [a, b, c][..2] == [a, b] && [a, b][..1] == [a];
    assert Run(s, [a]) == After(s, a);
    assert Run(s, [a, b]) == After(After(s, a), b);
    assert Run(s, [a, b, c]) == After(After(After(s, a), b), c);
  }

  /** The provider rotated, and the new refresh token could not be stored. */
  lemma FailedSaveLoses()
    ensures SignedIn(NEWLY, TOK)
    ensures var s := Run(Start(NEWLY, TOK, 1), [Load(0, true, 0), Shows(0), Narrows(0, true), Save(0, false)]);
            s.works == [Done] && s.store == TOK && 0 !in s.p.live
  {
    RunFour(Start(NEWLY, TOK, 1), Load(0, true, 0), Shows(0), Narrows(0, true), Save(0, false));
  }

  /** Two calls load, and both succeed: the first is answered without a rotation, the second
      with one. The second saves first, and the first puts the spent token over the new one. */
  const BOTH_LOAD: seq<Move> := [Load(0, true, 0), Load(1, true, 0), Shows(0), Narrows(0, false)]
  const OLDER_LAST: seq<Move> := [Shows(1), Narrows(1, true), Save(1, true), Save(0, true)]

  lemma OlderSaveLoses()
    ensures var s := Run(Start(NEWLY, TOK, 2), BOTH_LOAD + OLDER_LAST);
            s.works == [Done, Done] && s.store == TOK && 0 !in s.p.live
  {
    var s := Start(NEWLY, TOK, 2);
    RunOn(s, BOTH_LOAD, OLDER_LAST);
    RunFour(s, Load(0, true, 0), Load(1, true, 0), Shows(0), Narrows(0, false));
    var half := Run(s, BOTH_LOAD);
    assert half.works == [Calling(TOK, Over(Ok(Token(Some(Access(1, false)), None, Some(0)))), 0),
                          Calling(TOK, Showing(TOK.value, 0), 0)];
    RunFour(half, Shows(1), Narrows(1, true), Save(1, true), Save(0, true));
  }
}
