/** What holds of every run of the helper, whatever its threads, the servers, the
    network and the clock do. */
module HelperTheorems {
  import opened HelperInvariant
  import opened HelperProtocol
  import opened HelperState
  import opened HelperSteps
  import opened Wrappers

  /** The state after the steps ls from s. */
  ghost function Run(env: Env, s: State, ls: seq<Label>): State
    decreases |ls|
  {
    if ls == [] || !Indexed(s) then s else Run(env, Step(env, s, ls[0]), ls[1..])
  }

  /** A run whose first step leads to s'. */
  lemma RunGoesOn(env: Env, s: State, l: Label, s': State, rest: seq<Label>)
    requires Indexed(s) && Step(env, s, l) == s'
    ensures Run(env, s, [l] + rest) == Run(env, s', rest)
  {
    assert ([l] + rest)[1..] == rest;
  }

  lemma {:induction false} RunKeepsInv(env: Env, s: State, ls: seq<Label>)
    requires Inv(env, s)
    ensures Inv(env, Run(env, s, ls))
    decreases |ls|
  {
    if ls != [] {
      InvIndexed(env, s);
      StepKeepsInv(env, s, ls[0]);
      RunKeepsInv(env, Step(env, s, ls[0]), ls[1..]);
    }
  }

  lemma InitInv(env: Env)
    ensures Inv(env, Init())
  {
    assert Outstanding([]) == {};
  }

  /** The state a helper started with env is in after the steps ls. */
  ghost function Reached(env: Env, ls: seq<Label>): (r: State)
    ensures Inv(env, r)
  {
    InitInv(env);
    RunKeepsInv(env, Init(), ls);
    Run(env, Init(), ls)
  }

  // ------------------------------------------------------- one tunnel, one generation

  lemma SessionsOk(env: Env, sh: Shared)
    requires SharedOk(env, sh)
    ensures forall i {:trigger sh.sessions[i]} | 0 <= i < |sh.sessions| :: SessionOk(env, sh, i)
  {
  }

  predicate IsLive(sh: Shared, i: nat) {
    sh.sess == Some(i)
  }

  /** Whenever the mutex is free the open tunnels are the live session's or none, no
      tunnel is closed twice, and the contexts not cancelled are the live session's. */
  lemma OneTunnel(env: Env, ls: seq<Label>)
    ensures var sh := Reached(env, ls).sh;
            && |sh.tunnels| == |sh.sessions|
            && (forall i | 0 <= i < |sh.sessions| ::
                  var x := sh.sessions[i];
                  && x.tun < |sh.tunnels| && sh.tunnels[x.tun] <= 1
                  && (sh.tunnels[x.tun] == 0 <==> IsLive(sh, i))
                  && (!x.cancelled <==> IsLive(sh, i)))
            && (forall i, j | 0 <= i < j < |sh.sessions| :: sh.sessions[i].tun != sh.sessions[j].tun)
            && (sh.sess.Some? ==> sh.sess.value < |sh.sessions|)
  {
    SessionsOk(env, Reached(env, ls).sh);
  }

  /** Comparing generations tells exactly whether a session is the live one. */
  lemma GenTellsLive(env: Env, ls: seq<Label>)
    ensures var sh := Reached(env, ls).sh;
            && (forall i | 0 <= i < |sh.sessions| ::
                  sh.sessions[i].gen != 0 && (sh.sessions[i].gen == sh.gen <==> IsLive(sh, i)))
            && (forall i, j | 0 <= i < j < |sh.sessions| :: sh.sessions[i].gen < sh.sessions[j].gen)
  {
    SessionsOk(env, Reached(env, ls).sh);
  }

  /** A live session's renewal loop has not ended. */
  lemma LiveSessionHasRenewer(env: Env, ls: seq<Label>)
    ensures var s := Reached(env, ls);
            s.sh.sess.Some? ==>
              && s.sh.sess.value < |s.lineage|
              && var loop := s.lineage[s.sh.sess.value].loop;
                 loop < |s.threads| && RunsLoopOf(s.threads[loop], s.sh.sess.value)
  {
  }

  /** And no session, live or not, ever has two. */
  lemma OneLoopEach(env: Env, ls: seq<Label>, i: nat, t: nat, u: nat)
    requires t < |Reached(env, ls).threads| && RunsLoopOf(Reached(env, ls).threads[t], i)
    requires u < |Reached(env, ls).threads| && RunsLoopOf(Reached(env, ls).threads[u], i)
    ensures t == u
  {
    var s := Reached(env, ls);
    LoopIsNamed(env, s, i, t);
    LoopIsNamed(env, s, i, u);
  }

  lemma LoopIsNamed(env: Env, s: State, i: nat, t: nat)
    requires Inv(env, s) && t < |s.threads| && RunsLoopOf(s.threads[t], i)
    ensures i < |s.lineage| && s.lineage[i].loop == t
  {
    assert ThreadOk(env, s.sh, s.lineage, t, s.threads[t]);
  }

  // ------------------------------------------------------- what a step may change

  lemma StepEvolves(env: Env, s: State, l: Label)
    requires Inv(env, s) && Indexed(s)
    ensures var s' := Step(env, s, l);
            Evolves(s.sh, s'.sh) && s.lineage <= s'.lineage && s.log <= s'.log
  {
    SameEvolves(s.sh);
    match l
    case RenewNow(spec) =>
      if spec.Some? && spec.value.bearer != "" && s.sh.sess.Some? {
        var i := s.sh.sess.value;
        assert SessionOk(env, s.sh, i);
        WriteKeeps(env, s.sh, i, BringBearer(s.sh, spec.value.bearer).sessions[i], s.sh.lastErr, None);
      }
    case Down => StopKeeps(env, s.sh);
    case Shutdown => StopKeeps(env, s.sh);
    case Go(tid, input) =>
      if tid < |s.threads| {
        assert ThreadIndexed(s.sh, s.threads[tid]);
        AdvanceEvolves(env, s, tid, input);
      }
    case _ =>
  }

  lemma CommitEvolves(env: Env, s: State, tid: nat, up: Option<string>, now: int)
    requires Inv(env, s) && Ready(s, tid) && s.threads[tid].Committing?
    ensures var s' := EnrollCommits(s, tid, up, now);
            Evolves(s.sh, s'.sh) && s.lineage <= s'.lineage && s.log <= s'.log
  {
    var th := s.threads[tid];
    assert ThreadOk(env, s.sh, s.lineage, tid, th);
    CommitKeeps(env, s.sh, th.job, th.grant, up, now);
  }

  /** Threads that neither commit, drop nor write leave the guarded state alone. */
  lemma OthersLeaveShared(env: Env, s: State, tid: nat, input: Input)
    requires Ready(s, tid)
    requires var th := s.threads[tid];
             !th.Committing? && !th.Dropping? && !th.Renewed? && !th.Failing? && !(th.Blocked? && input.Wake?)
    ensures var s' := Advance(env, s, tid, input);
            s'.sh == s.sh && s'.lineage == s.lineage && s.log <= s'.log
  {
  }

  lemma WritesEvolve(env: Env, s: State, tid: nat, input: Input)
    requires Ready(s, tid)
    requires var th := s.threads[tid]; th.Renewed? || th.Failing? || (th.Blocked? && input.Wake?)
    ensures var s' := Advance(env, s, tid, input);
            Evolves(s.sh, s'.sh) && s'.lineage == s.lineage && s'.log == s.log
  {
    SameEvolves(s.sh);
    match (s.threads[tid], input)
    case (Blocked(i, _), Wake) => WriteEvolves(s.sh, i, TakeWake(s.sh, i));
    case (Renewed(i, _, lease), Lock(_, now)) => WriteEvolves(s.sh, i, Renew(s.sh, i, lease, now));
    case (Failing(i, _, why), Lock(_, now)) => WriteEvolves(s.sh, i, RetryLater(s.sh, i, why, now));
    case _ =>
  }

  lemma AdvanceEvolves(env: Env, s: State, tid: nat, input: Input)
    requires Inv(env, s) && Ready(s, tid)
    ensures var s' := Advance(env, s, tid, input);
            Evolves(s.sh, s'.sh) && s.lineage <= s'.lineage && s.log <= s'.log
  {
    SameEvolves(s.sh);
    match s.threads[tid]
    case Committing(_, _, _) =>
      if input.Lock? {
        CommitEvolves(env, s, tid, input.up, input.now);
      }
    case Dropping(i, _, why) => DropKeeps(env, s.sh, i, why);
    case th =>
      if th.Renewed? || th.Failing? || (th.Blocked? && input.Wake?) {
        WritesEvolve(env, s, tid, input);
      } else {
        OthersLeaveShared(env, s, tid, input);
      }
  }

  lemma WriteEvolves(sh: Shared, i: nat, sh': Shared)
    requires i < |sh.sessions| == |sh'.sessions| && SessionEvolves(sh.sessions[i], sh'.sessions[i])
    requires sh' == sh.(sessions := sh.sessions[i := sh'.sessions[i]], lastErr := sh'.lastErr)
    ensures Evolves(sh, sh') && Evolves(sh, sh)
  {
  }

  /** A session that stopped being live never is again, no closed tunnel opens, and a
      session keeps its generation, server, key and tunnel, and its spec but for the
      bearer. */
  lemma {:induction false} RunEvolves(env: Env, s: State, ls: seq<Label>)
    requires Inv(env, s)
    ensures Evolves(s.sh, Run(env, s, ls).sh)
    decreases |ls|
  {
    if ls == [] {
      SameEvolves(s.sh);
    } else {
      InvIndexed(env, s);
      StepKeepsInv(env, s, ls[0]);
      StepEvolves(env, s, ls[0]);
      var s1 := Step(env, s, ls[0]);
      RunEvolves(env, s1, ls[1..]);
      EvolvesTransitive(s.sh, s1.sh, Run(env, s1, ls[1..]).sh);
    }
  }

  lemma {:induction false} RunConcat(env: Env, s: State, a: seq<Label>, b: seq<Label>)
    requires Inv(env, s)
    ensures Run(env, s, a + b) == Run(env, Run(env, s, a), b)
    decreases |a|
  {
    if a == [] {
      assert a + b == b;
    } else {
      InvIndexed(env, s);
      StepKeepsInv(env, s, a[0]);
      assert (a + b)[0] == a[0] && (a + b)[1..] == a[1..] + b;
      RunConcat(env, Step(env, s, a[0]), a[1..], b);
    }
  }

  /** No ABA: once not live, never live again, at any later time. */
  lemma DeadStaysDead(env: Env, before: seq<Label>, after: seq<Label>, i: nat)
    requires i < |Reached(env, before).sh.sessions| && !IsLive(Reached(env, before).sh, i)
    ensures !IsLive(Reached(env, before + after).sh, i)
  {
    InitInv(env);
    RunConcat(env, Init(), before, after);
    RunEvolves(env, Reached(env, before), after);
  }
}
