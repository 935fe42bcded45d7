/** The helper comes to rest: with no new request, no timer and no wake, whatever the
    servers, the tunnels and the clock answer, only so many steps are left, and once none
    is left every thread has ended or waits on its timer. */
module HelperQuiescence {
  import opened HelperConservation
  import opened HelperInvariant
  import opened HelperProtocol
  import opened HelperRaces
  import opened HelperState
  import opened HelperSteps
  import opened HelperTheorems
  import opened Wrappers

  /** The most steps that a thread and what it starts can take, up to the next timer. */
  function Left(t: Thread): nat {
    match t
    case Done => 0
    case Blocked(_, _) => 0
    case LoopTop(_) => 1
    case GivingBack(_) => 1
    case Dropping(_, _, _) => 1
    case Renewed(_, _, _) => 2
    case Failing(_, _, _) => 2
    case Committing(_, _, _) => 3
    case Enrolling(_, _) => 4
    case Forgotten(_, _) => 5
    case Beating(_, _) => 6
    case RenewStart(_, _) => 7
  }

  function AllLeft(ts: seq<Thread>): nat {
    if ts == [] then 0 else AllLeft(ts[..|ts|-1]) + Left(ts[|ts|-1])
  }

  lemma {:induction false} LeftMoved(ts: seq<Thread>, i: nat, t: Thread)
    requires i < |ts|
    ensures AllLeft(ts[i := t]) == AllLeft(ts) - Left(ts[i]) + Left(t)
    decreases |ts|
  {
    var n := |ts| - 1;
    if i < n {
      LeftMoved(ts[..n], i, t);
      assert ts[i := t][..n] == ts[..n][i := t];
    } else {
      assert ts[i := t][..n] == ts[..n];
    }
  }

  lemma LeftSpawned(ts: seq<Thread>, t: Thread)
    ensures AllLeft(ts + [t]) == AllLeft(ts) + Left(t)
  {
    assert (ts + [t])[..|ts|] == ts;
  }

  /** The input is what t waits for, other than a timer, a wake or a cancelled context. */
  predicate Awaits(t: Thread, input: Input) {
    match t
    case Done => false
    case Blocked(_, _) => false
    case Enrolling(_, _) => input.EnrollAnswer?
    case Beating(_, _) => input.BeatAnswer?
    case _ => input.Lock?
  }

  lemma LeftGrown(ts: seq<Thread>, i: nat, t: Thread, back: seq<Thread>, more: seq<Thread>)
    requires i < |ts| && |back| <= 1 && |more| <= 1
    ensures AllLeft(ts[i := t] + back + more) ==
              AllLeft(ts) - Left(ts[i]) + Left(t)
              + (if back == [] then 0 else Left(back[0])) + (if more == [] then 0 else Left(more[0]))
  {
    LeftMoved(ts, i, t);
    if back == [] {
      assert ts[i := t] + back == ts[i := t];
    } else {
      assert back == [back[0]];
      LeftSpawned(ts[i := t], back[0]);
    }
    if more == [] {
      assert ts[i := t] + back + more == ts[i := t] + back;
    } else {
      assert more == [more[0]];
      LeftSpawned(ts[i := t] + back, more[0]);
    }
  }

  lemma SettlesWorks(s: State, s': State, tid: nat, failed: bool, th: Thread, more: seq<Thread>)
    requires Ready(s, tid) && s.threads[tid].Committing? && Settles(s, s', tid, failed, th, more)
    requires |more| <= 1 && Left(th) + (if more == [] then 0 else Left(more[0])) < 2
    ensures AllLeft(s'.threads) < AllLeft(s.threads)
  {
    var back := GivesBack(s.sh, s.threads[tid].job);
    LeftGrown(s.threads, tid, th, if back.Some? then [GivingBack(back.value)] else [], more);
  }

  lemma SupersededWorks(s: State, tid: nat, up: Option<string>, now: int)
    requires Ready(s, tid) && s.threads[tid].Committing?
    requires VerdictOf(s.sh, s.threads[tid].job.gen, up).Superseded?
    ensures AllLeft(EnrollCommits(s, tid, up, now).threads) < AllLeft(s.threads)
  {
    LeftMoved(s.threads, tid, EnrollCommits(s, tid, up, now).threads[tid]);
  }

  lemma CommitWorks(s: State, tid: nat, up: Option<string>, now: int)
    requires Ready(s, tid) && s.threads[tid].Committing?
    ensures AllLeft(EnrollCommits(s, tid, up, now).threads) < AllLeft(s.threads)
  {
    var th := s.threads[tid];
    var s' := EnrollCommits(s, tid, up, now);
    match VerdictOf(s.sh, th.job.gen, up)
    case Superseded => SupersededWorks(s, tid, up, now);
    case TunnelFailed =>
      TunnelFailedSettles(s, tid, up.value, now);
      SettlesWorks(s, s', tid, true, AfterFailure(th.caller, up.value), []);
    case Committed =>
      CommittedSettles(s, tid, now);
      SettlesWorks(s, s', tid, false, Done, [LoopTop(|s.sh.sessions|)]);
  }

  lemma AdvanceWorks(env: Env, s: State, tid: nat, input: Input)
    requires Ready(s, tid) && Awaits(s.threads[tid], input)
    ensures AllLeft(Advance(env, s, tid, input).threads) < AllLeft(s.threads)
  {
    if s.threads[tid].Committing? {
      CommitWorks(s, tid, input.up, input.now);
    } else {
      var s' := Advance(env, s, tid, input);
      MovesOnly(env, s, tid, input);
      LeftMoved(s.threads, tid, s'.threads[tid]);
    }
  }

  lemma MovesOnly(env: Env, s: State, tid: nat, input: Input)
    requires Ready(s, tid) && Awaits(s.threads[tid], input) && !s.threads[tid].Committing?
    ensures var s' := Advance(env, s, tid, input);
            && tid < |s'.threads| && s'.threads == s.threads[tid := s'.threads[tid]]
            && Left(s'.threads[tid]) < Left(s.threads[tid])
  {
  }

  /** A run of such steps. */
  ghost predicate Works(env: Env, s: State, ls: seq<Label>)
    requires Inv(env, s)
    decreases |ls|
  {
    ls == [] ||
    (&& ls[0].Go? && ls[0].tid < |s.threads| && Awaits(s.threads[ls[0].tid], ls[0].input)
     && (InvIndexed(env, s); StepKeepsInv(env, s, ls[0]); Works(env, Step(env, s, ls[0]), ls[1..])))
  }

  /** It is no longer than what is left at its start. */
  lemma {:induction false} WorkEnds(env: Env, s: State, ls: seq<Label>)
    requires Inv(env, s) && Works(env, s, ls)
    ensures |ls| + AllLeft(Run(env, s, ls).threads) <= AllLeft(s.threads)
    decreases |ls|
  {
    if ls != [] {
      InvIndexed(env, s);
      StepKeepsInv(env, s, ls[0]);
      assert ThreadIndexed(s.sh, s.threads[ls[0].tid]);
      AdvanceWorks(env, s, ls[0].tid, ls[0].input);
      WorkEnds(env, Step(env, s, ls[0]), ls[1..]);
    }
  }

  /** Nothing is left to do exactly if the helper is quiet. */
  lemma QuietExactly(s: State)
    ensures Quiescent(s) <==> forall t, input | 0 <= t < |s.threads| :: !Awaits(s.threads[t], input)
  {
    if t :| 0 <= t < |s.threads| && !s.threads[t].Done? && !s.threads[t].Blocked? {
      assert Awaits(s.threads[t], Lock(None, 0)) || Awaits(s.threads[t], EnrollAnswer(Refused("")))
          || Awaits(s.threads[t], BeatAnswer(NotFound));
    }
  }

  lemma {:induction false} ComesToRest(env: Env, s: State) returns (ls: seq<Label>)
    requires Inv(env, s)
    ensures Works(env, s, ls) && Quiescent(Run(env, s, ls))
    decreases AllLeft(s.threads)
  {
    ls := [];
    if !Quiescent(s) {
      QuietExactly(s);
      var t, input :| 0 <= t < |s.threads| && Awaits(s.threads[t], input);
      var l := Go(t, input);
      InvIndexed(env, s);
      StepKeepsInv(env, s, l);
      assert ThreadIndexed(s.sh, s.threads[t]);
      AdvanceWorks(env, s, t, input);
      var rest := ComesToRest(env, Step(env, s, l));
      ls := [l] + rest;
      assert ls[1..] == rest;
    }
  }

  /** Every run can be run on to a quiet state, whatever it was doing: the steps its threads
      can still take are bounded, and where they end there is none left. */
  lemma EveryRunComesToRest(env: Env, ls: seq<Label>)
    ensures exists more :: |more| <= AllLeft(Reached(env, ls).threads) && Quiescent(Reached(env, ls + more))
  {
    var s := Reached(env, ls);
    var more := ComesToRest(env, s);
    WorkEnds(env, s, more);
    InitInv(env);
    RunConcat(env, Init(), ls, more);
    assert Quiescent(Reached(env, ls + more));
  }
}
