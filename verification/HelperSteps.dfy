/** Every step keeps the invariant: one lemma for each part of it that a step
    touches, then one for each kind of step. */
module HelperSteps {
  import opened HelperInvariant
  import opened HelperProtocol
  import opened HelperState
  import opened Wrappers

  // ------------------------------------------------------- parts of a step

  /** The threads of s but moved's are as they were; others may be new. */
  ghost predicate OnlyMoves(s: State, s': State, moved: Option<nat>) {
    && |s.threads| <= |s'.threads|
    && forall t | 0 <= t < |s.threads| && moved != Some(t) :: s'.threads[t] == s.threads[t]
  }

  /** What a step does to the state under the mutex and to the lineage. */
  ghost predicate Carries(env: Env, s: State, s': State, moved: Option<nat>, woken: Option<nat>) {
    && |s.lineage| == |s.sh.sessions| && |s'.lineage| == |s'.sh.sessions|
    && Evolves(s.sh, s'.sh) && WakesKept(s.sh, s'.sh, woken) && s.lineage <= s'.lineage
    && OnlyMoves(s, s', moved)
    && (woken.Some? ==> woken.value < |s.lineage| && moved == Some(s.lineage[woken.value].loop))
  }

  lemma ThreadKept(env: Env, s: State, s': State, moved: Option<nat>, woken: Option<nat>, t: nat)
    requires Carries(env, s, s', moved, woken)
    requires t < |s.threads| && moved != Some(t) && ThreadOk(env, s.sh, s.lineage, t, s.threads[t])
    ensures ThreadOk(env, s'.sh, s'.lineage, t, s.threads[t])
  {
    var th := s.threads[t];
    if th.Blocked? {
      var i := th.session;
      assert SessionEvolves(s.sh.sessions[i], s'.sh.sessions[i]);
      assert WakeKept(s.sh.sessions[i], s'.sh.sessions[i], woken == Some(i));
      if LeaseDueFrom(s'.sh.sessions[i].dues, th.seen) {
        var j :| th.seen <= j < |s'.sh.sessions[i].dues| && s'.sh.sessions[i].dues[j].LeaseDue?;
        if j < |s.sh.sessions[i].dues| {
          assert s.sh.sessions[i].dues[j].LeaseDue?;
          assert LeaseDueFrom(s.sh.sessions[i].dues, th.seen);
        } else {
          assert LeaseDueFrom(s'.sh.sessions[i].dues, |s.sh.sessions[i].dues|);
        }
      }
    } else if th.Enrolling? || th.Committing? {
      if th.caller.Renewal? {
        assert SessionEvolves(s.sh.sessions[th.caller.session], s'.sh.sessions[th.caller.session]);
      }
    }
  }

  lemma ThreadsKept(env: Env, s: State, s': State, moved: Option<nat>, woken: Option<nat>)
    requires Carries(env, s, s', moved, woken) && ThreadsOk(env, s)
    requires forall t | 0 <= t < |s'.threads| && (t >= |s.threads| || moved == Some(t)) ::
               ThreadOk(env, s'.sh, s'.lineage, t, s'.threads[t])
    ensures ThreadsOk(env, s')
  {
    forall t | 0 <= t < |s'.threads|
      ensures ThreadOk(env, s'.sh, s'.lineage, t, s'.threads[t])
    {
      if t < |s.threads| && moved != Some(t) {
        ThreadKept(env, s, s', moved, woken, t);
      }
    }
  }

  /** The renewer of the live session is not stopped by a step that leaves it live. */
  lemma RenewerKept(env: Env, s: State, s': State, moved: Option<nat>, woken: Option<nat>)
    requires Carries(env, s, s', moved, woken) && RenewerOk(s)
    requires s'.sh.sess.Some? ==> s'.sh.sess == s.sh.sess
    requires s'.sh.sess.Some? ==>
               var l := s.lineage[s.sh.sess.value].loop;
               moved == Some(l) ==> RunsLoopOf(s'.threads[l], s.sh.sess.value)
    ensures RenewerOk(s')
  {
  }

  lemma LineageKept(env: Env, s: State, s': State)
    requires LineageOk(s.sh, s.lineage) && s'.lineage == s.lineage
    requires Evolves(s.sh, s'.sh) && |s'.sh.sessions| == |s.sh.sessions|
    ensures LineageOk(s'.sh, s'.lineage)
  {
    forall i | 0 <= i < |s.lineage|
      ensures SameIdentity(s'.sh.sessions[i].spec, s.lineage[i].origin)
    {
      assert SessionEvolves(s.sh.sessions[i], s'.sh.sessions[i]);
    }
  }

  /** The log grows by es; a give-back that was pending is pending still, or is sent. */
  lemma LogKept(env: Env, s: State, s': State, es: seq<Event>)
    requires LogOk(env, s) && s'.log == s.log + es && |s.threads| <= |s'.threads|
    requires forall e | e in es :: CallOk(env, e)
    requires forall k | |s.log| <= k < |s'.log| :: GiveBackOk(s', k)
    requires forall t, p | 0 <= t < |s.threads| && s.threads[t] == GivingBack(p) ::
               s'.threads[t] == s.threads[t] || es == [Called(DeregisterCall, p.server, Some(p.pub))]
    ensures LogOk(env, s')
  {
    forall k | 0 <= k < |s'.log|
      ensures CallOk(env, s'.log[k]) && GiveBackOk(s', k)
    {
      if k < |s.log| {
        assert s'.log[k] == s.log[k] && GiveBackOk(s, k);
        if s.log[k].GaveBack? {
          var p := s.log[k].peer;
          if Sent(s.log, k, p) {
            var j :| k < j < |s.log| && s.log[j] == Called(DeregisterCall, p.server, Some(p.pub));
            assert s'.log[j] == s.log[j];
          } else if s'.threads[s.log[k].sender] != GivingBack(p) {
            assert s'.log[|s.log|] == Called(DeregisterCall, p.server, Some(p.pub));
          }
        }
      } else {
        assert s'.log[k] == es[k - |s.log|];
      }
    }
  }

  lemma OutstandingNoted(log: seq<Event>, e: Event)
    ensures Outstanding(log + [e]) == Settle(Outstanding(log), e)
  {
    assert (log + [e])[..|log + [e]| - 1] == log;
  }

  lemma SameEvolves(sh: Shared)
    ensures Evolves(sh, sh) && WakesKept(sh, sh, None)
  {
  }

  /** What other threads hold, they go on holding. */
  lemma HeldKept(s: State, s': State, moved: Option<nat>, p: Peer)
    requires OnlyMoves(s, s', moved) && HeldByThread(s, p)
    requires moved.Some? ==> moved.value < |s.threads| && !Holds(s.threads[moved.value], p)
    ensures HeldByThread(s', p)
  {
    var t :| 0 <= t < |s.threads| && Holds(s.threads[t], p);
    assert Holds(s'.threads[t], p);
  }

  lemma LiveKept(s: State, s': State, p: Peer)
    requires Evolves(s.sh, s'.sh) && s'.sh.sess == s.sh.sess && Live(s.sh, p)
    ensures Live(s'.sh, p)
  {
    assert SessionEvolves(s.sh.sessions[s.sh.sess.value], s'.sh.sessions[s.sh.sess.value]);
  }

  /** The log grows by at most a call; a give-back that was pending is pending
      still, or this is its call. */
  lemma CallLogged(env: Env, s: State, s': State, call: Option<Event>)
    requires LogOk(env, s) && |s.threads| <= |s'.threads|
    requires s'.log == if call.Some? then s.log + [call.value] else s.log
    requires call.Some? ==> call.value.Called? && CallOk(env, call.value)
    requires forall t | 0 <= t < |s.threads| && s.threads[t].GivingBack? ::
               || s'.threads[t] == s.threads[t]
               || call == Some(Called(DeregisterCall, s.threads[t].peer.server, Some(s.threads[t].peer.pub)))
    ensures LogOk(env, s') && Outstanding(s'.log) == Outstanding(s.log)
  {
    if call.Some? {
      LogKept(env, s, s', [call.value]);
      OutstandingNoted(s.log, call.value);
    } else {
      assert s'.log == s.log + [];
      LogKept(env, s, s', []);
    }
  }

  lemma HeldQuietly(s: State, s': State, moved: Option<nat>)
    requires Conserved(s) && Outstanding(s'.log) == Outstanding(s.log)
    requires Evolves(s.sh, s'.sh) && s'.sh.sess == s.sh.sess && OnlyMoves(s, s', moved)
    requires moved.Some? ==> moved.value < |s.threads| && !s.threads[moved.value].Committing?
    ensures Conserved(s')
  {
    forall p | p in Outstanding(s'.log)
      ensures Held(s', p)
    {
      assert Held(s, p);
      if Live(s.sh, p) {
        LiveKept(s, s', p);
      } else {
        HeldKept(s, s', moved, p);
      }
    }
  }

  // ------------------------------------------------------- quiet steps

  /** A step of thread tid that stops and starts nothing: it may write a session,
      call a server, and move the thread anywhere but into a critical section of
      enroll. */
  ghost predicate Quiet(env: Env, s: State, tid: nat, th: Thread, sh: Shared, call: Option<Event>, woken: Option<nat>)
    requires |s.lineage| == |s.sh.sessions|
  {
    && tid < |s.threads|
    && !s.threads[tid].Committing? && !th.Committing? && !th.GivingBack?
    && SharedOk(env, sh) && Evolves(s.sh, sh) && WakesKept(s.sh, sh, woken)
    && |sh.sessions| == |s.sh.sessions| && sh.sess == s.sh.sess
    && (woken.Some? ==> woken.value < |s.lineage| && s.lineage[woken.value].loop == tid)
    && ThreadOk(env, sh, s.lineage, tid, th)
    && (call.Some? ==> call.value.Called? && CallOk(env, call.value))
    && (s.threads[tid].GivingBack? ==>
          call == Some(Called(DeregisterCall, s.threads[tid].peer.server, Some(s.threads[tid].peer.pub))))
    && (s.sh.sess.Some? && s.sh.sess.value < |s.lineage| && s.lineage[s.sh.sess.value].loop == tid ==>
          RunsLoopOf(th, s.sh.sess.value))
  }

  function QuietlyTo(s: State, tid: nat, th: Thread, sh: Shared, call: Option<Event>): State
    requires tid < |s.threads|
  {
    var s1 := Put(s.(sh := sh), tid, th);
    if call.Some? then Note(s1, call.value) else s1
  }

  lemma QuietThreads(env: Env, s: State, s': State, tid: nat, th: Thread, sh: Shared,
                     call: Option<Event>, woken: Option<nat>)
    requires LineageOk(s.sh, s.lineage) && ThreadsOk(env, s) && RenewerOk(s)
    requires Quiet(env, s, tid, th, sh, call, woken) && s' == QuietlyTo(s, tid, th, sh, call)
    ensures ThreadsOk(env, s') && RenewerOk(s') && LineageOk(s'.sh, s'.lineage)
  {
    assert Carries(env, s, s', Some(tid), woken);
    ThreadsKept(env, s, s', Some(tid), woken);
    RenewerKept(env, s, s', Some(tid), woken);
    LineageKept(env, s, s');
  }

  lemma QuietLog(env: Env, s: State, s': State, tid: nat, th: Thread, sh: Shared,
                 call: Option<Event>, woken: Option<nat>)
    requires LogOk(env, s) && Conserved(s) && |s.lineage| == |s.sh.sessions|
    requires Quiet(env, s, tid, th, sh, call, woken) && s' == QuietlyTo(s, tid, th, sh, call)
    ensures LogOk(env, s') && Conserved(s')
  {
    CallLogged(env, s, s', call);
    HeldQuietly(s, s', Some(tid));
  }

  lemma QuietKeepsInv(env: Env, s: State, tid: nat, th: Thread, sh: Shared, call: Option<Event>, woken: Option<nat>)
    requires Inv(env, s) && Quiet(env, s, tid, th, sh, call, woken)
    ensures Inv(env, QuietlyTo(s, tid, th, sh, call))
  {
    var s' := QuietlyTo(s, tid, th, sh, call);
    QuietThreads(env, s, s', tid, th, sh, call, woken);
    QuietLog(env, s, s', tid, th, sh, call, woken);
  }

  // ------------------------------------------------------- the renewal loop

  lemma ReadStep(env: Env, s: State, tid: nat, up: Option<string>, now: int)
    requires Inv(env, s) && Ready(s, tid) && s.threads[tid].LoopTop?
    ensures Inv(env, Advance(env, s, tid, Lock(up, now)))
  {
    var i := s.threads[tid].session;
    assert ThreadOk(env, s.sh, s.lineage, tid, s.threads[tid]);
    SameEvolves(s.sh);
    QuietKeepsInv(env, s, tid, Blocked(i, |s.sh.sessions[i].dues|), s.sh, None, None);
  }

  lemma WakeStep(env: Env, s: State, tid: nat)
    requires Inv(env, s) && Ready(s, tid) && s.threads[tid].Blocked?
    ensures Inv(env, Advance(env, s, tid, Wake))
  {
    var i := s.threads[tid].session;
    assert ThreadOk(env, s.sh, s.lineage, tid, s.threads[tid]);
    assert SessionOk(env, s.sh, i);
    if s.sh.sessions[i].wake {
      var y := s.sh.sessions[i].(wake := false);
      WriteKeeps(env, s.sh, i, y, s.sh.lastErr, Some(i));
      assert TakeWake(s.sh, i) == s.sh.(sessions := s.sh.sessions[i := y], lastErr := s.sh.lastErr);
      QuietKeepsInv(env, s, tid, LoopTop(i), TakeWake(s.sh, i), None, Some(i));
    }
  }

  lemma FireStep(env: Env, s: State, tid: nat, now: int)
    requires Inv(env, s) && Ready(s, tid) && s.threads[tid].Blocked?
    ensures Inv(env, Advance(env, s, tid, Fire(now)))
  {
    var i := s.threads[tid].session;
    assert ThreadOk(env, s.sh, s.lineage, tid, s.threads[tid]);
    SameEvolves(s.sh);
    if At(s.sh.sessions[i].dues[s.threads[tid].seen-1]) <= now {
      QuietKeepsInv(env, s, tid, RenewStart(i, Loop), s.sh, None, None);
    }
  }

  lemma CtxDoneStep(env: Env, s: State, tid: nat)
    requires Inv(env, s) && Ready(s, tid) && s.threads[tid].Blocked?
    ensures Inv(env, Advance(env, s, tid, CtxDone))
  {
    var i := s.threads[tid].session;
    assert ThreadOk(env, s.sh, s.lineage, tid, s.threads[tid]);
    assert SessionOk(env, s.sh, i);
    SameEvolves(s.sh);
    if s.sh.sessions[i].cancelled {
      QuietKeepsInv(env, s, tid, Done, s.sh, None, None);
    }
  }

  lemma BeatAnswerStep(env: Env, s: State, tid: nat, beat: Beat)
    requires Inv(env, s) && Ready(s, tid) && s.threads[tid].Beating?
    ensures Inv(env, BeatAnswered(s, tid, beat))
  {
    var Beating(i, who) := s.threads[tid];
    assert ThreadOk(env, s.sh, s.lineage, tid, s.threads[tid]);
    assert SessionOk(env, s.sh, i);
    SameEvolves(s.sh);
    QuietKeepsInv(env, s, tid, BeatAnswered(s, tid, beat).threads[tid], s.sh, None, None);
  }

  lemma CallSteps(env: Env, s: State, tid: nat)
    requires Inv(env, s) && Ready(s, tid)
    requires s.threads[tid].RenewStart? || s.threads[tid].GivingBack?
    ensures Inv(env, Advance(env, s, tid, Lock(None, 0)))
  {
    assert ThreadOk(env, s.sh, s.lineage, tid, s.threads[tid]);
    SameEvolves(s.sh);
    match s.threads[tid]
    case RenewStart(i, who) =>
      assert SessionOk(env, s.sh, i);
      FirstNamedIsConfigured(env.servers, s.sh.sessions[i].spec.serverURL);
      var x := s.sh.sessions[i];
      var call := Called(HeartbeatCall(x.spec.bearer), x.server, Some(x.pub));
      QuietKeepsInv(env, s, tid, Beating(i, who), s.sh, Some(call), None);
    case GivingBack(p) =>
      QuietKeepsInv(env, s, tid, Done, s.sh, Some(Called(DeregisterCall, p.server, Some(p.pub))), None);
  }

  lemma RenewedStep(env: Env, s: State, tid: nat, now: int)
    requires Inv(env, s) && Ready(s, tid) && s.threads[tid].Renewed?
    ensures Inv(env, Advance(env, s, tid, Lock(None, now)))
  {
    var Renewed(i, who, lease) := s.threads[tid];
    assert ThreadOk(env, s.sh, s.lineage, tid, s.threads[tid]);
    assert SessionOk(env, s.sh, i);
    var sh := Renew(s.sh, i, lease, now);
    WriteKeeps(env, s.sh, i, sh.sessions[i], sh.lastErr, None);
    QuietKeepsInv(env, s, tid, GoesOn(i, who), sh, None, None);
  }

  lemma FailingStep(env: Env, s: State, tid: nat, now: int)
    requires Inv(env, s) && Ready(s, tid) && s.threads[tid].Failing?
    ensures Inv(env, Advance(env, s, tid, Lock(None, now)))
  {
    var Failing(i, who, why) := s.threads[tid];
    assert ThreadOk(env, s.sh, s.lineage, tid, s.threads[tid]);
    assert SessionOk(env, s.sh, i);
    var sh := RetryLater(s.sh, i, why, now);
    assert !LeaseDueFrom(sh.sessions[i].dues, |s.sh.sessions[i].dues|);
    WriteKeeps(env, s.sh, i, sh.sessions[i], sh.lastErr, None);
    QuietKeepsInv(env, s, tid, GoesOn(i, who), sh, None, None);
  }

  /** A re-enrollment never fails what enroll checks before it calls the server. */
  lemma RenewalIsGenuine(env: Env, s: State, i: nat)
    requires Inv(env, s) && i < |s.sh.sessions|
    ensures var x := s.sh.sessions[i];
            && JobFor(env, Some(x.spec), x.gen) == Ok(Job(x.gen, x.server, x.spec, x.pub))
            && x.server in env.servers
  {
    assert SessionOk(env, s.sh, i);
    FirstNamedIsConfigured(env.servers, s.sh.sessions[i].spec.serverURL);
  }

  lemma ForgottenStep(env: Env, s: State, tid: nat)
    requires Inv(env, s) && Ready(s, tid) && s.threads[tid].Forgotten?
    ensures Inv(env, EnrollsAgain(env, s, tid))
  {
    var Forgotten(i, who) := s.threads[tid];
    var x := s.sh.sessions[i];
    var job := Job(x.gen, x.server, x.spec, x.pub);
    assert ThreadOk(env, s.sh, s.lineage, tid, s.threads[tid]);
    assert SessionOk(env, s.sh, i);
    RenewalIsGenuine(env, s, i);
    SameEvolves(s.sh);
    QuietKeepsInv(env, s, tid, Enrolling(Renewal(i, who), job), s.sh, Some(EnrollCalled(job)), None);
  }

  // ------------------------------------------------------- enrolling

  /** Thread tid moves, and only the log changes beside it. */
  lemma MoveKeeps(env: Env, s: State, tid: nat, th: Thread, es: seq<Event>)
    requires Inv(env, s) && tid < |s.threads| && !s.threads[tid].GivingBack?
    requires ThreadOk(env, s.sh, s.lineage, tid, th)
    requires s.sh.sess.Some? && s.lineage[s.sh.sess.value].loop == tid ==> RunsLoopOf(th, s.sh.sess.value)
    requires forall e | e in es :: CallOk(env, e) && (e.GaveBack? ==> e.sender == tid && th == GivingBack(e.peer))
    ensures var s' := s.(threads := s.threads[tid := th], log := s.log + es);
            && SharedOk(env, s'.sh) && LineageOk(s'.sh, s'.lineage) && ThreadsOk(env, s') && RenewerOk(s')
            && LogOk(env, s')
  {
    var s' := s.(threads := s.threads[tid := th], log := s.log + es);
    assert Evolves(s.sh, s.sh) && WakesKept(s.sh, s.sh, None) by {
      SameEvolves(s.sh);
    }
    ThreadsKept(env, s, s', Some(tid), None);
    RenewerKept(env, s, s', Some(tid), None);
    forall k | |s.log| <= k < |s'.log|
      ensures GiveBackOk(s', k)
    {
      assert s'.log[k] == es[k - |s.log|];
    }
    LogKept(env, s, s', es);
  }

  lemma AfterFailureOk(env: Env, s: State, tid: nat, why: string)
    requires Inv(env, s) && tid < |s.threads| && (s.threads[tid].Enrolling? || s.threads[tid].Committing?)
    ensures var th := AfterFailure(s.threads[tid].caller, why);
            && ThreadOk(env, s.sh, s.lineage, tid, th) && (th.Done? || th.Dropping?)
            && (s.sh.sess.Some? && s.lineage[s.sh.sess.value].loop == tid ==> RunsLoopOf(th, s.sh.sess.value))
  {
    assert ThreadOk(env, s.sh, s.lineage, tid, s.threads[tid]);
  }

  lemma EnrollGrantedStep(env: Env, s: State, tid: nat, grant: Grant)
    requires Inv(env, s) && tid < |s.threads| && s.threads[tid].Enrolling?
    ensures Inv(env, EnrollAnswered(s, tid, Granted(grant)))
  {
    var th := s.threads[tid];
    var peer := Peer(th.job.server, th.job.pub);
    var s' := EnrollAnswered(s, tid, Granted(grant));
    assert ThreadOk(env, s.sh, s.lineage, tid, th);
    MoveKeeps(env, s, tid, Committing(th.caller, th.job, grant), [Enrolled(peer)]);
    OutstandingNoted(s.log, Enrolled(peer));
    assert Holds(s'.threads[tid], peer);
    HoldersKept(s, s', tid, Outstanding(s.log));
  }

  lemma EnrollBadKeyStep(env: Env, s: State, tid: nat, why: string)
    requires Inv(env, s) && tid < |s.threads| && s.threads[tid].Enrolling?
    ensures Inv(env, EnrollAnswered(s, tid, BadKey(why)))
  {
    var th := s.threads[tid];
    var peer := Peer(th.job.server, th.job.pub);
    var s' := EnrollAnswered(s, tid, BadKey(why));
    var es := [Enrolled(peer), Lapsed(peer, BadServerKey)];
    AfterFailureOk(env, s, tid, why);
    MoveKeeps(env, s, tid, AfterFailure(th.caller, why), es);
    assert s'.log == s.log + es;
    OutstandingNoted(s.log, Enrolled(peer));
    OutstandingNoted(s.log + [Enrolled(peer)], Lapsed(peer, BadServerKey));
    HoldersKept(s, s', tid, Outstanding(s.log) - {peer});
  }

  lemma EnrollAnswerStep(env: Env, s: State, tid: nat, reply: EnrollReply)
    requires Inv(env, s) && tid < |s.threads| && s.threads[tid].Enrolling?
    ensures Inv(env, EnrollAnswered(s, tid, reply))
  {
    match reply
    case Refused(why) =>
      AfterFailureOk(env, s, tid, "enroll: " + why);
      SameEvolves(s.sh);
      QuietKeepsInv(env, s, tid, AfterFailure(s.threads[tid].caller, "enroll: " + why), s.sh, None, None);
    case BadKey(why) => EnrollBadKeyStep(env, s, tid, why);
    case Granted(grant) => EnrollGrantedStep(env, s, tid, grant);
  }

  lemma HoldersKept(s: State, s': State, tid: nat, ps: set<Peer>)
    requires Conserved(s) && ps <= Outstanding(s.log)
    requires s'.sh == s.sh && OnlyMoves(s, s', Some(tid)) && tid < |s.threads| && !s.threads[tid].Committing?
    ensures forall p | p in ps :: Held(s', p)
  {
    forall p | p in ps
      ensures Held(s', p)
    {
      assert Held(s, p);
      if !Live(s.sh, p) {
        HeldKept(s, s', Some(tid), p);
      }
    }
  }

  /** A thread may start that holds nothing, and at most one call is made. */
  lemma SpawnKeepsInv(env: Env, s: State, s': State, call: Option<Event>)
    requires Inv(env, s) && s'.lineage == s.lineage
    requires SharedOk(env, s'.sh) && Evolves(s.sh, s'.sh) && WakesKept(s.sh, s'.sh, None)
    requires s'.sh.sess == s.sh.sess && |s'.sh.sessions| == |s.sh.sessions|
    requires OnlyMoves(s, s', None)
    requires forall t | |s.threads| <= t < |s'.threads| :: ThreadOk(env, s'.sh, s'.lineage, t, s'.threads[t])
    requires s'.log == if call.Some? then s.log + [call.value] else s.log
    requires call.Some? ==> call.value.Called? && CallOk(env, call.value)
    ensures Inv(env, s')
  {
    ThreadsKept(env, s, s', None, None);
    RenewerKept(env, s, s', None, None);
    LineageKept(env, s, s');
    CallLogged(env, s, s', call);
    HeldQuietly(s, s', None);
  }

  lemma ConnectStep(env: Env, s: State, spec: Option<Spec>)
    requires Inv(env, s)
    ensures Inv(env, Connects(env, s, spec))
  {
    if JobFor(env, spec, 0).Ok? {
      FirstNamedIsConfigured(env.servers, spec.value.serverURL);
      SameEvolves(s.sh);
      SpawnKeepsInv(env, s, Connects(env, s, spec), Some(EnrollCalled(JobFor(env, spec, 0).value)));
    }
  }

  lemma TenantsStep(env: Env, s: State, spec: Option<Spec>)
    requires Inv(env, s)
    ensures Inv(env, AsksTenants(env, s, spec))
  {
    if Allowed(env.servers, spec).Ok? {
      FirstNamedIsConfigured(env.servers, spec.value.serverURL);
      SameEvolves(s.sh);
      var call := Called(TenantsCall, Allowed(env.servers, spec).value, None);
      SpawnKeepsInv(env, s, AsksTenants(env, s, spec), Some(call));
    }
  }

  lemma RenewNowStep(env: Env, s: State, spec: Option<Spec>)
    requires Inv(env, s) && Shaped(s.sh)
    ensures Inv(env, RenewsNow(s, spec))
  {
    if spec.Some? && spec.value.bearer != "" && s.sh.sess.Some? {
      var i := s.sh.sess.value;
      var s' := RenewsNow(s, spec);
      assert SessionOk(env, s.sh, i);
      WriteKeeps(env, s.sh, i, s'.sh.sessions[i], s.sh.lastErr, None);
      SpawnKeepsInv(env, s, s', None);
    }
  }

  // ------------------------------------------------------- stopping and starting

  /** The enrollments still outstanding after a step are held after it: those of
      the session it stopped and of the thread it moved aside. */
  lemma HeldElsewhere(s: State, s': State, moved: Option<nat>, settled: set<Peer>)
    requires Conserved(s) && OnlyMoves(s, s', moved)
    requires moved.Some? ==> moved.value < |s.threads|
    requires forall p | p in Outstanding(s'.log) && !Live(s'.sh, p) :: p in Outstanding(s.log) && p !in settled
    requires forall p | Live(s.sh, p) :: p in settled || Live(s'.sh, p)
    requires moved.Some? && s.threads[moved.value].Committing? ==>
               var job := s.threads[moved.value].job;
               Peer(job.server, job.pub) in settled || Live(s'.sh, Peer(job.server, job.pub))
    ensures Conserved(s')
  {
    forall p | p in Outstanding(s'.log)
      ensures Held(s', p)
    {
      if !Live(s'.sh, p) {
        assert Held(s, p);
        HeldKept(s, s', moved, p);
      }
    }
  }

  /** A superseded enrollment is a renewal of a session that is not live, and is
      given back unless the live session is that same enrollment. */
  lemma SupersededFacts(env: Env, s: State, tid: nat, up: Option<string>)
    requires Inv(env, s) && Ready(s, tid) && s.threads[tid].Committing?
    requires VerdictOf(s.sh, s.threads[tid].job.gen, up).Superseded?
    ensures var th := s.threads[tid];
            var mine := Peer(th.job.server, th.job.pub);
            && th.caller.Renewal? && s.sh.sess != Some(th.caller.session)
            && mine.server in env.servers
            && GivesBack(s.sh, th.job) == (if Live(s.sh, mine) then None else Some(mine))
  {
    var th := s.threads[tid];
    assert ThreadOk(env, s.sh, s.lineage, tid, th);
    FirstNamedIsConfigured(env.servers, th.job.spec.serverURL);
    assert SessionOk(env, s.sh, th.caller.session);
  }

  lemma SupersededStep(env: Env, s: State, tid: nat, up: Option<string>, now: int)
    requires Inv(env, s) && Ready(s, tid) && s.threads[tid].Committing?
    requires VerdictOf(s.sh, s.threads[tid].job.gen, up).Superseded?
    ensures Inv(env, EnrollCommits(s, tid, up, now))
  {
    var th := s.threads[tid];
    var s' := EnrollCommits(s, tid, up, now);
    var mine := Peer(th.job.server, th.job.pub);
    SupersededFacts(env, s, tid, up);
    if GivesBack(s.sh, th.job).None? {
      MoveKeeps(env, s, tid, Done, []);
      assert s.log + [] == s.log;
      HeldElsewhere(s, s', Some(tid), {});
    } else {
      MoveKeeps(env, s, tid, GivingBack(mine), [GaveBack(mine, tid)]);
      OutstandingNoted(s.log, GaveBack(mine, tid));
      HeldElsewhere(s, s', Some(tid), {mine});
    }
  }

  /** A step stops the live session, if any, and starts none: threads may move and
      start, and the log says what became of the enrollments it settles. */
  lemma StopKeepsInv(env: Env, s: State, s': State, moved: Option<nat>, es: seq<Event>, settled: set<Peer>)
    requires Inv(env, s) && SharedOk(env, s'.sh) && s'.sh.sess.None? && |s'.sh.sessions| == |s.sh.sessions|
    requires Evolves(s.sh, s'.sh) && WakesKept(s.sh, s'.sh, None)
    requires s'.lineage == s.lineage && OnlyMoves(s, s', moved) && s'.log == s.log + es
    requires moved.Some? ==> moved.value < |s.threads| && !s.threads[moved.value].GivingBack?
    requires forall t | 0 <= t < |s'.threads| && (t >= |s.threads| || moved == Some(t)) ::
               ThreadOk(env, s'.sh, s'.lineage, t, s'.threads[t])
    requires forall e | e in es :: !e.Called?
    requires forall k | |s.log| <= k < |s'.log| :: GiveBackOk(s', k)
    requires forall p | Live(s.sh, p) :: p in settled
    requires moved.Some? && s.threads[moved.value].Committing? ==>
               Peer(s.threads[moved.value].job.server, s.threads[moved.value].job.pub) in settled
    requires Outstanding(s'.log) == Outstanding(s.log) - settled
    ensures Inv(env, s')
  {
    ThreadsKept(env, s, s', moved, None);
    RenewerKept(env, s, s', moved, None);
    LineageKept(env, s, s');
    LogKept(env, s, s', es);
    HeldElsewhere(s, s', moved, settled);
  }

  /** The log after enroll's critical section replaced or stopped a session: what
      it gave back, then perhaps that its own enrollment lapses. */
  function Settlement(s: State, tid: nat, failed: bool): seq<Event>
    requires Ready(s, tid) && s.threads[tid].Committing?
  {
    var job := s.threads[tid].job;
    var back := GivesBack(s.sh, job);
    (if back.Some? then [GaveBack(back.value, |s.threads|)] else [])
    + (if failed then [Lapsed(Peer(job.server, job.pub), TunnelDown)] else [])
  }

  function Settled(s: State, tid: nat, failed: bool): set<Peer>
    requires Ready(s, tid) && s.threads[tid].Committing?
  {
    var job := s.threads[tid].job;
    var back := GivesBack(s.sh, job);
    (if back.Some? then {back.value} else {}) + (if failed then {Peer(job.server, job.pub)} else {})
  }

  lemma SettlementCounts(s: State, tid: nat, failed: bool)
    requires Ready(s, tid) && s.threads[tid].Committing?
    ensures Outstanding(s.log + Settlement(s, tid, failed)) == Outstanding(s.log) - Settled(s, tid, failed)
  {
    var job := s.threads[tid].job;
    var back := GivesBack(s.sh, job);
    var gave := if back.Some? then [GaveBack(back.value, |s.threads|)] else [];
    if back.Some? {
      OutstandingNoted(s.log, gave[0]);
    } else {
      assert s.log + gave == s.log;
    }
    if failed {
      OutstandingNoted(s.log + gave, Lapsed(Peer(job.server, job.pub), TunnelDown));
      assert s.log + Settlement(s, tid, true) == (s.log + gave) + [Lapsed(Peer(job.server, job.pub), TunnelDown)];
    } else {
      assert s.log + Settlement(s, tid, false) == s.log + gave;
    }
  }

  /** What enroll's critical section does beside the state under the mutex. */
  ghost predicate Settles(s: State, s': State, tid: nat, failed: bool, th: Thread, more: seq<Thread>)
    requires Ready(s, tid) && s.threads[tid].Committing?
  {
    var back := GivesBack(s.sh, s.threads[tid].job);
    && s'.log == s.log + Settlement(s, tid, failed)
    && s'.threads == s.threads[tid := th] + (if back.Some? then [GivingBack(back.value)] else []) + more
  }

  /** Its give-back is the sender's to send. */
  lemma SettlesMoves(s: State, s': State, tid: nat, failed: bool, th: Thread, more: seq<Thread>)
    requires Ready(s, tid) && s.threads[tid].Committing? && Settles(s, s', tid, failed, th, more)
    ensures OnlyMoves(s, s', Some(tid))
    ensures forall k | |s.log| <= k < |s'.log| :: GiveBackOk(s', k)
  {
    forall k | |s.log| <= k < |s'.log|
      ensures GiveBackOk(s', k)
    {
      assert s'.log[k] == Settlement(s, tid, failed)[k - |s.log|];
    }
  }

  lemma SettlesKeeps(env: Env, s: State, s': State, tid: nat, failed: bool, th: Thread, more: seq<Thread>)
    requires LogOk(env, s) && Ready(s, tid) && s.threads[tid].Committing?
    requires Settles(s, s', tid, failed, th, more)
    ensures LogOk(env, s') && OnlyMoves(s, s', Some(tid))
    ensures forall k | |s.log| <= k < |s'.log| :: GiveBackOk(s', k)
    ensures Outstanding(s'.log) == Outstanding(s.log) - Settled(s, tid, failed)
  {
    SettlementCounts(s, tid, failed);
    SettlesMoves(s, s', tid, failed, th, more);
    LogKept(env, s, s', Settlement(s, tid, failed));
  }

  lemma TunnelFailedSettles(s: State, tid: nat, why: string, now: int)
    requires Ready(s, tid) && s.threads[tid].Committing?
    requires VerdictOf(s.sh, s.threads[tid].job.gen, Some(why)).TunnelFailed?
    ensures var s' := EnrollCommits(s, tid, Some(why), now);
            && Settles(s, s', tid, true, AfterFailure(s.threads[tid].caller, why), [])
            && s'.sh == Stop(s.sh).(lastErr := why) && s'.lineage == s.lineage
  {
  }

  lemma TunnelFailedKeepsInv(env: Env, s: State, s': State, tid: nat, why: string)
    requires Inv(env, s) && Ready(s, tid) && s.threads[tid].Committing?
    requires s.threads[tid].job.gen == 0 || s.threads[tid].job.gen == s.sh.gen
    requires Settles(s, s', tid, true, AfterFailure(s.threads[tid].caller, why), [])
    requires s'.sh == Stop(s.sh).(lastErr := why) && s'.lineage == s.lineage
    ensures Inv(env, s')
  {
    StopKeeps(env, s.sh);
    ErrKeeps(env, Stop(s.sh), why);
    LivePeerAllowed(env, s);
    AfterFailureOk(env, s, tid, why);
    SettlesKeeps(env, s, s', tid, true, AfterFailure(s.threads[tid].caller, why), []);
    forall t | 0 <= t < |s'.threads| && (t >= |s.threads| || tid == t)
      ensures ThreadOk(env, s'.sh, s'.lineage, t, s'.threads[t])
    {
      NewThreadOk(env, s, s', tid, AfterFailure(s.threads[tid].caller, why), t);
    }
    StopKeepsInv(env, s, s', Some(tid), Settlement(s, tid, true), Settled(s, tid, true));
  }

  /** The thread that stopped and the one that gives back, after tid's session was
      stopped. */
  lemma NewThreadOk(env: Env, s: State, s': State, tid: nat, th: Thread, t: nat)
    requires Ready(s, tid) && s.threads[tid].Committing?
    requires |s'.lineage| == |s'.sh.sessions| && s'.lineage == s.lineage
    requires Settles(s, s', tid, true, th, []) && (th.Done? || th.Dropping?)
    requires ThreadOk(env, s.sh, s.lineage, tid, th)
    requires s.sh.sess.Some? ==> s.sh.sessions[s.sh.sess.value].server in env.servers
    requires s.threads[tid].job.gen == 0 || s.threads[tid].job.gen == s.sh.gen
    requires t < |s'.threads| && (t >= |s.threads| || tid == t)
    ensures ThreadOk(env, s'.sh, s'.lineage, t, s'.threads[t])
  {
  }

  lemma LivePeerAllowed(env: Env, s: State)
    requires Inv(env, s)
    ensures s.sh.sess.Some? ==> s.sh.sessions[s.sh.sess.value].server in env.servers
  {
    if s.sh.sess.Some? {
      var i := s.sh.sess.value;
      assert SessionOk(env, s.sh, i);
      FirstNamedIsConfigured(env.servers, s.sh.sessions[i].spec.serverURL);
    }
  }

  lemma DownStep(env: Env, s: State)
    requires Inv(env, s) && Shaped(s.sh)
    ensures Inv(env, GoesDown(s))
  {
    var s' := GoesDown(s);
    StopKeeps(env, s.sh);
    ErrKeeps(env, Stop(s.sh), "");
    LivePeerAllowed(env, s);
    if s.sh.sess.None? {
      assert s'.log == s.log + [];
      StopKeepsInv(env, s, s', None, [], {});
    } else {
      var p := PeerOf(s.sh.sessions[s.sh.sess.value]);
      OutstandingNoted(s.log, GaveBack(p, |s.threads|));
      StopKeepsInv(env, s, s', None, [GaveBack(p, |s.threads|)], {p});
    }
  }

  lemma ShutdownStep(env: Env, s: State)
    requires Inv(env, s) && Shaped(s.sh)
    ensures Inv(env, ShutsDown(s))
  {
    var s' := ShutsDown(s);
    StopKeeps(env, s.sh);
    if s.sh.sess.Some? {
      var p := PeerOf(s.sh.sessions[s.sh.sess.value]);
      OutstandingNoted(s.log, Lapsed(p, Stopping));
      StopKeepsInv(env, s, s', None, [Lapsed(p, Stopping)], {p});
    }
  }

  lemma DropStep(env: Env, s: State, tid: nat)
    requires Inv(env, s) && Ready(s, tid) && s.threads[tid].Dropping?
    ensures Inv(env, Drops(s, tid))
  {
    var s' := Drops(s, tid);
    var i := s.threads[tid].session;
    assert ThreadOk(env, s.sh, s.lineage, tid, s.threads[tid]);
    DropKeeps(env, s.sh, i, s.threads[tid].why);
    if s.sh.sess == Some(i) {
      var p := PeerOf(s.sh.sessions[i]);
      OutstandingNoted(s.log, Lapsed(p, Dropped));
      StopKeepsInv(env, s, s', Some(tid), [Lapsed(p, Dropped)], {p});
    } else {
      QuietKeepsInv(env, s, tid, Done, s.sh, None, None);
    }
  }

  lemma CommittedLineage(env: Env, s: State, tid: nat, now: int, loop: nat)
    requires Inv(env, s) && Ready(s, tid) && s.threads[tid].Committing?
    requires VerdictOf(s.sh, s.threads[tid].job.gen, None).Committed?
    ensures var th := s.threads[tid];
            LineageOk(Commit(s.sh, th.job, th.grant, None, now),
                      s.lineage + [LineageOf(s, th.caller, th.job, loop)])
  {
    var th := s.threads[tid];
    var sh' := Commit(s.sh, th.job, th.grant, None, now);
    var lineage' := s.lineage + [LineageOf(s, th.caller, th.job, loop)];
    assert ThreadOk(env, s.sh, s.lineage, tid, th);
    CommitKeeps(env, s.sh, th.job, th.grant, None, now);
    forall i | 0 <= i < |lineage'|
      ensures SameIdentity(sh'.sessions[i].spec, lineage'[i].origin)
    {
      if i < |s.lineage| {
        assert SessionEvolves(s.sh.sessions[i], sh'.sessions[i]);
      }
    }
    if th.caller.Renewal? {
      assert SessionOk(env, s.sh, th.caller.session);
      assert s.sh.sess == Some(th.caller.session);
    }
  }

  lemma CommittedSettles(s: State, tid: nat, now: int)
    requires Ready(s, tid) && s.threads[tid].Committing?
    requires VerdictOf(s.sh, s.threads[tid].job.gen, None).Committed?
    ensures var s' := EnrollCommits(s, tid, None, now);
            var th := s.threads[tid];
            && Settles(s, s', tid, false, Done, [LoopTop(|s.sh.sessions|)])
            && s'.sh == Commit(s.sh, th.job, th.grant, None, now)
            && s'.lineage == s.lineage + [LineageOf(s, th.caller, th.job, |s'.threads| - 1)]
  {
  }

  lemma CommittedThreads(env: Env, s: State, s': State, tid: nat)
    requires Inv(env, s) && Ready(s, tid) && s.threads[tid].Committing?
    requires s.threads[tid].job.gen == 0 || s.threads[tid].job.gen == s.sh.gen
    requires Settles(s, s', tid, false, Done, [LoopTop(|s.sh.sessions|)])
    requires Evolves(s.sh, s'.sh) && WakesKept(s.sh, s'.sh, None) && |s'.sh.sessions| == |s'.lineage|
    requires s.lineage <= s'.lineage && |s'.lineage| == |s.lineage| + 1
    requires s'.lineage[|s.lineage|].loop == |s'.threads| - 1
    ensures ThreadsOk(env, s')
  {
    LivePeerAllowed(env, s);
    SettlesMoves(s, s', tid, false, Done, [LoopTop(|s.sh.sessions|)]);
    ThreadsKept(env, s, s', Some(tid), None);
  }

  lemma CommittedKeepsInv(env: Env, s: State, s': State, tid: nat)
    requires Inv(env, s) && Ready(s, tid) && s.threads[tid].Committing?
    requires s.threads[tid].job.gen == 0 || s.threads[tid].job.gen == s.sh.gen
    requires Settles(s, s', tid, false, Done, [LoopTop(|s.sh.sessions|)])
    requires SharedOk(env, s'.sh) && Evolves(s.sh, s'.sh) && WakesKept(s.sh, s'.sh, None)
    requires LineageOk(s'.sh, s'.lineage) && s.lineage <= s'.lineage && |s'.lineage| == |s.lineage| + 1
    requires s'.sh.sess == Some(|s.sh.sessions|) && s'.lineage[|s.lineage|].loop == |s'.threads| - 1
    requires PeerOf(s'.sh.sessions[|s.sh.sessions|]) == Peer(s.threads[tid].job.server, s.threads[tid].job.pub)
    ensures Inv(env, s')
  {
    CommittedThreads(env, s, s', tid);
    SettlesKeeps(env, s, s', tid, false, Done, [LoopTop(|s.sh.sessions|)]);
    HeldElsewhere(s, s', Some(tid), Settled(s, tid, false));
  }

  // ------------------------------------------------------- any step

  lemma TunnelFailedStep(env: Env, s: State, tid: nat, why: string, now: int)
    requires Inv(env, s) && Ready(s, tid) && s.threads[tid].Committing?
    requires VerdictOf(s.sh, s.threads[tid].job.gen, Some(why)).TunnelFailed?
    ensures Inv(env, EnrollCommits(s, tid, Some(why), now))
  {
    TunnelFailedSettles(s, tid, why, now);
    TunnelFailedKeepsInv(env, s, EnrollCommits(s, tid, Some(why), now), tid, why);
  }

  lemma CommittedStep(env: Env, s: State, tid: nat, now: int)
    requires Inv(env, s) && Ready(s, tid) && s.threads[tid].Committing?
    requires VerdictOf(s.sh, s.threads[tid].job.gen, None).Committed?
    ensures Inv(env, EnrollCommits(s, tid, None, now))
  {
    var th := s.threads[tid];
    var s' := EnrollCommits(s, tid, None, now);
    CommittedSettles(s, tid, now);
    CommittedLineage(env, s, tid, now, |s'.threads| - 1);
    assert ThreadOk(env, s.sh, s.lineage, tid, th);
    CommitKeeps(env, s.sh, th.job, th.grant, None, now);
    CommittedKeepsInv(env, s, s', tid);
  }

  lemma EnrollCommitStep(env: Env, s: State, tid: nat, up: Option<string>, now: int)
    requires Inv(env, s) && Ready(s, tid) && s.threads[tid].Committing?
    ensures Inv(env, EnrollCommits(s, tid, up, now))
  {
    match VerdictOf(s.sh, s.threads[tid].job.gen, up)
    case Superseded => SupersededStep(env, s, tid, up, now);
    case TunnelFailed => TunnelFailedStep(env, s, tid, up.value, now);
    case Committed => CommittedStep(env, s, tid, now);
  }

  lemma StepKeepsInv(env: Env, s: State, l: Label)
    requires Inv(env, s) && Indexed(s)
    ensures Inv(env, Step(env, s, l))
  {
    match l
    case Connect(spec) => ConnectStep(env, s, spec);
    case Tenants(spec) => TenantsStep(env, s, spec);
    case RenewNow(spec) => RenewNowStep(env, s, spec);
    case Down => DownStep(env, s);
    case Shutdown => ShutdownStep(env, s);
    case Go(tid, input) =>
      if tid < |s.threads| {
        assert ThreadIndexed(s.sh, s.threads[tid]);
        AdvanceKeepsInv(env, s, tid, input);
      }
  }

  lemma AdvanceKeepsInv(env: Env, s: State, tid: nat, input: Input)
    requires Inv(env, s) && Ready(s, tid)
    ensures Inv(env, Advance(env, s, tid, input))
  {
    match input
    case EnrollAnswer(reply) =>
      if s.threads[tid].Enrolling? {
        EnrollAnswerStep(env, s, tid, reply);
      }
    case BeatAnswer(beat) =>
      if s.threads[tid].Beating? {
        BeatAnswerStep(env, s, tid, beat);
      }
    case Lock(up, now) => LockKeepsInv(env, s, tid, up, now);
    case _ =>
      if s.threads[tid].Blocked? {
        BlockedKeepsInv(env, s, tid, input);
      }
  }

  lemma BlockedKeepsInv(env: Env, s: State, tid: nat, input: Input)
    requires Inv(env, s) && Ready(s, tid) && s.threads[tid].Blocked?
    ensures Inv(env, Advance(env, s, tid, input))
  {
    match input
    case Wake => WakeStep(env, s, tid);
    case Fire(now) => FireStep(env, s, tid, now);
    case CtxDone => CtxDoneStep(env, s, tid);
    case _ =>
  }

  lemma LockedStep(env: Env, s: State, tid: nat, up: Option<string>, now: int)
    requires Inv(env, s) && Ready(s, tid)
    requires var th := s.threads[tid]; th.Committing? || th.Forgotten? || th.Dropping?
    ensures Inv(env, Advance(env, s, tid, Lock(up, now)))
  {
    match s.threads[tid]
    case Committing(_, _, _) => EnrollCommitStep(env, s, tid, up, now);
    case Forgotten(_, _) => ForgottenStep(env, s, tid);
    case Dropping(_, _, _) => DropStep(env, s, tid);
  }

  lemma LockKeepsInv(env: Env, s: State, tid: nat, up: Option<string>, now: int)
    requires Inv(env, s) && Ready(s, tid)
    ensures Inv(env, Advance(env, s, tid, Lock(up, now)))
  {
    match s.threads[tid]
    case Committing(_, _, _) => LockedStep(env, s, tid, up, now);
    case LoopTop(_) => ReadStep(env, s, tid, up, now);
    case Forgotten(_, _) => LockedStep(env, s, tid, up, now);
    case Dropping(_, _, _) => LockedStep(env, s, tid, up, now);
    case _ => WriteKeepsInv(env, s, tid, up, now);
  }

  lemma WriteKeepsInv(env: Env, s: State, tid: nat, up: Option<string>, now: int)
    requires Inv(env, s) && Ready(s, tid)
    requires var th := s.threads[tid]; !th.Committing? && !th.LoopTop? && !th.Forgotten? && !th.Dropping?
    ensures Inv(env, Advance(env, s, tid, Lock(up, now)))
  {
    match s.threads[tid]
    case Renewed(_, _, _) => RenewedStep(env, s, tid, now);
    case Failing(_, _, _) => FailingStep(env, s, tid, now);
    case RenewStart(_, _) => CallSteps(env, s, tid);
    case GivingBack(_) => CallSteps(env, s, tid);
    case _ =>
  }
}
