/** What requests, refusals and failures come to, each stated on the states before and after:
    what is called and with which bearer, what is taken down, what is kept and what is left
    alone. */
module HelperOutcomes {
  import opened HelperInvariant
  import opened HelperProgress
  import opened HelperProtocol
  import opened HelperState
  import opened HelperSteps
  import opened HelperTheorems
  import opened Wrappers

  /** sh' is sh with the live session taken down, and the error told. */
  ghost predicate TakenDown(sh: Shared, sh': Shared, err: string) {
    && sh'.sess.None? && sh'.lastErr == err
    && match sh.sess
       case None => sh'.sessions == sh.sessions && sh'.tunnels == sh.tunnels && sh'.gen == sh.gen
       case Some(i) =>
         && i < |sh.sessions| && sh.sessions[i].tun < |sh.tunnels|
         && sh'.sessions == sh.sessions[i := sh.sessions[i].(cancelled := true)]
         && sh'.tunnels == sh.tunnels[sh.sessions[i].tun := 1]
         && sh'.gen > sh.gen
  }

  // ------------------------------------------------------- disconnect and shutdown

  /** A disconnect takes the live session down, forgets the last error, and has a thread of
      its own give back that session's enrollment; it touches no other thread. */
  lemma DownDisconnects(env: Env, s: State)
    requires Inv(env, s)
    ensures Indexed(s)
    ensures var s' := Step(env, s, Label.Down);
            && TakenDown(s.sh, s'.sh, "") && s'.lineage == s.lineage
            && match s.sh.sess
               case None => s'.threads == s.threads && s'.log == s.log
               case Some(i) =>
                 var x := s.sh.sessions[i];
                 && s'.threads == s.threads + [GivingBack(Peer(x.server, x.pub))]
                 && s'.log == s.log + [GaveBack(Peer(x.server, x.pub), |s.threads|)]
  {
    InvIndexed(env, s);
    if s.sh.sess.Some? {
      assert SessionOk(env, s.sh, s.sh.sess.value);
    }
  }

  /** A shutdown takes it down, gives nothing back and keeps the last error. */
  lemma ShutdownLapses(env: Env, s: State)
    requires Inv(env, s)
    ensures Indexed(s)
    ensures var s' := Step(env, s, Label.Shutdown);
            && TakenDown(s.sh, s'.sh, s.sh.lastErr) && s'.lineage == s.lineage && s'.threads == s.threads
            && match s.sh.sess
               case None => s'.log == s.log
               case Some(i) => s'.log == s.log + [Lapsed(Peer(s.sh.sessions[i].server, s.sh.sessions[i].pub), Stopping)]
  {
    InvIndexed(env, s);
    if s.sh.sess.Some? {
      assert SessionOk(env, s.sh, s.sh.sess.value);
    }
  }

  // ------------------------------------------------------- connect

  /** A connect asks the first configured server that its spec names, for the key of its
      private key, exactly if it brings a bearer, there is such a server and the key can be
      read; otherwise it does nothing. */
  lemma ConnectAsks(env: Env, s: State, spec: Spec)
    requires Indexed(s)
    ensures var s' := Step(env, s, Connect(Some(spec)));
            && s'.sh == s.sh && s'.lineage == s.lineage
            && (spec.bearer == "" || env.pub(spec.privateKey).None? ==> s' == s)
            && ((forall u | u in env.servers :: !Names(u, spec.serverURL)) ==> s' == s)
            && forall k | NamedFirst(env.servers, spec.serverURL, k) && spec.bearer != ""
                          && env.pub(spec.privateKey).Some? ::
                 var pub := env.pub(spec.privateKey).value;
                 && s'.threads == s.threads + [Enrolling(Request, Job(0, env.servers[k], spec, pub))]
                 && s'.log == s.log + [Called(EnrollCall, env.servers[k], Some(pub))]
  {
    FirstNamedIsConfigured(env.servers, spec.serverURL);
    forall k | NamedFirst(env.servers, spec.serverURL, k)
      ensures FirstNamed(env.servers, spec.serverURL) == Some(env.servers[k])
    {
      AllowedExactly(env.servers, spec, k);
    }
  }

  /** The tenants of a spec are asked of that same server, and nothing else happens. */
  lemma TenantsAsks(env: Env, s: State, spec: Spec)
    requires Indexed(s)
    ensures var s' := Step(env, s, Tenants(Some(spec)));
            && (spec.bearer == "" ==> s' == s)
            && ((forall u | u in env.servers :: !Names(u, spec.serverURL)) ==> s' == s)
            && forall k | NamedFirst(env.servers, spec.serverURL, k) && spec.bearer != "" ::
                 s' == s.(log := s.log + [Called(TenantsCall, env.servers[k], None)])
  {
    FirstNamedIsConfigured(env.servers, spec.serverURL);
    forall k | NamedFirst(env.servers, spec.serverURL, k)
      ensures FirstNamed(env.servers, spec.serverURL) == Some(env.servers[k])
    {
      AllowedExactly(env.servers, spec, k);
    }
  }

  /** A connect that the server refuses, or whose answer has a bad key, leaves the session
      that is live alone. */
  lemma RefusedConnectChangesNothing(env: Env, s: State, tid: nat, reply: EnrollReply)
    requires Inv(env, s) && tid < |s.threads| && s.threads[tid].Enrolling? && s.threads[tid].caller.Request?
    requires !reply.Granted?
    ensures var peer := Peer(s.threads[tid].job.server, s.threads[tid].job.pub);
            Run(env, s, [Go(tid, EnrollAnswer(reply))]) ==
              s.(threads := s.threads[tid := Done],
                 log := s.log + if reply.BadKey? then [Enrolled(peer), Lapsed(peer, BadServerKey)] else [])
  {
    GoesLast(env, s, tid, EnrollAnswer(reply));
    assert s.log + [] == s.log;
  }

  /** What an enrollment of mine gives back when it takes the place of the live session. */
  function Other(sh: Shared, mine: Peer): Option<Peer> {
    if sh.sess.None? || sh.sess.value >= |sh.sessions| || Live(sh, mine) then None
    else
      var x := sh.sessions[sh.sess.value];
      Some(Peer(x.server, x.pub))
  }

  /** s' is s after an enrollment of mine, by thread tid, whose tunnel did not come up. */
  ghost predicate FailedUp(s: State, s': State, tid: nat, mine: Peer, why: string)
    requires tid < |s.threads|
  {
    var back := Other(s.sh, mine);
    && TakenDown(s.sh, s'.sh, why) && s'.lineage == s.lineage && tid < |s'.threads|
    && s'.threads == s.threads[tid := s'.threads[tid]] + (if back.Some? then [GivingBack(back.value)] else [])
    && s'.log == s.log + (if back.Some? then [GaveBack(back.value, |s.threads|)] else []) + [Lapsed(mine, TunnelDown)]
  }

  lemma CommitFails(env: Env, s: State, tid: nat, why: string, now: int)
    requires Inv(env, s) && Ready(s, tid) && s.threads[tid].Committing?
    requires s.threads[tid].job.gen == 0 || s.threads[tid].job.gen == s.sh.gen
    ensures var job, s' := s.threads[tid].job, EnrollCommits(s, tid, Some(why), now);
            && FailedUp(s, s', tid, Peer(job.server, job.pub), why)
            && s'.threads[tid] == AfterFailure(s.threads[tid].caller, why)
  {
    if s.sh.sess.Some? {
      assert SessionOk(env, s.sh, s.sh.sess.value);
    }
    TunnelFailedSettles(s, tid, why, now);
    var job := s.threads[tid].job;
    assert GivesBack(s.sh, job) == Other(s.sh, Peer(job.server, job.pub));
    var log := s.log + Settlement(s, tid, true);
    var back := Other(s.sh, Peer(job.server, job.pub));
    var gave := if back.Some? then [GaveBack(back.value, |s.threads|)] else [];
    assert log == s.log + gave + [Lapsed(Peer(job.server, job.pub), TunnelDown)];
  }

  lemma DropsNothing(env: Env, s: State, tid: nat, now: int)
    requires Ready(s, tid) && s.sh.sess.None? && (s.threads[tid].Done? || s.threads[tid].Dropping?)
    ensures Advance(env, s, tid, Lock(None, now)) == s.(threads := s.threads[tid := Done])
  {
  }

  /** An enrollment, by a connect or a renewal that is not superseded, whose tunnel does not
      come up: the session that was live is taken down all the same, and given back exactly if
      it was of another server or key; its own enrollment is left to lapse. */
  lemma TunnelFailureTakesDown(env: Env, s: State, tid: nat, why: string, now: int)
    requires Inv(env, s) && tid < |s.threads| && s.threads[tid].Committing?
    requires s.threads[tid].caller.Renewal? ==> IsLive(s.sh, s.threads[tid].caller.session)
    ensures var job := s.threads[tid].job;
            var s' := Run(env, s, [Go(tid, Lock(Some(why), now))] + [Go(tid, Lock(None, now))]);
            FailedUp(s, s', tid, Peer(job.server, job.pub), why) && s'.threads[tid] == Done
  {
    var th := s.threads[tid];
    assert ThreadOk(env, s.sh, s.lineage, tid, th);
    if th.caller.Renewal? {
      assert SessionOk(env, s.sh, th.caller.session);
    }
    GoIsAdvance(env, s, tid, Lock(Some(why), now));
    CommitFails(env, s, tid, why, now);
    var s1 := EnrollCommits(s, tid, Some(why), now);
    TwoSteps(env, s, tid, Lock(Some(why), now), s1, Lock(None, now));
    DropsNothing(env, s1, tid, now);
  }

  // ------------------------------------------------------- renewNow

  /** A renewNow gives the live session the bearer it brings, and nothing else to any; without
      a bearer or a session it does nothing. Its renewal is a thread of its own. */
  lemma RenewNowBrings(env: Env, s: State, spec: Spec)
    requires Inv(env, s)
    ensures Indexed(s)
    ensures var s' := Step(env, s, RenewNow(Some(spec)));
            if spec.bearer == "" || s.sh.sess.None? then s' == s
            else
              var i := s.sh.sess.value;
              && i < |s.sh.sessions|
              && var x := s.sh.sessions[i];
                 && s'.sh == s.sh.(sessions := s.sh.sessions[i := x.(spec := x.spec.(bearer := spec.bearer))])
                 && s'.threads == s.threads + [RenewStart(i, Now)] && s'.lineage == s.lineage && s'.log == s.log
  {
    InvIndexed(env, s);
  }

  /** Its heartbeat goes with that bearer, and if the server answers that it forgot the device
      so does the re-enrollment, of the same server and key. */
  lemma RenewNowUsesBearer(env: Env, s: State, spec: Spec, now: int)
    requires Inv(env, s) && spec.bearer != "" && s.sh.sess.Some?
    ensures var n, i := |s.threads|, s.sh.sess.value;
            var s' := Run(env, s, [RenewNow(Some(spec))] + ([Go(n, Lock(None, now))] +
                                  ([Go(n, BeatAnswer(NotFound))] + [Go(n, Lock(None, now))])));
            && i < |s.sh.sessions|
            && var x := s.sh.sessions[i];
               && s'.log == s.log + [Called(HeartbeatCall(spec.bearer), x.server, Some(x.pub))]
                                  + [Called(EnrollCall, x.server, Some(x.pub))]
               && n < |s'.threads|
               && s'.threads[n] ==
                    Enrolling(Renewal(i, Now), Job(x.gen, x.server, x.spec.(bearer := spec.bearer), x.pub))
  {
    var n, i := |s.threads|, s.sh.sess.value;
    RenewNowBrings(env, s, spec);
    StepKeepsInv(env, s, RenewNow(Some(spec)));
    var s1 := Step(env, s, RenewNow(Some(spec)));
    var r2 := [Go(n, BeatAnswer(NotFound))] + [Go(n, Lock(None, now))];
    RunGoesOn(env, s, RenewNow(Some(spec)), s1, [Go(n, Lock(None, now))] + r2);
    Goes(env, s1, n, Lock(None, now), r2);
    var x := s1.sh.sessions[i];
    var s2 := Note(Put(s1, n, Beating(i, Now)), Called(HeartbeatCall(spec.bearer), x.server, Some(x.pub)));
    ForgottenAsks(env, s2, n, i, Now, now);
  }

  /** A renewal, by either, that is answered 404 while its session is live asks that session's
      server for its key again, with its spec of the moment. */
  lemma ForgottenAsks(env: Env, s: State, tid: nat, i: nat, who: Who, now: int)
    requires Inv(env, s) && tid < |s.threads| && s.threads[tid] == Beating(i, who)
    requires who.Now? || IsLive(s.sh, i)
    ensures i < |s.sh.sessions|
    ensures var x := s.sh.sessions[i];
            Run(env, s, [Go(tid, BeatAnswer(NotFound))] + [Go(tid, Lock(None, now))]) ==
              s.(threads := s.threads[tid := Enrolling(Renewal(i, who), Job(x.gen, x.server, x.spec, x.pub))],
                 log := s.log + [Called(EnrollCall, x.server, Some(x.pub))])
  {
    GoIsAdvance(env, s, tid, BeatAnswer(NotFound));
    assert SessionOk(env, s.sh, i);
    var s1 := Put(s, tid, Forgotten(i, who));
    TwoSteps(env, s, tid, BeatAnswer(NotFound), s1, Lock(None, now));
    Goes(env, s, tid, BeatAnswer(NotFound), []);
    RenewalIsGenuine(env, s1, i);
  }

  // ------------------------------------------------------- re-enrollments that fail

  function Complaint(reply: EnrollReply): string
    requires !reply.Granted?
  {
    "re-enrollment failed: " + if reply.Refused? then "enroll: " + reply.why else reply.why
  }

  /** A re-enrollment in flight, by the loop or a renewNow, that is refused or whose answer has
      a bad key: its session, if live still, is taken down with the reason kept and its
      enrollment left to lapse; one that was stopped meanwhile changes nothing. */
  lemma FailedReenrollmentDrops(env: Env, s: State, tid: nat, reply: EnrollReply, now: int)
    requires Inv(env, s) && tid < |s.threads| && s.threads[tid].Enrolling? && s.threads[tid].caller.Renewal?
    requires !reply.Granted?
    ensures var Renewal(i, _) := s.threads[tid].caller;
            var peer := Peer(s.threads[tid].job.server, s.threads[tid].job.pub);
            var bad := if reply.BadKey? then [Enrolled(peer), Lapsed(peer, BadServerKey)] else [];
            var s' := Run(env, s, [Go(tid, EnrollAnswer(reply))] + [Go(tid, Lock(None, now))]);
            && s'.threads == s.threads[tid := Done] && s'.lineage == s.lineage
            && i < |s.sh.sessions|
            && var x := s.sh.sessions[i];
               if IsLive(s.sh, i) then
                 && TakenDown(s.sh, s'.sh, Complaint(reply))
                 && s'.log == s.log + bad + [Lapsed(Peer(x.server, x.pub), Dropped)]
               else
                 s'.sh == s.sh && s'.log == s.log + bad
  {
    var th := s.threads[tid];
    GoIsAdvance(env, s, tid, EnrollAnswer(reply));
    assert ThreadOk(env, s.sh, s.lineage, tid, th);
    assert SessionOk(env, s.sh, th.caller.session);
    var s1 := EnrollAnswered(s, tid, reply);
    TwoSteps(env, s, tid, EnrollAnswer(reply), s1, Lock(None, now));
    assert s.log + [] == s.log;
    assert s1.threads[tid] == Dropping(th.caller.session, th.caller.who, Complaint(reply));
  }

  /** So when the server forgot the device and will not have it back, the tunnel does not stay
      up leading nowhere: from the 404 on, whoever renewed. */
  lemma ForgottenForGood(env: Env, s: State, tid: nat, reply: EnrollReply, now: int)
    requires Inv(env, s) && tid < |s.threads| && s.threads[tid].Beating? && IsLive(s.sh, s.threads[tid].session)
    requires !reply.Granted?
    ensures var i := s.threads[tid].session;
            var s' := Run(env, s, ([Go(tid, BeatAnswer(NotFound))] + [Go(tid, Lock(None, now))]) +
                                  ([Go(tid, EnrollAnswer(reply))] + [Go(tid, Lock(None, now))]));
            && i < |s.sh.sessions| && TakenDown(s.sh, s'.sh, Complaint(reply))
            && s'.threads == s.threads[tid := Done]
            && s'.log != [] && s'.log[|s'.log|-1] == Lapsed(PeerOf(s.sh.sessions[i]), Dropped)
  {
    var Beating(i, who) := s.threads[tid];
    ForgottenAsks(env, s, tid, i, who, now);
    var first := [Go(tid, BeatAnswer(NotFound))] + [Go(tid, Lock(None, now))];
    RunKeepsInv(env, s, first);
    RunConcat(env, s, first, [Go(tid, EnrollAnswer(reply))] + [Go(tid, Lock(None, now))]);
    FailedReenrollmentDrops(env, Run(env, s, first), tid, reply, now);
  }

  // ------------------------------------------------------- loops that end

  /** A waiting loop whose session was stopped ends, and one whose session is live does not. */
  lemma WaitingLoopEnds(env: Env, s: State, tid: nat)
    requires Inv(env, s) && tid < |s.threads| && s.threads[tid].Blocked?
    ensures Run(env, s, [Go(tid, CtxDone)]) ==
              if IsLive(s.sh, s.threads[tid].session) then s else s.(threads := s.threads[tid := Done])
  {
    GoesLast(env, s, tid, CtxDone);
    assert SessionOk(env, s.sh, s.threads[tid].session);
  }
}
