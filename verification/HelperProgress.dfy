/** What the helper achieves when nothing comes between: a connect comes up, a renewal
    extends the lease, a device the server forgot is enrolled again as it was, and one
    it refuses is taken down. From every state that the invariant allows. */
module HelperProgress {
  import opened HelperInvariant
  import opened HelperProtocol
  import opened HelperRaces
  import opened HelperState
  import opened HelperSteps
  import opened HelperTheorems
  import opened LeaseClock
  import opened Wrappers

  lemma GoIsAdvance(env: Env, s: State, tid: nat, input: Input)
    requires Inv(env, s) && tid < |s.threads|
    ensures Indexed(s) && Ready(s, tid) && Step(env, s, Go(tid, input)) == Advance(env, s, tid, input)
  {
    InvIndexed(env, s);
    assert ThreadIndexed(s.sh, s.threads[tid]);
  }

  /** A run that begins with a step of thread tid. */
  lemma Goes(env: Env, s: State, tid: nat, input: Input, rest: seq<Label>)
    requires Inv(env, s) && tid < |s.threads|
    ensures Ready(s, tid) && Inv(env, Advance(env, s, tid, input))
    ensures Run(env, s, [Go(tid, input)] + rest) == Run(env, Advance(env, s, tid, input), rest)
  {
    GoIsAdvance(env, s, tid, input);
    AdvanceKeepsInv(env, s, tid, input);
    RunGoesOn(env, s, Go(tid, input), Step(env, s, Go(tid, input)), rest);
  }

  lemma GoesLast(env: Env, s: State, tid: nat, input: Input)
    requires Inv(env, s) && tid < |s.threads|
    ensures Ready(s, tid) && Inv(env, Advance(env, s, tid, input))
    ensures Run(env, s, [Go(tid, input)]) == Advance(env, s, tid, input)
  {
    Goes(env, s, tid, input, []);
    assert [Go(tid, input)] + [] == [Go(tid, input)];
  }

  /** x is the session that job and grant bring up at now, in a tunnel of its own. */
  ghost predicate Opened(x: Session, job: Job, grant: Grant, now: int) {
    && x.server == job.server && x.spec == job.spec && x.pub == job.pub
    && x.address == grant.address && x.lease == grant.lease && !x.cancelled
    && x.dues == [LeaseDue(now, grant.lease)] && x.wake
  }

  /** The session of s' that is live has just come up from job and grant; the one that
      was live in s is stopped. */
  ghost predicate Replaced(s: State, s': State, job: Job, grant: Grant, now: int) {
    var n := |s.sh.sessions|;
    && s'.sh.sess == Some(n) && |s'.sh.sessions| == n + 1 && |s'.lineage| == n + 1
    && Opened(s'.sh.sessions[n], job, grant, now)
    && s'.sh.lastErr == ""
    && s'.lineage[n].loop < |s'.threads| && s'.threads[s'.lineage[n].loop] == LoopTop(n)
    && forall p :: GivesBackAfter(s, s', p) <==> Live(s.sh, p) && p != Peer(job.server, job.pub)
  }

  lemma CommitReplaces(env: Env, s: State, tid: nat, now: int)
    requires Inv(env, s) && Ready(s, tid) && s.threads[tid].Committing?
    requires s.threads[tid].job.gen == 0 || s.threads[tid].job.gen == s.sh.gen
    ensures var th, s' := s.threads[tid], EnrollCommits(s, tid, None, now);
            && Replaced(s, s', th.job, th.grant, now)
            && s'.threads[tid] == Done
            && s'.lineage[|s.sh.sessions|].parent == (if th.caller.Request? then None else Some(th.caller.session))
  {
    StopKeeps(env, s.sh);
    var s' := EnrollCommits(s, tid, None, now);
    forall p
      ensures GivesBackAfter(s, s', p)
         <==> Live(s.sh, p) && p != Peer(s.threads[tid].job.server, s.threads[tid].job.pub)
    {
      var back := GivesBack(s.sh, s.threads[tid].job);
      if back.Some? {
        assert s'.log[|s.log|] == GaveBack(back.value, |s.threads|);
      }
    }
  }

  /** The log of s extended by events that give nothing back. */
  lemma ReplacedSince(s: State, s1: State, s': State, job: Job, grant: Grant, now: int, es: seq<Event>)
    requires Replaced(s1, s', job, grant, now) && s1.log <= s'.log
    requires s1.sh == s.sh && s1.log == s.log + es && forall e | e in es :: !e.GaveBack?
    ensures Replaced(s, s', job, grant, now)
  {
    assert forall k | |s.log| <= k < |s1.log| :: s'.log[k] == es[k - |s.log|];
    forall p
      ensures GivesBackAfter(s, s', p) <==> GivesBackAfter(s1, s', p)
    {
    }
  }

  // ------------------------------------------------------- connecting

  /** An allowed connect with a good key, granted and brought up, is the live session
      with the spec it asked for, whatever was live before; that is given back exactly if
      it was of another server or key. */
  lemma ConnectComesUp(env: Env, s: State, spec: Spec, job: Job, grant: Grant, now: int)
    requires Inv(env, s) && JobFor(env, Some(spec), 0) == Ok(job)
    ensures var n := |s.threads|;
            var s' := Run(env, s, [Connect(Some(spec))] +
                                  ([Go(n, EnrollAnswer(Granted(grant)))] + [Go(n, Lock(None, now))]));
            Replaced(s, s', job, grant, now) && s'.lineage[|s.sh.sessions|].origin == spec
  {
    var n := |s.threads|;
    InvIndexed(env, s);
    ConnectStep(env, s, Some(spec));
    var s1 := Connects(env, s, Some(spec));
    var l := Connect(Some(spec));
    RunGoesOn(env, s, l, Step(env, s, l), [Go(n, EnrollAnswer(Granted(grant)))] + [Go(n, Lock(None, now))]);
    GrantComesUp(env, s, s1, n, grant, now, [EnrollCalled(job)]);
    assert s1.threads[n] == Enrolling(Request, job);
  }

  /** An enrollment in flight is granted and comes up. */
  lemma GrantComesUp(env: Env, s: State, s1: State, tid: nat, grant: Grant, now: int, es: seq<Event>)
    requires Inv(env, s1) && tid < |s1.threads| && s1.threads[tid].Enrolling?
    requires s1.threads[tid].job.gen == 0 || s1.threads[tid].job.gen == s1.sh.gen
    requires s1.sh == s.sh && s1.log == s.log + es && s1.lineage == s.lineage && forall e | e in es :: !e.GaveBack?
    ensures var th := s1.threads[tid];
            var s' := Run(env, s1, [Go(tid, EnrollAnswer(Granted(grant)))] + [Go(tid, Lock(None, now))]);
            && Replaced(s, s', th.job, grant, now)
            && (th.caller.Renewal? ==> th.caller.session < |s.lineage|)
            && s'.lineage[|s.sh.sessions|] == LineageOf(s, th.caller, th.job, s'.lineage[|s.sh.sessions|].loop)
  {
    Goes(env, s1, tid, EnrollAnswer(Granted(grant)), [Go(tid, Lock(None, now))]);
    var th := s1.threads[tid];
    var s2 := EnrollAnswered(s1, tid, Granted(grant));
    CommitComesUp(env, s, s2, tid, now, es + [Enrolled(Peer(th.job.server, th.job.pub))]);
  }

  /** And from there: the tunnel comes up. */
  lemma CommitComesUp(env: Env, s: State, s2: State, tid: nat, now: int, es: seq<Event>)
    requires Inv(env, s2) && tid < |s2.threads| && s2.threads[tid].Committing?
    requires s2.threads[tid].job.gen == 0 || s2.threads[tid].job.gen == s2.sh.gen
    requires s2.sh == s.sh && s2.log == s.log + es && s2.lineage == s.lineage && forall e | e in es :: !e.GaveBack?
    ensures var th := s2.threads[tid];
            var s' := Run(env, s2, [Go(tid, Lock(None, now))]);
            && Replaced(s, s', th.job, th.grant, now)
            && (th.caller.Renewal? ==> th.caller.session < |s.lineage|)
            && s'.lineage[|s.sh.sessions|] == LineageOf(s, th.caller, th.job, s'.lineage[|s.sh.sessions|].loop)
  {
    GoesLast(env, s2, tid, Lock(None, now));
    CommitReplaces(env, s2, tid, now);
    CommitEvolves(env, s2, tid, None, now);
    ReplacedSince(s, s2, EnrollCommits(s2, tid, None, now), s2.threads[tid].job, s2.threads[tid].grant, now, es);
  }

  // ------------------------------------------------------- renewing

  lemma EnrolledAgain(env: Env, s: State, s1: State, tid: nat, i: nat, who: Who, grant: Grant, now: int)
    requires Inv(env, s1) && tid < |s1.threads| && s1.threads[tid] == Forgotten(i, who) && IsLive(s1.sh, i)
    requires s1.sh == s.sh && s1.log == s.log && s1.lineage == s.lineage
    ensures var s' := Run(env, s1, [Go(tid, Lock(None, now))] +
                                   ([Go(tid, EnrollAnswer(Granted(grant)))] + [Go(tid, Lock(None, now))]));
            && i < |s.sh.sessions|
            && var x := s.sh.sessions[i];
               && Replaced(s, s', Job(x.gen, x.server, x.spec, x.pub), grant, now)
               && s'.lineage[|s.sh.sessions|].parent == Some(i)
               && (forall p :: !GivesBackAfter(s, s', p))
  {
    Goes(env, s1, tid, Lock(None, now), [Go(tid, EnrollAnswer(Granted(grant)))] + [Go(tid, Lock(None, now))]);
    assert SessionOk(env, s1.sh, i);
    RenewalIsGenuine(env, s1, i);
    var x := s.sh.sessions[i];
    var job := Job(x.gen, x.server, x.spec, x.pub);
    var s2 := Note(Put(s1, tid, Enrolling(Renewal(i, who), job)), EnrollCalled(job));
    GrantComesUp(env, s, s2, tid, grant, now, [EnrollCalled(job)]);
  }

  /** A renewal that is answered 404 enrolls the live session again as it was: same server,
      same key, same spec with the bearer of the moment. It comes up under a new generation,
      and nothing is given back. */
  lemma ForgottenComesBack(env: Env, s: State, tid: nat, grant: Grant, now: int)
    requires Inv(env, s) && tid < |s.threads| && s.threads[tid].Beating? && IsLive(s.sh, s.threads[tid].session)
    ensures var i := s.threads[tid].session;
            var s' := Run(env, s, [Go(tid, BeatAnswer(NotFound))] + ([Go(tid, Lock(None, now))] +
                                  ([Go(tid, EnrollAnswer(Granted(grant)))] + [Go(tid, Lock(None, now))])));
            && i < |s.sh.sessions|
            && var x := s.sh.sessions[i];
               && Replaced(s, s', Job(x.gen, x.server, x.spec, x.pub), grant, now)
               && s'.lineage[|s.sh.sessions|].parent == Some(i)
               && (forall p :: !GivesBackAfter(s, s', p))
  {
    var Beating(i, who) := s.threads[tid];
    var r2 := [Go(tid, EnrollAnswer(Granted(grant)))] + [Go(tid, Lock(None, now))];
    Goes(env, s, tid, BeatAnswer(NotFound), [Go(tid, Lock(None, now))] + r2);
    assert SessionOk(env, s.sh, i);
    EnrolledAgain(env, s, Put(s, tid, Forgotten(i, who)), tid, i, who, grant, now);
  }

  /** y is x after a renewal of it that was answered beat, and failed or succeeded at now. */
  ghost predicate SessionRenewed(x: Session, y: Session, beat: Beat, now: int)
    requires beat.Alive? || beat.Other?
  {
    && y.spec == x.spec && y.gen == x.gen && y.cancelled == x.cancelled
    && y.lease == (if beat.Alive? then beat.lease else x.lease)
    && (y.wake <==> x.wake || beat.Alive?)
    && y.dues == x.dues + [if beat.Alive? then LeaseDue(now, beat.lease) else RetryDue(now, x.lease)]
  }

  /** s' is s after a renewal of session i by who, as thread tid, that was answered beat. */
  ghost predicate RenewalEnded(s: State, s': State, tid: nat, i: nat, who: Who, beat: Beat, now: int)
    requires tid < |s.threads| && i < |s.sh.sessions| && s.sh.sessions[i].tun < |s.sh.tunnels| && !beat.NotFound?
  {
    var x := s.sh.sessions[i];
    if who.Loop? && !IsLive(s.sh, i) then
      s' == s.(threads := s.threads[tid := Done])
    else if beat.Forbidden? then
      && s'.threads == s.threads[tid := Done]
      && (!IsLive(s.sh, i) ==> s'.sh == s.sh && s'.log == s.log)
      && (IsLive(s.sh, i) ==>
            && s'.sh.sess.None? && s'.sh.tunnels == s.sh.tunnels[x.tun := 1]
            && s'.sh.sessions == s.sh.sessions[i := x.(cancelled := true)]
            && s'.sh.lastErr == "the server refused to renew: " + beat.why
            && s'.log == s.log + [Lapsed(PeerOf(x), Dropped)])
    else
      && s'.threads == s.threads[tid := GoesOn(i, who)] && s'.log == s.log
      && s'.sh.sess == s.sh.sess && s'.sh.gen == s.sh.gen && s'.sh.tunnels == s.sh.tunnels
      && |s'.sh.sessions| == |s.sh.sessions|
      && s'.sh.sessions == s.sh.sessions[i := s'.sh.sessions[i]]
      && SessionRenewed(x, s'.sh.sessions[i], beat, now)
      && s'.sh.lastErr == if beat.Other? then "renewal failed: " + beat.why
                          else if IsLive(s.sh, i) then "" else s.sh.lastErr
  }

  lemma RefusedEnds(s: State, s1: State, tid: nat, i: nat, why: string)
    requires Ready(s, tid) && Ready(s1, tid) && s1.threads[tid].Dropping?
    requires s1 == Put(s, tid, Dropping(i, s1.threads[tid].who, why))
    requires i < |s.sh.sessions| && (IsLive(s.sh, i) ==> s.sh.tunnels[s.sh.sessions[i].tun] == 0)
    ensures var s', x := Drops(s1, tid), s.sh.sessions[i];
            && s'.threads == s.threads[tid := Done]
            && (!IsLive(s.sh, i) ==> s'.sh == s.sh && s'.log == s.log)
            && (IsLive(s.sh, i) ==>
                  && s'.sh.sess.None? && s'.sh.tunnels == s.sh.tunnels[x.tun := 1]
                  && s'.sh.sessions == s.sh.sessions[i := x.(cancelled := true)]
                  && s'.sh.lastErr == why && s'.log == s.log + [Lapsed(PeerOf(x), Dropped)])
  {
  }

  lemma RenewedEnds(s: State, s1: State, tid: nat, i: nat, who: Who, lease: Option<int>, now: int)
    requires Ready(s, tid) && s1 == Put(s, tid, Renewed(i, who, lease)) && i < |s.sh.sessions|
    ensures var s' := Put(s1.(sh := Renew(s1.sh, i, lease, now)), tid, GoesOn(i, who));
            RenewalEnded(s, s', tid, i, who, Alive(lease), now) || (who.Loop? && !IsLive(s.sh, i))
  {
  }

  lemma FailedEnds(s: State, s1: State, tid: nat, i: nat, who: Who, why: string, now: int)
    requires Ready(s, tid) && s1 == Put(s, tid, Failing(i, who, why)) && i < |s.sh.sessions|
    ensures var s' := Put(s1.(sh := RetryLater(s1.sh, i, why, now)), tid, GoesOn(i, who));
            RenewalEnded(s, s', tid, i, who, Other(why), now) || (who.Loop? && !IsLive(s.sh, i))
  {
  }

  /** Thread tid takes two steps in a row. */
  lemma TwoSteps(env: Env, s: State, tid: nat, first: Input, s1: State, second: Input)
    requires Inv(env, s) && Ready(s, tid) && Advance(env, s, tid, first) == s1 && tid < |s1.threads|
    ensures Ready(s1, tid)
    ensures Run(env, s, [Go(tid, first)] + [Go(tid, second)]) == Advance(env, s1, tid, second)
  {
    Goes(env, s, tid, first, [Go(tid, second)]);
    GoesLast(env, s1, tid, second);
  }

  /** Any other answer to the renewal of a session, up to its critical section. One that is
      refused takes a live session down, and leaves its enrollment to lapse; every other
      leaves it up, in its tunnel. Only success changes the lease and wakes the loop;
      success and failure alike put one new deadline behind those before, and let the loop
      go on. A session stopped meanwhile is never revived: its own loop ends and changes
      nothing at all, and a renewNow changes nothing but that session and the last error. */
  lemma RenewalEnds(env: Env, s: State, tid: nat, beat: Beat, now: int)
    requires Inv(env, s) && tid < |s.threads| && s.threads[tid].Beating? && !beat.NotFound?
    ensures var Beating(i, who) := s.threads[tid];
            && i < |s.sh.sessions| && s.sh.sessions[i].tun < |s.sh.tunnels|
            && var s' := Run(env, s, [Go(tid, BeatAnswer(beat))] + [Go(tid, Lock(None, now))]);
               RenewalEnded(s, s', tid, i, who, beat, now)
  {
    var Beating(i, who) := s.threads[tid];
    GoIsAdvance(env, s, tid, BeatAnswer(beat));
    assert SessionOk(env, s.sh, i);
    var s1 := BeatAnswered(s, tid, beat);
    TwoSteps(env, s, tid, BeatAnswer(beat), s1, Lock(None, now));
    if who.Now? || IsLive(s.sh, i) {
      match beat
      case Forbidden(why) => RefusedEnds(s, s1, tid, i, "the server refused to renew: " + why);
      case Alive(lease) => RenewedEnds(s, s1, tid, i, who, lease, now);
      case Other(why) => FailedEnds(s, s1, tid, i, who, why, now);
    }
  }
}
