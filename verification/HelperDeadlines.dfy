/** What the deadlines that renewal loops wait on are worth: whether the loop of a live
    session fires before its lease ends. */
module HelperDeadlines {
  import opened HelperConservation
  import opened HelperInvariant
  import opened HelperProtocol
  import opened HelperRaces
  import opened HelperState
  import opened HelperSteps
  import opened HelperTheorems
  import opened LeaseClock
  import opened Wrappers

  /** Every deadline written since the lease was recorded was written under that lease. */
  ghost predicate UnderLease(x: Session) {
    forall k | 0 <= k < |x.dues| && !LeaseDueFrom(x.dues, k + 1) :: x.dues[k].lease == x.lease
  }

  ghost predicate AllUnderLease(sh: Shared) {
    forall i {:trigger sh.sessions[i]} | 0 <= i < |sh.sessions| :: UnderLease(sh.sessions[i])
  }

  lemma DueAdded(x: Session, d: Due, lease: Option<int>)
    requires UnderLease(x) && d.lease == lease && (d.RetryDue? ==> lease == x.lease)
    ensures UnderLease(x.(dues := x.dues + [d], lease := lease))
  {
    var y := x.(dues := x.dues + [d], lease := lease);
    forall k | 0 <= k < |y.dues| && !LeaseDueFrom(y.dues, k + 1)
      ensures y.dues[k].lease == lease
    {
      if k < |x.dues| {
        assert y.dues[|x.dues|] == d;
        forall j | k < j < |x.dues|
          ensures !x.dues[j].LeaseDue?
        {
          assert y.dues[j] == x.dues[j];
        }
      }
    }
  }

  /** A session of sh' was one of sh, with the same lease and deadlines. */
  ghost predicate LeasesKept(sh: Shared, sh': Shared) {
    && |sh.sessions| <= |sh'.sessions|
    && forall i {:trigger sh'.sessions[i]} | 0 <= i < |sh.sessions| ::
         sh'.sessions[i].lease == sh.sessions[i].lease && sh'.sessions[i].dues == sh.sessions[i].dues
  }

  lemma CommitUnderLease(sh: Shared, job: Job, grant: Grant, up: Option<string>, now: int)
    requires Shaped(sh) && AllUnderLease(sh)
    ensures AllUnderLease(Commit(sh, job, grant, up, now))
  {
    assert LeasesKept(sh, Stop(sh));
    assert [] + [LeaseDue(now, grant.lease)] == [LeaseDue(now, grant.lease)];
  }

  lemma OthersKeepLeases(env: Env, s: State, tid: nat, input: Input)
    requires Ready(s, tid) && !WritesDues(s, tid, input) && !(s.threads[tid].Committing? && input.Lock?)
    ensures LeasesKept(s.sh, Advance(env, s, tid, input).sh)
    ensures |Advance(env, s, tid, input).sh.sessions| == |s.sh.sessions|
  {
  }

  lemma WritesUnderLease(env: Env, s: State, tid: nat, input: Input)
    requires Ready(s, tid) && WritesDues(s, tid, input) && AllUnderLease(s.sh)
    ensures AllUnderLease(Advance(env, s, tid, input).sh)
  {
    match (s.threads[tid], input)
    case (Renewed(i, _, lease), Lock(_, now)) =>
      DueAdded(s.sh.sessions[i], LeaseDue(now, lease), lease);
    case (Failing(i, _, _), Lock(_, now)) =>
      DueAdded(s.sh.sessions[i], RetryDue(now, s.sh.sessions[i].lease), s.sh.sessions[i].lease);
    case _ =>
  }

  lemma StepUnderLease(env: Env, s: State, l: Label)
    requires Indexed(s) && AllUnderLease(s.sh)
    ensures AllUnderLease(Step(env, s, l).sh)
  {
    if l.Go? && l.tid < |s.threads| {
      assert ThreadIndexed(s.sh, s.threads[l.tid]);
      if s.threads[l.tid].Committing? && l.input.Lock? {
        var th := s.threads[l.tid];
        CommitUnderLease(s.sh, th.job, th.grant, l.input.up, l.input.now);
      } else if WritesDues(s, l.tid, l.input) {
        WritesUnderLease(env, s, l.tid, l.input);
      } else {
        OthersKeepLeases(env, s, l.tid, l.input);
      }
    }
  }

  lemma {:induction false} RunUnderLease(env: Env, s: State, ls: seq<Label>)
    requires Inv(env, s) && AllUnderLease(s.sh)
    ensures AllUnderLease(Run(env, s, ls).sh)
    decreases |ls|
  {
    if ls != [] {
      InvIndexed(env, s);
      StepKeepsInv(env, s, ls[0]);
      StepUnderLease(env, s, ls[0]);
      RunUnderLease(env, Step(env, s, ls[0]), ls[1..]);
    }
  }

  /** How much must have been left of the lease when the deadline was written. */
  function Needed(d: Due): int { if d.LeaseDue? then 30 * SECOND else SECOND }

  lemma DueBeforeLeaseEnds(d: Due)
    requires d.lease.Some?
    ensures At(d) < d.lease.value <==> d.lease.value - d.wrote > Needed(d)
  {
    var left := Until(d.lease.value, d.wrote);
    RenewalBeforeLeaseEnds(left);
    RetryBeforeLeaseEnds(left);
  }

  /** In every reachable state: the deadline a live session's loop waits on, with no wake to
      make it read another, is before the end of the session's lease exactly if more than
      30 s of it were left when it was recorded, or more than 1 s when a renewal was to be
      retried; and the lease is the one it was written under. That holds also where the loop
      has missed a later deadline. */
  lemma FiresBeforeLeaseEnds(env: Env, ls: seq<Label>, t: nat)
    requires t < |Reached(env, ls).threads| && Reached(env, ls).threads[t].Blocked?
    ensures var s := Reached(env, ls);
            var Blocked(i, seen) := s.threads[t];
            && i < |s.sh.sessions| && 0 < seen <= |s.sh.sessions[i].dues|
            && var x, d := s.sh.sessions[i], s.sh.sessions[i].dues[seen-1];
               !x.wake ==>
                 && d.lease == x.lease
                 && (x.lease.Some? ==> (At(d) < x.lease.value <==> x.lease.value - d.wrote > Needed(d)))
  {
    InitInv(env);
    RunUnderLease(env, Init(), ls);
    NoLostWake(env, ls, t);
    var s := Reached(env, ls);
    var Blocked(i, seen) := s.threads[t];
    var x, d := s.sh.sessions[i], s.sh.sessions[i].dues[seen-1];
    if !x.wake {
      assert UnderLease(x) && !LeaseDueFrom(x.dues, seen - 1 + 1);
      if x.lease.Some? {
        DueBeforeLeaseEnds(d);
      }
    }
  }

  /** The loop goes to renew when its timer's deadline has come, not before. */
  lemma FiresExactly(env: Env, ls: seq<Label>, t: nat, now: int)
    requires t < |Reached(env, ls).threads| && Reached(env, ls).threads[t].Blocked?
    ensures var s, s' := Reached(env, ls), Reached(env, ls + [Go(t, Fire(now))]);
            var Blocked(i, seen) := s.threads[t];
            && i < |s.sh.sessions| && 0 < seen <= |s.sh.sessions[i].dues| && t < |s'.threads|
            && s'.threads[t] == (if At(s.sh.sessions[i].dues[seen-1]) <= now then RenewStart(i, Loop) else s.threads[t])
  {
    AfterStep(env, ls, Go(t, Fire(now)));
    assert ThreadIndexed(Reached(env, ls).sh, Reached(env, ls).threads[t]);
  }
}
