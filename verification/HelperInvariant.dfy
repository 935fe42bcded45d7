/** What every step of HelperProtocol keeps. */
module HelperInvariant {
  import opened HelperProtocol
  import opened HelperState
  import opened Wrappers

  // ------------------------------------------------------------- what is kept

  /** server and pub are what enroll reads out of spec. */
  predicate Genuine(env: Env, server: string, spec: Spec, pub: Key) {
    && Allowed(env.servers, Some(spec)) == Ok(server)
    && env.pub(spec.privateKey) == Some(pub)
  }

  /** a and b differ at most in the bearer. */
  predicate SameIdentity(a: Spec, b: Spec) {
    a.(bearer := b.bearer) == b
  }

  ghost predicate SessionOk(env: Env, sh: Shared, i: nat)
    requires i < |sh.sessions| == |sh.tunnels|
  {
    var x := sh.sessions[i];
    && 0 < x.gen <= sh.gen
    && (x.gen == sh.gen <==> sh.sess == Some(i))
    && (x.cancelled <==> sh.sess != Some(i))
    && x.tun == i
    && sh.tunnels[i] == (if sh.sess == Some(i) then 0 else 1)
    && Genuine(env, x.server, x.spec, x.pub)
    && x.dues != []
  }

  ghost predicate SharedOk(env: Env, sh: Shared) {
    && |sh.sessions| == |sh.tunnels|
    && (sh.sess.Some? ==> sh.sess.value < |sh.sessions|)
    && (forall i | 0 <= i < |sh.sessions| :: SessionOk(env, sh, i))
    && (forall i, j | 0 <= i < j < |sh.sessions| :: sh.sessions[i].gen < sh.sessions[j].gen)
  }

  ghost predicate LineageOk(sh: Shared, lineage: seq<Lineage>) {
    && |lineage| == |sh.sessions|
    && (forall i | 0 <= i < |lineage| :: SameIdentity(sh.sessions[i].spec, lineage[i].origin))
    && (forall j | 0 <= j < |lineage| && lineage[j].parent.Some? ::
          var i := lineage[j].parent.value;
          i < j && lineage[j].origin == lineage[i].origin)
    && (forall j, k | 0 <= j < k < |lineage| :: lineage[j].parent.Some? ==> lineage[j].parent != lineage[k].parent)
    && (forall j | 0 <= j < |lineage| :: sh.sess.Some? ==> lineage[j].parent != sh.sess)
  }

  predicate LeaseDueFrom(dues: seq<Due>, k: nat) {
    exists j :: k <= j < |dues| && dues[j].LeaseDue?
  }

  predicate LoopIs(lineage: seq<Lineage>, i: nat, who: Who, tid: nat) {
    i < |lineage| && (who.Loop? ==> lineage[i].loop == tid)
  }

  ghost predicate JobOk(env: Env, sh: Shared, lineage: seq<Lineage>, tid: nat, caller: Caller, job: Job)
    requires |lineage| == |sh.sessions|
  {
    && Genuine(env, job.server, job.spec, job.pub)
    && match caller
       case Request => job.gen == 0
       case Renewal(i, who) =>
         && LoopIs(lineage, i, who, tid)
         && job.gen == sh.sessions[i].gen
         && SameIdentity(job.spec, lineage[i].origin)
  }

  /** A loop blocked since before a setLeaseLocked has a wake waiting for it. */
  ghost predicate WakeWaits(x: Session, seen: nat) {
    LeaseDueFrom(x.dues, seen) ==> x.wake
  }

  ghost predicate ThreadOk(env: Env, sh: Shared, lineage: seq<Lineage>, tid: nat, t: Thread)
    requires |lineage| == |sh.sessions|
  {
    match t
    case Enrolling(caller, job) => JobOk(env, sh, lineage, tid, caller, job)
    case Committing(caller, job, _) => JobOk(env, sh, lineage, tid, caller, job)
    case LoopTop(i) => LoopIs(lineage, i, Loop, tid)
    case Blocked(i, seen) =>
      && LoopIs(lineage, i, Loop, tid)
      && 0 < seen <= |sh.sessions[i].dues|
      && WakeWaits(sh.sessions[i], seen)
    case GivingBack(p) => p.server in env.servers
    case Done => true
    case _ => LoopIs(lineage, t.session, t.who, tid)
  }

  ghost predicate ThreadsOk(env: Env, s: State)
    requires |s.lineage| == |s.sh.sessions|
  {
    forall t {:trigger ThreadOk(env, s.sh, s.lineage, t, s.threads[t])} | 0 <= t < |s.threads| ::
      ThreadOk(env, s.sh, s.lineage, t, s.threads[t])
  }

  /** t is session i's renewal loop, and has not ended. */
  predicate RunsLoopOf(t: Thread, i: nat) {
    match t
    case Enrolling(caller, _) => caller == Renewal(i, Loop)
    case Committing(caller, _, _) => caller == Renewal(i, Loop)
    case LoopTop(j) => j == i
    case Blocked(j, _) => j == i
    case GivingBack(_) => false
    case Done => false
    case _ => t.session == i && t.who.Loop?
  }

  /** A live session has a renewer. */
  ghost predicate RenewerOk(s: State)
    requires |s.lineage| == |s.sh.sessions|
  {
    s.sh.sess.Some? ==>
      && s.sh.sess.value < |s.lineage|
      && s.lineage[s.sh.sess.value].loop < |s.threads|
      && RunsLoopOf(s.threads[s.lineage[s.sh.sess.value].loop], s.sh.sess.value)
  }

  // ------------------------------------------------------------------- the log

  predicate Sent(log: seq<Event>, k: nat, p: Peer) {
    exists j :: k < j < |log| && log[j] == Called(DeregisterCall, p.server, Some(p.pub))
  }

  predicate CallOk(env: Env, e: Event) {
    e.Called? ==> e.server in env.servers
  }

  ghost predicate GiveBackOk(s: State, k: nat)
    requires k < |s.log|
  {
    s.log[k].GaveBack? ==>
      && s.log[k].sender < |s.threads|
      && (s.threads[s.log[k].sender] == GivingBack(s.log[k].peer) || Sent(s.log, k, s.log[k].peer))
  }

  ghost predicate LogOk(env: Env, s: State) {
    && (forall k {:trigger CallOk(env, s.log[k])} | 0 <= k < |s.log| :: CallOk(env, s.log[k]))
    && (forall k | 0 <= k < |s.log| :: GiveBackOk(s, k))
  }

  function Settle(open: set<Peer>, e: Event): set<Peer> {
    match e
    case Enrolled(p) => open + {p}
    case GaveBack(p, _) => open - {p}
    case Lapsed(p, _) => open - {p}
    case Called(_, _, _) => open
  }

  /** The enrollments neither given back nor left to lapse since they were last made. */
  function Outstanding(log: seq<Event>): set<Peer> {
    if log == [] then {} else Settle(Outstanding(log[..|log|-1]), log[|log|-1])
  }

  predicate Live(sh: Shared, p: Peer) {
    sh.sess.Some? && sh.sess.value < |sh.sessions| && PeerOf(sh.sessions[sh.sess.value]) == p
  }

  predicate Holds(t: Thread, p: Peer) {
    t.Committing? && Peer(t.job.server, t.job.pub) == p
  }

  predicate HeldByThread(s: State, p: Peer) {
    exists t :: 0 <= t < |s.threads| && Holds(s.threads[t], p)
  }

  /** p is the live session's, or an enrollment on its way to the mutex. */
  predicate Held(s: State, p: Peer) {
    Live(s.sh, p) || HeldByThread(s, p)
  }

  ghost predicate Conserved(s: State) {
    forall p | p in Outstanding(s.log) :: Held(s, p)
  }

  ghost predicate Inv(env: Env, s: State) {
    && SharedOk(env, s.sh)
    && LineageOk(s.sh, s.lineage)
    && ThreadsOk(env, s)
    && RenewerOk(s)
    && LogOk(env, s)
    && Conserved(s)
  }

  lemma InvIndexed(env: Env, s: State)
    requires Inv(env, s)
    ensures Indexed(s)
  {
    forall i | 0 <= i < |s.sh.sessions|
      ensures s.sh.sessions[i].tun < |s.sh.tunnels| && s.sh.sessions[i].dues != []
    {
      assert SessionOk(env, s.sh, i);
    }
    forall t | 0 <= t < |s.threads|
      ensures ThreadIndexed(s.sh, s.threads[t])
    {
      assert ThreadOk(env, s.sh, s.lineage, t, s.threads[t]);
    }
  }

  // ----------------------------------------------- how the guarded state evolves

  /** What never changes about a session, and what only grows. */
  ghost predicate SessionEvolves(x: Session, y: Session) {
    && y.gen == x.gen && y.server == x.server && y.pub == x.pub && y.tun == x.tun && y.address == x.address
    && SameIdentity(y.spec, x.spec)
    && x.dues <= y.dues
    && (x.cancelled ==> y.cancelled)
  }

  /** A session that is not live stays so, and a closed tunnel stays closed. */
  ghost predicate Evolves(sh: Shared, sh': Shared) {
    && |sh.sessions| <= |sh'.sessions| && |sh.tunnels| <= |sh'.tunnels|
    && (forall i {:trigger SessionEvolves(sh.sessions[i], sh'.sessions[i])} | 0 <= i < |sh.sessions| ::
          SessionEvolves(sh.sessions[i], sh'.sessions[i]))
    && (forall t | 0 <= t < |sh.tunnels| :: sh.tunnels[t] <= sh'.tunnels[t])
    && sh.gen <= sh'.gen
    && (sh'.sess.Some? && sh'.sess.value < |sh.sessions| ==> sh.sess == sh'.sess)
  }

  /** Every new lease leaves a wake, and only woken's is taken. */
  ghost predicate WakesKept(sh: Shared, sh': Shared, woken: Option<nat>)
    requires |sh.sessions| <= |sh'.sessions|
  {
    forall i {:trigger WakeKept(sh.sessions[i], sh'.sessions[i], woken == Some(i))} | 0 <= i < |sh.sessions| ::
      WakeKept(sh.sessions[i], sh'.sessions[i], woken == Some(i))
  }

  ghost predicate WakeKept(x: Session, y: Session, taken: bool) {
    && (LeaseDueFrom(y.dues, |x.dues|) ==> y.wake)
    && (x.wake && !taken ==> y.wake)
  }

  lemma EvolvesTransitive(a: Shared, b: Shared, c: Shared)
    requires Evolves(a, b) && Evolves(b, c)
    ensures Evolves(a, c)
  {
    forall i | 0 <= i < |a.sessions|
      ensures SessionEvolves(a.sessions[i], c.sessions[i])
    {
      assert SessionEvolves(a.sessions[i], b.sessions[i]) && SessionEvolves(b.sessions[i], c.sessions[i]);
    }
    forall t | 0 <= t < |a.tunnels|
      ensures a.tunnels[t] <= c.tunnels[t]
    {
      assert a.tunnels[t] <= b.tunnels[t] <= c.tunnels[t];
    }
  }

  lemma StopKeeps(env: Env, sh: Shared)
    requires SharedOk(env, sh)
    ensures Shaped(sh) && Stop(sh).sess.None?
    ensures SharedOk(env, Stop(sh)) && Evolves(sh, Stop(sh)) && WakesKept(sh, Stop(sh), None)
  {
    forall i | 0 <= i < |sh.sessions|
      ensures sh.sessions[i].tun < |sh.tunnels|
    {
      assert SessionOk(env, sh, i);
    }
    var sh' := Stop(sh);
    if sh.sess.Some? {
      var l := sh.sess.value;
      assert SessionOk(env, sh, l);
      forall i | 0 <= i < |sh.sessions|
        ensures SessionOk(env, sh', i)
      {
        assert SessionOk(env, sh, i);
      }
    }
  }

  /** A session and its tunnel come up while none is live. */
  lemma OpenKeeps(env: Env, t: Shared, x: Session)
    requires SharedOk(env, t) && t.sess.None?
    requires x.gen == t.gen + 1 && x.tun == |t.tunnels| && !x.cancelled && x.dues != []
    requires Genuine(env, x.server, x.spec, x.pub)
    ensures var sh' := Shared(Some(|t.sessions|), t.gen + 1, "", t.sessions + [x], t.tunnels + [0]);
            && SharedOk(env, sh') && Evolves(t, sh') && WakesKept(t, sh', None)
  {
    var sh' := Shared(Some(|t.sessions|), t.gen + 1, "", t.sessions + [x], t.tunnels + [0]);
    forall i | 0 <= i < |sh'.sessions|
      ensures SessionOk(env, sh', i)
    {
      if i < |t.sessions| {
        assert SessionOk(env, t, i);
      }
    }
    forall i | 0 <= i < |t.sessions|
      ensures t.sessions[i].gen < x.gen
    {
      assert SessionOk(env, t, i);
    }
  }

  lemma WakesKeptTransitive(a: Shared, b: Shared, c: Shared)
    requires Evolves(a, b) && WakesKept(a, b, None) && Evolves(b, c) && WakesKept(b, c, None)
    ensures Evolves(a, c) && WakesKept(a, c, None)
  {
    EvolvesTransitive(a, b, c);
    forall i | 0 <= i < |a.sessions|
      ensures WakeKept(a.sessions[i], c.sessions[i], false)
    {
      var x, y, z := a.sessions[i], b.sessions[i], c.sessions[i];
      assert SessionEvolves(x, y) && SessionEvolves(y, z);
      assert WakeKept(x, y, None == Some(i)) && WakeKept(y, z, None == Some(i));
      if LeaseDueFrom(z.dues, |x.dues|) {
        var j :| |x.dues| <= j < |z.dues| && z.dues[j].LeaseDue?;
        if j < |y.dues| {
          assert y.dues[j].LeaseDue?;
        }
      }
    }
  }

  lemma CommitKeeps(env: Env, sh: Shared, job: Job, grant: Grant, up: Option<string>, now: int)
    requires SharedOk(env, sh) && Shaped(sh) && Genuine(env, job.server, job.spec, job.pub)
    ensures var sh' := Commit(sh, job, grant, up, now);
            && SharedOk(env, sh') && Evolves(sh, sh') && WakesKept(sh, sh', None)
  {
    StopKeeps(env, sh);
    var t := Stop(sh);
    match VerdictOf(sh, job.gen, up)
    case Superseded =>
    case TunnelFailed => ErrKeeps(env, t, up.value);
    case Committed =>
      var sh' := Commit(sh, job, grant, up, now);
      OpenKeeps(env, t, sh'.sessions[|t.sessions|]);
      WakesKeptTransitive(sh, t, sh');
  }

  /** One session's lease, bearer or wake was written. */
  lemma WriteKeeps(env: Env, sh: Shared, i: nat, y: Session, err: string, woken: Option<nat>)
    requires SharedOk(env, sh) && i < |sh.sessions|
    requires SessionEvolves(sh.sessions[i], y) && y.spec.bearer != "" && y.cancelled == sh.sessions[i].cancelled
    requires LeaseDueFrom(y.dues, |sh.sessions[i].dues|) ==> y.wake
    requires sh.sessions[i].wake && woken != Some(i) ==> y.wake
    ensures var sh' := sh.(sessions := sh.sessions[i := y], lastErr := err);
            && SharedOk(env, sh') && Evolves(sh, sh') && WakesKept(sh, sh', woken)
  {
    var sh' := sh.(sessions := sh.sessions[i := y], lastErr := err);
    assert SessionOk(env, sh, i);
    forall k | 0 <= k < |sh'.sessions|
      ensures SessionOk(env, sh', k)
    {
      assert SessionOk(env, sh, k);
    }
  }

  lemma DropKeeps(env: Env, sh: Shared, i: nat, why: string)
    requires SharedOk(env, sh) && Shaped(sh)
    ensures var sh' := Drop(sh, i, why);
            && SharedOk(env, sh') && Evolves(sh, sh') && WakesKept(sh, sh', None)
            && sh'.sess != Some(i)
  {
    StopKeeps(env, sh);
    ErrKeeps(env, Stop(sh), why);
  }

  lemma ErrKeeps(env: Env, sh: Shared, err: string)
    requires SharedOk(env, sh)
    ensures SharedOk(env, sh.(lastErr := err))
  {
    forall i | 0 <= i < |sh.sessions|
      ensures SessionOk(env, sh.(lastErr := err), i)
    {
      assert SessionOk(env, sh, i);
    }
  }
}
