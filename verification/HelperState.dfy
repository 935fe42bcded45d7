/** What the helper's mutex guards, and what each critical section does to it.
    Sessions and tunnels are kept for ever, in the order they were created: a
    session stays known to the threads that still hold it after it was stopped. */
module HelperState {
  import opened LeaseClock
  import opened Wrappers

  type Key = nat

  datatype Spec = Spec(serverURL: string, bearer: string, privateKey: string, deviceName: string, tenant: string)

  /** An enrollment, as the server sees it. */
  datatype Peer = Peer(server: string, pub: Key)

  /** The helper's own configuration, and how a private key is read. */
  datatype Env = Env(servers: seq<string>, pub: string -> Option<Key>)

  /** A write to renewBy: by setLeaseLocked, which also sends a wake, or by the
      retry branch of renew, which does not. */
  datatype Due = LeaseDue(wrote: int, lease: Option<int>) | RetryDue(wrote: int, lease: Option<int>)

  /** The deadline written, from when and under which lease it was. */
  function At(d: Due): int {
    match d
    case LeaseDue(wrote, lease) => wrote + HelperDelay(Remaining(lease, wrote))
    case RetryDue(wrote, lease) => wrote + RetryGap(RetryLeft(lease, wrote))
  }

  datatype Session = Session(gen: nat, server: string, spec: Spec, pub: Key, tun: nat, address: string,
                             lease: Option<int>, dues: seq<Due>, wake: bool, cancelled: bool)

  /** tunnels[t] counts how often tunnel t was closed. */
  datatype Shared = Shared(sess: Option<nat>, gen: nat, lastErr: string,
                           sessions: seq<Session>, tunnels: seq<nat>)

  /** An enrollment on its way to its critical section; gen 0 is a connect. */
  datatype Job = Job(gen: nat, server: string, spec: Spec, pub: Key)

  datatype Grant = Grant(address: string, lease: Option<int>)

  datatype Verdict = Superseded | TunnelFailed | Committed

  datatype Refusal = MissingSpec | NotConfigured(url: string)

  // ------------------------------------------------- which server may be used

  function TrimSlashes(s: string): (t: string)
    ensures t <= s && (t != "" ==> t[|t|-1] != '/')
    ensures forall k | |t| <= k < |s| :: s[k] == '/'
  {
    if s != "" && s[|s|-1] == '/' then TrimSlashes(s[..|s|-1]) else s
  }

  predicate Names(configured: string, wanted: string) {
    TrimSlashes(configured) == TrimSlashes(wanted)
  }

  /** Slashes at the end do not count, and all else does. */
  lemma NamesUpToSlashes(a: string, b: string)
    ensures Names(a + "/", b) == Names(a, b) == Names(a, b + "/")
    ensures (a != "" ==> a[|a|-1] != '/') && (b != "" ==> b[|b|-1] != '/') ==> (Names(a, b) <==> a == b)
  {
    assert (a + "/")[..|a|] == a && (b + "/")[..|b|] == b;
  }

  /** The first configured server that wanted names. */
  function FirstNamed(servers: seq<string>, wanted: string): Option<string> {
    if servers == [] then None
    else if Names(servers[0], wanted) then Some(servers[0])
    else FirstNamed(servers[1..], wanted)
  }

  function Allowed(servers: seq<string>, spec: Option<Spec>): Result<string, Refusal> {
    if spec.None? || spec.value.bearer == "" then Err(MissingSpec)
    else match FirstNamed(servers, spec.value.serverURL)
      case Some(u) => Ok(u)
      case None => Err(NotConfigured(spec.value.serverURL))
  }

  /** The k-th server is the first that wanted names. */
  predicate NamedFirst(servers: seq<string>, wanted: string, k: int) {
    && 0 <= k < |servers| && Names(servers[k], wanted)
    && forall j | 0 <= j < k :: !Names(servers[j], wanted)
  }

  lemma {:induction false} FirstNamedIsConfigured(servers: seq<string>, wanted: string)
    ensures var r := FirstNamed(servers, wanted);
            if r.Some? then exists k :: NamedFirst(servers, wanted, k) && r.value == servers[k]
            else forall u | u in servers :: !Names(u, wanted)
    ensures FirstNamed(servers, wanted).Some? ==> FirstNamed(servers, wanted).value in servers
  {
    if servers != [] {
      FirstNamedIsConfigured(servers[1..], wanted);
      if Names(servers[0], wanted) {
        assert NamedFirst(servers, wanted, 0);
      } else if FirstNamed(servers[1..], wanted).Some? {
        var k :| NamedFirst(servers[1..], wanted, k) && FirstNamed(servers[1..], wanted).value == servers[1..][k];
        assert NamedFirst(servers, wanted, k + 1);
      }
    }
  }

  /** A spec is allowed, on the k-th server, exactly if it brings a bearer and names that
      server first. */
  lemma AllowedExactly(servers: seq<string>, spec: Spec, k: int)
    requires NamedFirst(servers, spec.serverURL, k)
    ensures Allowed(servers, Some(spec)) == if spec.bearer == "" then Err(MissingSpec) else Ok(servers[k])
  {
    FirstNamedIsConfigured(servers, spec.serverURL);
  }

  // -------------------------------------------------------- critical sections

  function PeerOf(x: Session): Peer { Peer(x.server, x.pub) }

  ghost predicate Shaped(s: Shared) {
    && (s.sess.Some? ==> s.sess.value < |s.sessions|)
    && (forall i | 0 <= i < |s.sessions| :: s.sessions[i].tun < |s.tunnels|)
  }

  /** stopLocked: cancels the live session's context and closes its tunnel. */
  function Stop(s: Shared): Shared
    requires Shaped(s)
  {
    match s.sess
    case None => s
    case Some(i) =>
      var x := s.sessions[i];
      s.(sess := None, gen := s.gen + 1,
         sessions := s.sessions[i := x.(cancelled := true)],
         tunnels := s.tunnels[x.tun := s.tunnels[x.tun] + 1])
  }

  /** setLeaseLocked. */
  function SetLease(x: Session, lease: Option<int>, now: int): Session {
    x.(lease := lease, dues := x.dues + [LeaseDue(now, lease)], wake := true)
  }

  function VerdictOf(s: Shared, gen: nat, up: Option<string>): Verdict {
    if gen != 0 && s.gen != gen then Superseded
    else if up.Some? then TunnelFailed
    else Committed
  }

  /** The enrollment that enroll's critical section decides to give back: its own
      when superseded, the previous session's otherwise -- in both cases unless
      the other one is that same enrollment. */
  function GivesBack(s: Shared, job: Job): Option<Peer>
    requires Shaped(s)
  {
    var mine := Peer(job.server, job.pub);
    var live := if s.sess.Some? then Some(PeerOf(s.sessions[s.sess.value])) else None;
    if live == Some(mine) then None
    else if job.gen != 0 && s.gen != job.gen then Some(mine)
    else live
  }

  /** enroll, from taking the mutex to releasing it; up is bringing the tunnel up. */
  function Commit(s: Shared, job: Job, grant: Grant, up: Option<string>, now: int): Shared
    requires Shaped(s)
  {
    match VerdictOf(s, job.gen, up)
    case Superseded => s
    case TunnelFailed => Stop(s).(lastErr := up.value)
    case Committed =>
      var t := Stop(s);
      var x := Session(t.gen + 1, job.server, job.spec, job.pub, |t.tunnels|, grant.address, None, [], false, false);
      Shared(Some(|t.sessions|), t.gen + 1, "", t.sessions + [SetLease(x, grant.lease, now)], t.tunnels + [0])
  }

  /** The critical section of renew's 200 branch. */
  function Renew(s: Shared, i: nat, lease: Option<int>, now: int): Shared
    requires i < |s.sessions|
  {
    s.(sessions := s.sessions[i := SetLease(s.sessions[i], lease, now)],
       lastErr := if s.sess == Some(i) then "" else s.lastErr)
  }

  /** The critical section of renew's default branch. */
  function RetryLater(s: Shared, i: nat, why: string, now: int): Shared
    requires i < |s.sessions|
  {
    var x := s.sessions[i];
    s.(sessions := s.sessions[i := x.(dues := x.dues + [RetryDue(now, x.lease)])], lastErr := "renewal failed: " + why)
  }

  function Drop(s: Shared, i: nat, why: string): Shared
    requires Shaped(s)
  {
    if s.sess == Some(i) then Stop(s).(lastErr := why) else s
  }

  /** The critical section of renewNow. */
  function BringBearer(s: Shared, bearer: string): Shared
    requires Shaped(s) && s.sess.Some?
  {
    var i := s.sess.value;
    var x := s.sessions[i];
    s.(sessions := s.sessions[i := x.(spec := x.spec.(bearer := bearer))])
  }

  /** The renewal loop receives from the wake channel. */
  function TakeWake(s: Shared, i: nat): Shared
    requires i < |s.sessions|
  {
    s.(sessions := s.sessions[i := s.sessions[i].(wake := false)])
  }
}
