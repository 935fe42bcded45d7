/** The app's renewal loops: stopRenew is shared by Status, Connect, Disconnect and
    the exit that each loop defers. Every use of it is under the app's mutex, so a
    run is a sequence of these sections, in any order the threads take them. */
module AppLoop {
  import opened Wrappers

  /** A renewal loop: its context, and whether its deferred exit has run. */
  datatype Loop = Loop(cancelled: bool, ended: bool)

  /** stop is stopRenew: the loop it cancels. */
  datatype Core = Core(stop: Option<nat>, loops: seq<Loop>)

  /** A section under the mutex. Status is told what it read before; Connect is the
      section after the helper connected; Exit is the loop's deferred function. */
  datatype Section = Status(connected: bool, loggedIn: bool) | Connect | Disconnect | Exit(loop: nat)

  predicate Running(l: Loop) { !l.cancelled && !l.ended }

  /** stopRenew is non-nil exactly if one loop is running, uncancelled, or about to
      start, and then it is the cancel of that loop. */
  ghost predicate Handed(c: Core) {
    && (c.stop.Some? ==> c.stop.value < |c.loops|)
    && forall l | 0 <= l < |c.loops| :: Running(c.loops[l]) <==> c.stop == Some(l)
  }

  function Cancel(c: Core): Core {
    if c.stop.Some? && c.stop.value < |c.loops| then
      c.(loops := c.loops[c.stop.value := c.loops[c.stop.value].(cancelled := true)])
    else c
  }

  function Start(c: Core): Core {
    Core(Some(|c.loops|), c.loops + [Loop(false, false)])
  }

  function After(c: Core, s: Section): Core {
    match s
    case Status(connected, loggedIn) => if connected && loggedIn && c.stop.None? then Start(c) else c
    case Connect => Start(Cancel(c))
    case Disconnect => Cancel(c).(stop := None)
    case Exit(l) =>
      if l < |c.loops| && !c.loops[l].ended then
        Core(if c.loops[l].cancelled then c.stop else None, c.loops[l := c.loops[l].(ended := true)])
      else c
  }

  function Run(c: Core, ss: seq<Section>): Core
    decreases |ss|
  {
    if ss == [] then c else Run(After(c, ss[0]), ss[1..])
  }

  const NEW := Core(None, [])

  lemma {:induction false} HandedKept(c: Core, ss: seq<Section>)
    requires Handed(c)
    ensures Handed(Run(c, ss))
    decreases |ss|
  {
    if ss != [] {
      HandedKept(After(c, ss[0]), ss[1..]);
    }
  }

  /** At most one loop is uncancelled, and stopRenew is its cancel, however the sections
      of Status, Connect, Disconnect and the loops' exits interleave. */
  lemma OneRenewalLoop(ss: seq<Section>)
    ensures var c := Run(NEW, ss);
            && (c.stop.Some? ==> c.stop.value < |c.loops| && Running(c.loops[c.stop.value]))
            && forall k, l | 0 <= k < |c.loops| && 0 <= l < |c.loops| && Running(c.loops[k]) && Running(c.loops[l]) ::
                 k == l && c.stop == Some(k)
  {
    HandedKept(NEW, ss);
  }

  /** A loop's exit takes only its own entry away: every other running loop runs on,
      and stopRenew still is its cancel. */
  lemma ExitClearsItsOwn(ss: seq<Section>, l: nat)
    requires l < |Run(NEW, ss).loops|
    ensures var c := Run(NEW, ss);
            var c' := After(c, Exit(l));
            && c'.stop == (if c.stop == Some(l) then None else c.stop)
            && (forall k | 0 <= k < |c.loops| && k != l :: c'.loops[k] == c.loops[k])
            && c'.loops[l].ended
  {
    HandedKept(NEW, ss);
  }

  /** A Connect, and a Status of a session that is connected and logged in, leave a loop
      running, Connect always a new one. */
  lemma ConnectedHasLoop(ss: seq<Section>, s: Section)
    requires StartsLoop(s)
    ensures var c := Run(NEW, ss);
            var c' := After(c, s);
            && c'.stop.Some? && c'.stop.value < |c'.loops| && Running(c'.loops[c'.stop.value])
            && (s.Connect? || c.stop.None? ==> c'.stop.value == |c.loops| && |c'.loops| == |c.loops| + 1)
            && (s.Status? && c.stop.Some? ==> c' == c)
  {
    HandedKept(NEW, ss);
  }

  /** A loop that was cancelled or has ended never runs again. */
  lemma {:induction false} StoppedStaysStopped(c: Core, ss: seq<Section>, l: nat)
    requires l < |c.loops| && !Running(c.loops[l])
    ensures var c' := Run(c, ss);
            |c.loops| <= |c'.loops| && !Running(c'.loops[l])
    decreases |ss|
  {
    if ss != [] {
      var c1 := After(c, ss[0]);
      assert |c.loops| <= |c1.loops| && !Running(c1.loops[l]);
      StoppedStaysStopped(c1, ss[1..], l);
    }
  }

  predicate StartsLoop(s: Section) {
    s.Connect? || (s.Status? && s.connected && s.loggedIn)
  }

  /** From Disconnect on no loop is running, until a Connect, or a Status that had read
      the helper connected, starts one. */
  lemma DisconnectStopsRenewing(before: seq<Section>, after: seq<Section>)
    requires forall s | s in after :: !StartsLoop(s)
    ensures var c := Run(After(Run(NEW, before), Disconnect), after);
            c.stop.None? && forall l | 0 <= l < |c.loops| :: !Running(c.loops[l])
  {
    HandedKept(NEW, before);
    NothingStarts(After(Run(NEW, before), Disconnect), after);
    HandedKept(After(Run(NEW, before), Disconnect), after);
  }

  lemma {:induction false} NothingStarts(c: Core, ss: seq<Section>)
    requires Handed(c) && c.stop.None? && forall s | s in ss :: !StartsLoop(s)
    ensures Run(c, ss).stop.None?
    decreases |ss|
  {
    if ss != [] {
      assert ss[0] in ss && forall s | s in ss[1..] :: s in ss;
      NothingStarts(After(c, ss[0]), ss[1..]);
    }
  }

  /** A loop's context. */
  class Context {
    var cancelled: bool
    var ended: bool

    constructor ()
      ensures !cancelled && !ended
    {
      cancelled, ended := false, false;
    }
  }

  class App {
    var stopRenew: Context?       // the context whose cancel stopRenew holds
    ghost var loops: seq<Context> // the context of every loop ever started
    ghost var model: Core

    ghost predicate Valid()
      reads this, loops
    {
      && Handed(model) && |loops| == |model.loops|
      && (stopRenew == null <==> model.stop.None?)
      && (model.stop.Some? ==> stopRenew == loops[model.stop.value])
      && (forall l | 0 <= l < |loops| :: Loop(loops[l].cancelled, loops[l].ended) == model.loops[l])
      && (forall k, l | 0 <= k < l < |loops| :: loops[k] != loops[l])
    }

    constructor ()
      ensures Valid() && model == NEW
    {
      stopRenew, loops, model := null, [], NEW;
    }

    /** The section of Status that may start a loop for a tunnel it did not bring up. */
    method StatusSection(connected: bool, loggedIn: bool) returns (started: Context?)
      requires Valid()
      modifies this
      ensures Valid() && model == After(old(model), Status(connected, loggedIn)) && old(loops) <= loops
    {
      started := null;
      if connected && loggedIn && stopRenew == null {
        started := new Context();
        stopRenew := started;
        loops, model := loops + [started], Start(model);
      }
    }

    /** The section of Connect, after the helper connected. */
    method ConnectSection() returns (started: Context)
      requires Valid()
      modifies this, loops
      ensures Valid() && model == After(old(model), Connect) && old(loops) <= loops
    {
      started := new Context();
      if stopRenew != null {
        stopRenew.cancelled := true;
      }
      stopRenew := started;
      loops, model := loops + [started], Start(Cancel(model));
    }

    method DisconnectSection()
      requires Valid()
      modifies this, loops
      ensures Valid() && model == After(old(model), Disconnect) && loops == old(loops)
    {
      if stopRenew != null {
        stopRenew.cancelled := true;
        stopRenew := null;
      }
      model := Cancel(model).(stop := None);
    }

    /** What keepRenewing defers. */
    method ExitSection(ctx: Context, ghost l: nat)
      requires Valid() && l < |loops| && loops[l] == ctx && !ctx.ended
      modifies this, ctx
      ensures Valid() && model == After(old(model), Exit(l)) && loops == old(loops)
    {
      if !ctx.cancelled {
        stopRenew := null;
      }
      ctx.ended := true;
      model := After(model, Exit(l));
    }
  }
}
