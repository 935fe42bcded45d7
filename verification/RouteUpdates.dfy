/** The adapter's route table: set from a plan, then changed by pushed lists, each
    compared as text with the one before. */
module RouteUpdates {
  import opened NetPlan
  import opened Powers
  import opened Prefixes
  import opened Wrappers

  /** What the system answers during one update: whether WireGuard takes the list,
      which routes can be added (one already there counts), which can be deleted. */
  datatype System = System(takes: bool, adds: string -> bool, deletes: string -> bool)

  predicate Addable(parser: Parser, sys: System, t: string) {
    ParseRoute(parser, t).Some? ==> sys.adds(t)
  }

  /** The texts of list that are not in had, up to the first that cannot be added. */
  function Added(parser: Parser, sys: System, had: set<string>, list: seq<string>): set<string> {
    if list == [] then {}
    else if list[0] in had then Added(parser, sys, had, list[1..])
    else if !Addable(parser, sys, list[0]) then {}
    else {list[0]} + Added(parser, sys, had, list[1..])
  }

  predicate AllAddable(parser: Parser, sys: System, had: set<string>, list: seq<string>) {
    forall t | t in list && t !in had :: Addable(parser, sys, t)
  }

  lemma {:induction false} AddedAll(parser: Parser, sys: System, had: set<string>, list: seq<string>)
    requires AllAddable(parser, sys, had, list)
    ensures Added(parser, sys, had, list) == Texts(list) - had
    decreases |list|
  {
    if list != [] {
      assert list == [list[0]] + list[1..];
      AddedAll(parser, sys, had, list[1..]);
    }
  }

  /** The texts dropped whose deletion goes through. */
  function Gone(sys: System, had: set<string>, wanted: set<string>): set<string> {
    set t | t in had - wanted && sys.deletes(t)
  }

  function Changed(parser: Parser, table: set<Net>, gone: set<string>, added: set<string>): set<Net> {
    (table - RoutesOf(parser, gone)) + RoutesOf(parser, added)
  }

  /** The list that the tunnel last took, and the adapter's routes. */
  datatype Adapter = Adapter(list: seq<string>, table: set<Net>)

  predicate Succeeds(parser: Parser, list: seq<string>, want: seq<string>, sys: System) {
    sys.takes && AllAddable(parser, sys, Texts(list), want)
  }

  /** What an update does: deletions come first and their failures pass unnoticed; an
      addition that fails ends it, and leaves the list of before. */
  function Update(parser: Parser, a: Adapter, want: seq<string>, sys: System): Adapter {
    if !sys.takes then a
    else
      var had := Texts(a.list);
      Adapter(if Succeeds(parser, a.list, want, sys) then want else a.list,
              Changed(parser, a.table, Gone(sys, had, Texts(want)), Added(parser, sys, had, want)))
  }

  function Planned(plan: Plan, six: bool): seq<Net> {
    if six then plan.routes6 else plan.routes4
  }

  /** What comes of replacing a family's routes: all are set, or it fails with some left. */
  datatype Setting = AllSet | Failed(left: set<Net>)

  /** Configuring a family fails where it sets the family's routes, or after. */
  predicate FamilyOk(plan: Plan, six: bool, sets: Setting, rest: bool) {
    (Planned(plan, six) == [] || sets.AllSet?) && ((Planned(plan, six) == [] && plan.address.six != six) || rest)
  }

  function OfFamily(table: set<Net>, six: bool): set<Net> {
    set p | p in table && p.six == six
  }

  /** The table after a family's routes were replaced, if the plan has any. */
  function FamilySet(table: set<Net>, plan: Plan, six: bool, sets: Setting): set<Net> {
    if Planned(plan, six) == [] then table
    else
      OfFamily(table, !six) +
      match sets
      case AllSet => set p | p in Planned(plan, six)
      case Failed(left) => OfFamily(left, six)
  }

  class Tunnel {
    const parser: Parser
    var allowedIPs: seq<string>
    var routes: set<Net>

    /** A new adapter has no routes. */
    constructor (parser: Parser, allowedIPs: seq<string>)
      ensures this.parser == parser && this.allowedIPs == allowedIPs && routes == {}
    {
      this.parser, this.allowedIPs, routes := parser, allowedIPs, {};
    }

    /** What configureNetwork does for one family, as far as the routes go: they are
        replaced if the plan has any; then come address, metric, MTU and resolvers, unless
        nothing of the family goes through the tunnel. */
    method ConfigureFamily(plan: Plan, six: bool, sets: Setting, rest: bool) returns (ok: bool)
      modifies this`routes
      ensures ok <==> FamilyOk(plan, six, sets, rest)
      ensures routes == FamilySet(old(routes), plan, six, sets)
    {
      var planned := if six then plan.routes6 else plan.routes4;
      if planned != [] {
        var others := OfFamily(routes, !six);
        match sets
        case Failed(left) =>
          routes := others + OfFamily(left, six);
          return false;
        case AllSet =>
          routes := others + (set p | p in planned);
      }
      if plan.address.six != six && planned == [] {
        return true;
      }
      ok := rest;
    }

    /** configureNetwork: IPv4 first, and IPv6 only if all of that went well. */
    method ConfigureNetwork(plan: Plan, sets4: Setting, rest4: bool, sets6: Setting, rest6: bool) returns (ok: bool)
      modifies this`routes
      ensures ok <==> FamilyOk(plan, false, sets4, rest4) && FamilyOk(plan, true, sets6, rest6)
      ensures var first := FamilySet(old(routes), plan, false, sets4);
              routes == if FamilyOk(plan, false, sets4, rest4) then FamilySet(first, plan, true, sets6) else first
    {
      ok := ConfigureFamily(plan, false, sets4, rest4);
      if ok {
        ok := ConfigureFamily(plan, true, sets6, rest6);
      }
    }

    method RouteAdd(t: string, adds: bool) returns (ok: bool)
      modifies this`routes
      ensures ok <==> ParseRoute(parser, t).Some? ==> adds
      ensures routes == old(routes) + if ok then RoutesOf(parser, {t}) else {}
    {
      var r := ParseRoute(parser, t);
      if r.None? {
        return true;
      }
      if adds {
        routes := routes + {r.value};
      }
      ok := adds;
    }

    method RouteDel(t: string, deletes: bool)
      modifies this`routes
      ensures routes == old(routes) - if deletes then RoutesOf(parser, {t}) else {}
    {
      var r := ParseRoute(parser, t);
      if r.Some? && deletes {
        routes := routes - {r.value};
      }
    }

    /** UpdateRoutes. */
    method UpdateRoutes(want: seq<string>, sys: System) returns (ok: bool)
      modifies this
      ensures ok <==> Succeeds(parser, old(allowedIPs), want, sys)
      ensures Adapter(allowedIPs, routes) == Update(parser, Adapter(old(allowedIPs), old(routes)), want, sys)
    {
      if !sys.takes {
        return false;
      }
      var had := Texts(allowedIPs);
      var wanted := Texts(want);
      DeleteDropped(had, wanted, sys);
      ok := AddNew(had, want, sys);
      if ok {
        allowedIPs := want;
      }
    }

    /** The texts not had are added in the order of the list, up to the first failure. */
    method AddNew(had: set<string>, want: seq<string>, sys: System) returns (ok: bool)
      modifies this`routes
      ensures ok <==> AllAddable(parser, sys, had, want)
      ensures routes == old(routes) + RoutesOf(parser, Added(parser, sys, had, want))
    {
      ghost var added: set<string> := {};
      for k := 0 to |want|
        invariant AllAddable(parser, sys, had, want[..k])
        invariant Added(parser, sys, had, want) == added + Added(parser, sys, had, want[k..])
        invariant routes == old(routes) + RoutesOf(parser, added)
      {
        var t := want[k];
        assert want[k..][0] == t && want[k..][1..] == want[k+1..];
        if t !in had {
          RoutesOfUnion(parser, added, {t});
          var fits := RouteAdd(t, sys.adds(t));
          if !fits {
            assert t in want;
            return false;
          }
          added := added + {t};
        }
        assert want[..k+1] == want[..k] + [t];
      }
      assert want[..|want|] == want;
      ok := true;
    }

    /** The texts dropped are deleted in whatever order the map gives them. */
    method DeleteDropped(had: set<string>, wanted: set<string>, sys: System)
      modifies this`routes
      ensures routes == old(routes) - RoutesOf(parser, Gone(sys, had, wanted))
    {
      var left := had;
      while left != {}
        invariant left <= had
        invariant routes == old(routes) - RoutesOf(parser, set t | t in had - wanted && t !in left && sys.deletes(t))
        decreases left
      {
        var t :| t in left;
        left := left - {t};
        if t !in wanted {
          RouteDel(t, sys.deletes(t));
        }
      }
    }
  }

  // ------------------------------------------------------- an update, route by route

  /** The k-th text of the list is new, and its route cannot be added. */
  predicate FailsAt(parser: Parser, sys: System, had: seq<string>, list: seq<string>, k: nat) {
    k < |list| && list[k] !in had && ParseRoute(parser, list[k]).Some? && !sys.adds(list[k])
  }

  /** The texts of the list up to the first that is new and cannot be added, or all. */
  ghost predicate Reached(parser: Parser, sys: System, had: seq<string>, list: seq<string>, n: nat) {
    && n <= |list| && (forall k | 0 <= k < n :: !FailsAt(parser, sys, had, list, k))
    && (n < |list| ==> FailsAt(parser, sys, had, list, n))
  }

  /** There is one such n. */
  function UpTo(parser: Parser, sys: System, had: seq<string>, list: seq<string>): (n: nat)
    ensures Reached(parser, sys, had, list, n)
  {
    FirstFailure(parser, sys, had, list, 0)
  }

  function FirstFailure(parser: Parser, sys: System, had: seq<string>, list: seq<string>, from: nat): (n: nat)
    requires from <= |list| && forall k | 0 <= k < from :: !FailsAt(parser, sys, had, list, k)
    ensures Reached(parser, sys, had, list, n)
    decreases |list| - from
  {
    if from == |list| || FailsAt(parser, sys, had, list, from) then from
    else FirstFailure(parser, sys, had, list, from + 1)
  }

  /** r is the route of a new text before the n-th. */
  predicate Brought(parser: Parser, had: seq<string>, list: seq<string>, n: nat, r: Net)
    requires n <= |list|
  {
    exists k :: 0 <= k < n && list[k] !in had && ParseRoute(parser, list[k]) == Some(r)
  }

  /** r is the route of a text that was dropped, and whose deletion goes through. */
  predicate Taken(parser: Parser, sys: System, had: seq<string>, list: seq<string>, r: Net) {
    exists k :: 0 <= k < |had| && had[k] !in list && sys.deletes(had[k]) && ParseRoute(parser, had[k]) == Some(r)
  }

  lemma {:induction false} AddedExactly(parser: Parser, sys: System, had: seq<string>, list: seq<string>,
                                        from: nat, n: nat)
    requires Reached(parser, sys, had, list, n) && from <= n
    ensures forall t :: t in Added(parser, sys, Texts(had), list[from..]) <==> t !in had && t in list[from..n]
    decreases n - from
  {
    if from < |list| {
      assert list[from..][0] == list[from] && list[from..][1..] == list[from+1..];
    }
    if from < n {
      assert !FailsAt(parser, sys, had, list, from);
      AddedExactly(parser, sys, had, list, from + 1, n);
      assert list[from..n] == [list[from]] + list[from+1..n];
    }
  }

  /** An update that WireGuard takes, route by route: the table has the routes of the new texts
      up to the first that cannot be added, and of what it had all but those of the texts
      dropped that could be deleted. The list is the new one exactly if no addition failed. */
  lemma UpdateExactly(parser: Parser, a: Adapter, want: seq<string>, sys: System, n: nat)
    requires sys.takes && Reached(parser, sys, a.list, want, n)
    ensures var b := Update(parser, a, want, sys);
            && b.list == (if n == |want| then want else a.list)
            && forall r :: r in b.table <==>
                             Brought(parser, a.list, want, n, r)
                             || (r in a.table && !Taken(parser, sys, a.list, want, r))
  {
    AddedExactly(parser, sys, a.list, want, 0, n);
    assert want[0..] == want;
    ListExactly(parser, a.list, want, sys, n);
    forall r: Net
      ensures r in RoutesOf(parser, Added(parser, sys, Texts(a.list), want)) <==> Brought(parser, a.list, want, n, r)
      ensures r in RoutesOf(parser, Gone(sys, Texts(a.list), Texts(want))) <==> Taken(parser, sys, a.list, want, r)
    {
      AddedRoute(parser, a, want, sys, n, r);
      GoneRoute(parser, a, want, sys, r);
    }
  }

  lemma ListExactly(parser: Parser, had: seq<string>, want: seq<string>, sys: System, n: nat)
    requires sys.takes && Reached(parser, sys, had, want, n)
    ensures Succeeds(parser, had, want, sys) <==> n == |want|
  {
    if n < |want| {
      assert want[n] in want && !Addable(parser, sys, want[n]);
    } else {
      forall t | t in want && t !in Texts(had)
        ensures Addable(parser, sys, t)
      {
        var k :| 0 <= k < |want| && want[k] == t;
        assert !FailsAt(parser, sys, had, want, k);
      }
    }
  }

  lemma AddedRoute(parser: Parser, a: Adapter, want: seq<string>, sys: System, n: nat, r: Net)
    requires Reached(parser, sys, a.list, want, n)
    requires forall t :: t in Added(parser, sys, Texts(a.list), want) <==> t !in a.list && t in want[0..n]
    ensures r in RoutesOf(parser, Added(parser, sys, Texts(a.list), want)) <==> Brought(parser, a.list, want, n, r)
  {
    var added := Added(parser, sys, Texts(a.list), want);
    if r in RoutesOf(parser, added) {
      var t :| t in added && ParseRoute(parser, t) == Some(r);
      var k :| 0 <= k < n && want[0..n][k] == t;
      assert want[k] == t;
    }
    if Brought(parser, a.list, want, n, r) {
      var k :| 0 <= k < n && want[k] !in a.list && ParseRoute(parser, want[k]) == Some(r);
      assert want[0..n][k] == want[k];
      assert want[k] in added;
    }
  }

  lemma GoneRoute(parser: Parser, a: Adapter, want: seq<string>, sys: System, r: Net)
    ensures r in RoutesOf(parser, Gone(sys, Texts(a.list), Texts(want))) <==> Taken(parser, sys, a.list, want, r)
  {
    var gone := Gone(sys, Texts(a.list), Texts(want));
    if r in RoutesOf(parser, gone) {
      var t :| t in gone && ParseRoute(parser, t) == Some(r);
      var k :| 0 <= k < |a.list| && a.list[k] == t;
      assert a.list[k] !in want;
    }
    if Taken(parser, sys, a.list, want, r) {
      var k :| && 0 <= k < |a.list| && a.list[k] !in want && sys.deletes(a.list[k])
               && ParseRoute(parser, a.list[k]) == Some(r);
      assert a.list[k] in gone;
    }
  }

  /** Setting the routes of a family leaves those of the other alone, and all if it has none to
      set; otherwise it leaves exactly the planned ones, or any of the family where it fails. */
  lemma FamilySetExactly(table: set<Net>, plan: Plan, sets: Setting, p: Net)
    requires (forall q | q in plan.routes4 :: !q.six) && (forall q | q in plan.routes6 :: q.six)
    ensures var t4, t6 := FamilySet(table, plan, false, sets), FamilySet(table, plan, true, sets);
            && (p.six ==> (p in t4 <==> p in table)) && (!p.six ==> (p in t6 <==> p in table))
            && (plan.routes4 == [] ==> t4 == table) && (plan.routes6 == [] ==> t6 == table)
            && (sets.AllSet? && plan.routes4 != [] && !p.six ==> (p in t4 <==> p in plan.routes4))
            && (sets.AllSet? && plan.routes6 != [] && p.six ==> (p in t6 <==> p in plan.routes6))
            && (sets.Failed? && plan.routes4 != [] && !p.six ==> (p in t4 <==> p in sets.left))
            && (sets.Failed? && plan.routes6 != [] && p.six ==> (p in t6 <==> p in sets.left))
  {
  }

  /** Configuring goes well exactly if the routes of every family that has some are all set,
      and the rest of every family that has some, or the address. */
  lemma ConfiguresExactly(plan: Plan, sets4: Setting, rest4: bool, sets6: Setting, rest6: bool)
    ensures FamilyOk(plan, false, sets4, rest4) && FamilyOk(plan, true, sets6, rest6)
       <==> && (plan.routes4 != [] ==> sets4.AllSet?) && (plan.routes6 != [] ==> sets6.AllSet?)
            && (plan.routes4 != [] || !plan.address.six ==> rest4)
            && (plan.routes6 != [] || plan.address.six ==> rest6)
  {
  }

  // ------------------------------------------------------- incremental and from scratch

  /** The table has the routes of the list. */
  predicate Agrees(parser: Parser, a: Adapter) {
    a.table == RoutesOf(parser, Texts(a.list))
  }

  /** No route of lost is asked for by a text kept, unless one added asks for it too. */
  predicate Spares(parser: Parser, lost: set<Net>, had: set<string>, wanted: set<string>) {
    lost * RoutesOf(parser, had * wanted) <= RoutesOf(parser, wanted - had)
  }

  lemma RoutesOfUnion(parser: Parser, a: set<string>, b: set<string>)
    ensures RoutesOf(parser, a + b) == RoutesOf(parser, a) + RoutesOf(parser, b)
  {
    forall p | p in RoutesOf(parser, a + b)
      ensures p in RoutesOf(parser, a) + RoutesOf(parser, b)
    {
      var t :| t in a + b && ParseRoute(parser, t) == Some(p);
      assert t in a || t in b;
    }
  }

  lemma KeptAndChanged(parser: Parser, had: set<string>, wanted: set<string>)
    ensures RoutesOf(parser, had) == RoutesOf(parser, had * wanted) + RoutesOf(parser, had - wanted)
    ensures RoutesOf(parser, wanted) == RoutesOf(parser, had * wanted) + RoutesOf(parser, wanted - had)
  {
    RoutesOfUnion(parser, had * wanted, had - wanted);
    RoutesOfUnion(parser, had * wanted, wanted - had);
    assert had * wanted + (had - wanted) == had && had * wanted + (wanted - had) == wanted;
  }

  /** Whatever came before it: after an update that succeeds the table agrees with its list
      exactly if no route is missing that a kept text asks for, and no text adds, and every
      route that nothing wants was deleted. */
  lemma SuccessAgreesExactly(parser: Parser, a: Adapter, want: seq<string>, sys: System)
    requires Succeeds(parser, a.list, want, sys)
    ensures var had, wanted := Texts(a.list), Texts(want);
            var gone := RoutesOf(parser, Gone(sys, had, wanted));
            Agrees(parser, Update(parser, a, want, sys))
            <==> && RoutesOf(parser, had * wanted) - (a.table - gone) <= RoutesOf(parser, wanted - had)
                 && a.table - RoutesOf(parser, wanted) <= gone
  {
    AddedAll(parser, sys, Texts(a.list), want);
    KeptAndChanged(parser, Texts(a.list), Texts(want));
  }

  /** The texts that change between list and want do not upset the table: of an update that
      succeeds, those whose deletion goes through ask for no route of one that is kept, and
      those whose deletion fails for none that nothing wants; of one that fails half-way,
      the additions that went through bring back just what was deleted. */
  predicate Undisturbed(parser: Parser, list: seq<string>, want: seq<string>, sys: System) {
    var had, wanted := Texts(list), Texts(want);
    var gone := RoutesOf(parser, Gone(sys, had, wanted));
    if !sys.takes then true
    else if Succeeds(parser, list, want, sys) then
      Spares(parser, gone, had, wanted) && RoutesOf(parser, had - wanted) - gone <= RoutesOf(parser, wanted)
    else
      gone <= RoutesOf(parser, Added(parser, sys, had, want)) <= RoutesOf(parser, had)
  }

  /** From a table that agrees with the list, an update -- whether it succeeds, fails
      half-way or is not taken -- agrees again exactly then. */
  lemma UpdateAgreesExactly(parser: Parser, a: Adapter, want: seq<string>, sys: System)
    requires Agrees(parser, a)
    ensures Agrees(parser, Update(parser, a, want, sys)) <==> Undisturbed(parser, a.list, want, sys)
  {
    var had, wanted := Texts(a.list), Texts(want);
    KeptAndChanged(parser, had, wanted);
    var gone := Gone(sys, had, wanted);
    RoutesOfUnion(parser, gone, had - wanted - gone);
    assert gone + (had - wanted - gone) == had - wanted;
    if Succeeds(parser, a.list, want, sys) {
      SuccessAgreesExactly(parser, a, want, sys);
    }
  }

  /** No text dropped asks for the route of a text kept, unless one added asks for it too. */
  predicate NoAlias(parser: Parser, had: set<string>, wanted: set<string>) {
    Spares(parser, RoutesOf(parser, had - wanted), had, wanted)
  }

  /** Where no deletion fails, that is all a successful update takes. */
  lemma IncrementalExactly(parser: Parser, a: Adapter, want: seq<string>, sys: System)
    requires Agrees(parser, a) && Succeeds(parser, a.list, want, sys)
    requires forall t | t in a.list && t !in want :: sys.deletes(t)
    ensures Agrees(parser, Update(parser, a, want, sys)) <==> NoAlias(parser, Texts(a.list), Texts(want))
  {
    UpdateAgreesExactly(parser, a, want, sys);
    assert Gone(sys, Texts(a.list), Texts(want)) == Texts(a.list) - Texts(want);
  }

  /** If no two texts ask for the same route, there are no aliases. */
  lemma DistinctRoutesNeverAlias(parser: Parser, had: set<string>, wanted: set<string>)
    requires forall t, u | t in had && u in had && ParseRoute(parser, t).Some? && t != u ::
               ParseRoute(parser, t) != ParseRoute(parser, u)
    ensures NoAlias(parser, had, wanted)
  {
  }

  // ------------------------------------------------------- any number of updates

  /** A pushed list, and what the system answers to it. */
  type Push = (seq<string>, System)

  function Updates(parser: Parser, a: Adapter, pushes: seq<Push>): Adapter
    decreases |pushes|
  {
    if pushes == [] then a
    else Updates(parser, Update(parser, a, pushes[0].0, pushes[0].1), pushes[1..])
  }

  /** The list after the pushes: the last that succeeded. */
  function LastTaken(parser: Parser, list: seq<string>, pushes: seq<Push>): seq<string>
    decreases |pushes|
  {
    if pushes == [] then list
    else
      var (want, sys) := pushes[0];
      LastTaken(parser, if Succeeds(parser, list, want, sys) then want else list, pushes[1..])
  }

  predicate AlwaysUndisturbed(parser: Parser, list: seq<string>, pushes: seq<Push>)
    decreases |pushes|
  {
    pushes != [] ==>
      var (want, sys) := pushes[0];
      && Undisturbed(parser, list, want, sys)
      && AlwaysUndisturbed(parser, if Succeeds(parser, list, want, sys) then want else list, pushes[1..])
  }

  /** From an agreeing table, the table agrees after every one of the updates exactly if
      each leaves it undisturbed. */
  lemma {:induction false} UpdatesAgree(parser: Parser, a: Adapter, pushes: seq<Push>)
    requires Agrees(parser, a)
    ensures AlwaysUndisturbed(parser, a.list, pushes)
       <==> forall k | 0 <= k <= |pushes| :: Agrees(parser, Updates(parser, a, pushes[..k]))
    ensures Updates(parser, a, pushes).list == LastTaken(parser, a.list, pushes)
    decreases |pushes|
  {
    if pushes != [] {
      var b := Update(parser, a, pushes[0].0, pushes[0].1);
      UpdateAgreesExactly(parser, a, pushes[0].0, pushes[0].1);
      forall k | 0 < k <= |pushes|
        ensures Updates(parser, a, pushes[..k]) == Updates(parser, b, pushes[1..][..k-1])
      {
        assert pushes[..k][0] == pushes[0] && pushes[..k][1..] == pushes[1..][..k-1];
      }
      assert Updates(parser, a, pushes[..1]) == Updates(parser, b, pushes[1..][..0]) == b;
      if Agrees(parser, b) {
        UpdatesAgree(parser, b, pushes[1..]);
        ShiftedAgree(parser, a, b, pushes);
      } else {
        ListsOnly(parser, b, pushes[1..]);
      }
    }
  }

  lemma ShiftedAgree(parser: Parser, a: Adapter, b: Adapter, pushes: seq<Push>)
    requires pushes != [] && Agrees(parser, a)
    requires forall k | 0 < k <= |pushes| ::
               Updates(parser, a, pushes[..k]) == Updates(parser, b, pushes[1..][..k-1])
    ensures (forall k | 0 <= k <= |pushes| :: Agrees(parser, Updates(parser, a, pushes[..k])))
       <==> (forall k | 0 <= k <= |pushes[1..]| :: Agrees(parser, Updates(parser, b, pushes[1..][..k])))
  {
    if forall k | 0 <= k <= |pushes| :: Agrees(parser, Updates(parser, a, pushes[..k])) {
      forall k | 0 <= k <= |pushes[1..]|
        ensures Agrees(parser, Updates(parser, b, pushes[1..][..k]))
      {
        assert Updates(parser, a, pushes[..k+1]) == Updates(parser, b, pushes[1..][..k+1-1]);
      }
    }
    assert Updates(parser, a, pushes[..0]) == a;
  }

  lemma {:induction false} ListsOnly(parser: Parser, a: Adapter, pushes: seq<Push>)
    ensures Updates(parser, a, pushes).list == LastTaken(parser, a.list, pushes)
    decreases |pushes|
  {
    if pushes != [] {
      ListsOnly(parser, Update(parser, a, pushes[0].0, pushes[0].1), pushes[1..]);
    }
  }

  /** Incremental equals from scratch: a tunnel that was configured for its list and then
      updated, successfully or not, without being disturbed, holds exactly the routes that
      planNetwork plans for the last list it took. */
  lemma IncrementalEqualsFromScratch(parser: Parser, a: Adapter, pushes: seq<Push>, last: Config, plan: Plan)
    requires Agrees(parser, a) && AlwaysUndisturbed(parser, a.list, pushes)
    requires PlanFor(parser, last, plan) && last.allowedIPs == LastTaken(parser, a.list, pushes)
    ensures var table := Updates(parser, a, pushes).table;
            forall p: Net :: p in table <==> p in plan.routes4 || p in plan.routes6
  {
    UpdatesAgree(parser, a, pushes);
    assert pushes[..|pushes|] == pushes;
    assert Agrees(parser, Updates(parser, a, pushes));
  }

  /** The first configuration of a new adapter, if it goes well, agrees with its list. */
  lemma ConfiguredAgrees(parser: Parser, cfg: Config, plan: Plan,
                         sets4: Setting, rest4: bool, sets6: Setting, rest6: bool)
    requires PlanFor(parser, cfg, plan)
    requires FamilyOk(plan, false, sets4, rest4) && FamilyOk(plan, true, sets6, rest6)
    ensures Agrees(parser, Adapter(cfg.allowedIPs, FamilySet(FamilySet({}, plan, false, sets4), plan, true, sets6)))
  {
    var table := FamilySet(FamilySet({}, plan, false, sets4), plan, true, sets6);
    forall p: Net
      ensures p in table <==> p in RoutesOf(parser, Texts(cfg.allowedIPs))
    {
      assert p in plan.routes4 || p in plan.routes6 <==> p in RoutesOf(parser, Texts(cfg.allowedIPs));
    }
  }

  // ------------------------------------------------------- after a failed update

  /** An update that failed half-way, made good by the next that succeeds? From an agreeing
      table, a route that the next list wants is missing after it exactly if no text new to
      the tunnel asks for it, and it was deleted: by the next update, or by the failed one,
      which did not add it again. One that it does not want is left exactly if neither
      deleted it, or the failed one added it, and the next did not delete that. */
  lemma AfterFailedExactly(parser: Parser, a: Adapter, failed: seq<string>, sys: System,
                           want: seq<string>, next: System)
    requires Agrees(parser, a) && sys.takes && !Succeeds(parser, a.list, failed, sys)
    requires Succeeds(parser, a.list, want, next)
    ensures var had, wanted := Texts(a.list), Texts(want);
            var lost := RoutesOf(parser, Gone(sys, had, Texts(failed)));
            var some := RoutesOf(parser, Added(parser, sys, had, failed));
            var gone := RoutesOf(parser, Gone(next, had, wanted));
            var b := Update(parser, Update(parser, a, failed, sys), want, next);
            && b.list == want
            && (forall r | r in RoutesOf(parser, wanted) ::
                  r !in b.table <==> r !in RoutesOf(parser, wanted - had) && (r in gone || (r in lost && r !in some)))
            && (forall r | r !in RoutesOf(parser, wanted) ::
                  r in b.table <==> r !in gone && (r in some || (r in RoutesOf(parser, had) && r !in lost)))
            && (Agrees(parser, b) <==>
                  && Spares(parser, gone + (lost - some), had, wanted)
                  && (RoutesOf(parser, had - wanted) - lost) + some - gone <= RoutesOf(parser, wanted))
  {
    AddedAll(parser, next, Texts(a.list), want);
    KeptAndChanged(parser, Texts(a.list), Texts(want));
  }

  // ------------------------------------------------------- where they differ

  /** a and b are two texts for the route r. */
  predicate SameRoute(parser: Parser, a: string, b: string, r: Net) {
    a != b && ParseRoute(parser, a) == Some(r) && ParseRoute(parser, b) == Some(r)
  }

  function Answering(adds: bool, deletes: bool): System {
    System(true, t => adds, t => deletes)
  }

  lemma OneRoute(parser: Parser, t: string, r: Net)
    requires ParseRoute(parser, t) == Some(r)
    ensures Texts([t]) == {t} && RoutesOf(parser, {t}) == {r} && RoutesOf(parser, {}) == {}
  {
    assert ParseRoute(parser, t).value in RoutesOf(parser, {t});
  }

  /** Dropping one of two texts for a route takes away what the other, kept, asks for. */
  lemma AliasLoses(parser: Parser, a: string, b: string, r: Net)
    requires SameRoute(parser, a, b, r)
    ensures var before, sys := Adapter([b, a], {r}), Answering(true, true);
            && Agrees(parser, before) && Succeeds(parser, [b, a], [a], sys)
            && Update(parser, before, [a], sys) == Adapter([a], {})
            && RoutesOf(parser, Texts([a])) == {r}
  {
    OneRoute(parser, a, r);
    OneRoute(parser, b, r);
    var had := Texts([b, a]);
    assert had == {b} + {a};
    RoutesOfUnion(parser, {b}, {a});
    AddedAll(parser, Answering(true, true), had, [a]);
    assert Gone(Answering(true, true), had, {a}) == {b} && {a} - had == {};
  }

  /** A list that cannot be put in the place of a takes a's route away, and the next update,
      which wants a again, succeeds without bringing it back. */
  lemma FailedUpdateLoses(parser: Parser, a: string, b: string, r: Net)
    requires SameRoute(parser, a, b, r)
    ensures var before, fails, next := Adapter([a], {r}), Answering(false, true), Answering(true, true);
            && Agrees(parser, before) && !Succeeds(parser, [a], [b], fails)
            && Update(parser, before, [b], fails) == Adapter([a], {})
            && Succeeds(parser, [a], [a], next) && Update(parser, Adapter([a], {}), [a], next) == Adapter([a], {})
            && RoutesOf(parser, Texts([a])) == {r}
  {
    OneRoute(parser, a, r);
    OneRoute(parser, b, r);
    assert b in [b] && !Addable(parser, Answering(false, true), b);
    assert Added(parser, Answering(false, true), {a}, [b]) == {};
    assert Gone(Answering(false, true), {a}, {b}) == {a};
    AddedAll(parser, Answering(true, true), {a}, [a]);
    assert Gone(Answering(true, true), {a}, {a}) == {} && {a} - {a} == {};
  }

  /** An update succeeds though the route it drops could not be deleted. It stays, also when
      the list is pushed again and deletions work: the tunnel has forgotten the text. */
  lemma FailedDeletionLeaves(parser: Parser, a: string, r: Net)
    requires ParseRoute(parser, a) == Some(r)
    ensures var before, fails, next := Adapter([a], {r}), Answering(true, false), Answering(true, true);
            && Agrees(parser, before) && Succeeds(parser, [a], [], fails)
            && Update(parser, before, [], fails) == Adapter([], {r})
            && Succeeds(parser, [], [], next) && Update(parser, Adapter([], {r}), [], next) == Adapter([], {r})
            && RoutesOf(parser, Texts([])) == {}
  {
    OneRoute(parser, a, r);
    assert Texts([]) == {};
    assert Gone(Answering(true, false), {a}, {}) == {} && Gone(Answering(true, true), {}, {}) == {};
  }

  const ZEROS := "0.0.0.0/0"
  const ONE := "0.0.0.1/0"

  ghost function TwoDefaults(): Parser {
    OneFits();
    Parser((t: string) => if t == ZEROS then Some(Prefix(false, 0, 0))
                          else if t == ONE then Some(Prefix(false, 1, 0)) else None,
           (t: string) => None)
  }

  lemma OneFits()
    ensures 1 < Pow2(Bits4())
  {
    Pow2Grows(Bits4(), 0);
  }

  /** Two such texts are 0.0.0.0/0 and 0.0.0.1/0: both are the default route. */
  lemma DefaultsAreSame()
    ensures SameRoute(TwoDefaults(), ZEROS, ONE, Prefix(false, 0, 0))
  {
    OneFits();
    ZeroLengthIsZero(Prefix(false, 1, 0));
    ZeroLengthIsZero(Prefix(false, 0, 0));
  }

  /** So the default route is lost when 0.0.0.1/0 is dropped beside 0.0.0.0/0, and for good
      when 0.0.0.1/0 fails to replace 0.0.0.0/0; and it stays when its deletion fails. */
  lemma DefaultRouteStrays()
    ensures var parser, r := TwoDefaults(), Prefix(false, 0, 0);
            && Update(parser, Adapter([ONE, ZEROS], {r}), [ZEROS], Answering(true, true)) == Adapter([ZEROS], {})
            && Update(parser, Update(parser, Adapter([ZEROS], {r}), [ONE], Answering(false, true)), [ZEROS],
                      Answering(true, true)) == Adapter([ZEROS], {})
            && Update(parser, Adapter([ZEROS], {r}), [], Answering(true, false)) == Adapter([], {r})
            && RoutesOf(parser, Texts([ZEROS])) == {r} && RoutesOf(parser, Texts([])) == {}
  {
    DefaultsAreSame();
    AliasLoses(TwoDefaults(), ZEROS, ONE, Prefix(false, 0, 0));
    FailedUpdateLoses(TwoDefaults(), ZEROS, ONE, Prefix(false, 0, 0));
    FailedDeletionLeaves(TwoDefaults(), ZEROS, Prefix(false, 0, 0));
  }
}
