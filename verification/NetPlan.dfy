/** What a tunnel's configuration asks of the interface. Text is parsed by net/netip:
    here by two partial functions. */
module NetPlan {
  import opened Powers
  import opened Prefixes
  import opened Wrappers

  datatype Addr = Addr(six: bool, value: nat)

  /** How prefixes and addresses are read. */
  datatype Parser = Parser(prefix: string -> Option<Net>, addr: string -> Option<Addr>)

  datatype Config = Config(address: string, allowedIPs: seq<string>, dns: seq<string>, mtu: int)

  datatype Plan = Plan(address: Net, routes4: seq<Net>, routes6: seq<Net>, dns4: seq<Addr>, dns6: seq<Addr>,
                       default4: bool, default6: bool, mtu: int)

  datatype PlanError = BadAddress(text: string) | BadResolver(text: string)

  // ------------------------------------------------------- what is planned

  /** parseRoute. */
  function ParseRoute(parser: Parser, text: string): Option<Net> {
    match parser.prefix(text)
    case None => None
    case Some(p) => Normal(p)
  }

  /** The routes that the texts ask for. */
  function RoutesOf(parser: Parser, texts: set<string>): set<Net> {
    set t | t in texts && ParseRoute(parser, t).Some? :: ParseRoute(parser, t).value
  }

  function Texts(list: seq<string>): set<string> { set t | t in list }

  /** By family and address, then by length: Addr.Compare, then Bits. */
  predicate Before(p: Prefix, q: Prefix) {
    if p.six != q.six then q.six
    else p.addr < q.addr || (p.addr == q.addr && p.bits < q.bits)
  }

  predicate InOrder(ps: seq<Prefix>) {
    forall i, j | 0 <= i < j < |ps| :: !Before(ps[j], ps[i])
  }

  predicate Distinct(ps: seq<Prefix>) {
    forall i, j | 0 <= i < j < |ps| :: ps[i] != ps[j]
  }

  predicate StrictlyInOrder(ps: seq<Prefix>) { InOrder(ps) && Distinct(ps) }

  predicate HasDefault(ps: seq<Prefix>) {
    exists p | p in ps :: p.bits == 0
  }

  /** ps are the routes of one family that the texts ask for, once each and in order. */
  ghost predicate PlansRoutes(parser: Parser, texts: set<string>, six: bool, ps: seq<Net>) {
    && StrictlyInOrder(ps)
    && forall p: Net :: p in ps <==> p.six == six && p in RoutesOf(parser, texts)
  }

  function Unmap(a: Addr): Addr {
    if a.six && Mapped(a.value) then Addr(false, Low(a.value, Bits4())) else a
  }

  /** The resolvers of one family, in the order given. */
  function Resolvers(parser: Parser, texts: seq<string>, six: bool): seq<Addr> {
    if texts == [] then []
    else
      var rest := Resolvers(parser, texts[..|texts|-1], six);
      match parser.addr(texts[|texts|-1])
      case None => rest
      case Some(a) => if Unmap(a).six == six then rest + [Unmap(a)] else rest
  }

  predicate Readable(parser: Parser, texts: seq<string>) {
    forall t | t in texts :: parser.addr(t).Some?
  }

  /** plan is what cfg asks for. */
  ghost predicate PlanFor(parser: Parser, cfg: Config, plan: Plan) {
    && parser.prefix(cfg.address) == Some(plan.address) && plan.mtu == cfg.mtu
    && PlansRoutes(parser, Texts(cfg.allowedIPs), false, plan.routes4)
    && PlansRoutes(parser, Texts(cfg.allowedIPs), true, plan.routes6)
    && plan.default4 == HasDefault(plan.routes4) && plan.default6 == HasDefault(plan.routes6)
    && Readable(parser, cfg.dns)
    && plan.dns4 == Resolvers(parser, cfg.dns, false) && plan.dns6 == Resolvers(parser, cfg.dns, true)
  }

  /** t is the first resolver in the list that cannot be read. */
  predicate FirstUnreadable(parser: Parser, texts: seq<string>, t: string) {
    exists k :: 0 <= k < |texts| && texts[k] == t && parser.addr(t).None? && Readable(parser, texts[..k])
  }

  // ------------------------------------------------------- planning

  /** Puts p in its place among the sorted ps. */
  function Insert(p: Net, ps: seq<Net>): seq<Net> {
    if ps == [] || Before(p, ps[0]) then [p] + ps else [ps[0]] + Insert(p, ps[1..])
  }

  lemma {:induction false} InsertAdds(p: Net, ps: seq<Net>)
    ensures multiset(Insert(p, ps)) == multiset(ps) + multiset{p}
    ensures forall q :: q in Insert(p, ps) <==> q == p || q in ps
    decreases |ps|
  {
    if ps != [] && !Before(p, ps[0]) {
      assert ps == [ps[0]] + ps[1..];
      InsertAdds(p, ps[1..]);
    }
  }

  lemma {:induction false} InsertSorts(p: Net, ps: seq<Net>)
    requires InOrder(ps)
    ensures InOrder(Insert(p, ps))
    ensures Distinct(ps) && p !in ps ==> Distinct(Insert(p, ps))
    decreases |ps|
  {
    if ps != [] && !Before(p, ps[0]) {
      InsertSorts(p, ps[1..]);
      InsertAdds(p, ps[1..]);
      var r := Insert(p, ps[1..]);
      forall j | 0 <= j < |r|
        ensures !Before(r[j], ps[0]) && (Distinct(ps) && p !in ps ==> r[j] != ps[0])
      {
        assert r[j] in r;
      }
    }
  }

  /** sortPrefixes. */
  method SortPrefixes(ps: seq<Net>) returns (sorted: seq<Net>)
    ensures InOrder(sorted) && multiset(sorted) == multiset(ps)
    ensures Distinct(ps) ==> Distinct(sorted)
    ensures forall p :: p in sorted <==> p in ps
  {
    sorted := [];
    for k := 0 to |ps|
      invariant InOrder(sorted) && multiset(sorted) == multiset(ps[..k])
      invariant Distinct(ps) ==> Distinct(sorted)
      invariant forall p :: p in sorted <==> p in ps[..k]
    {
      assert ps[..k+1] == ps[..k] + [ps[k]];
      InsertSorts(ps[k], sorted);
      InsertAdds(ps[k], sorted);
      sorted := Insert(ps[k], sorted);
    }
    assert ps[..|ps|] == ps;
  }

  /** planNetwork. */
  method PlanNetwork(parser: Parser, cfg: Config) returns (r: Result<Plan, PlanError>)
    ensures r.Ok? ==> PlanFor(parser, cfg, r.value)
    ensures r.Err? && r.error.BadAddress? ==> r.error.text == cfg.address && parser.prefix(cfg.address).None?
    ensures r.Err? && r.error.BadResolver? ==>
              parser.prefix(cfg.address).Some? && FirstUnreadable(parser, cfg.dns, r.error.text)
  {
    var address := parser.prefix(cfg.address);
    if address.None? {
      return Err(BadAddress(cfg.address));
    }
    var routes4, routes6, default4, default6 := PlanRoutes(parser, cfg.allowedIPs);
    var dns4, dns6, unreadable := PlanResolvers(parser, cfg.dns);
    if unreadable.Some? {
      return Err(BadResolver(unreadable.value));
    }
    r := Ok(Plan(address.value, routes4, routes6, dns4, dns6, default4, default6, cfg.mtu));
  }

  /** planNetwork's loop over DNS, up to the first that cannot be read. */
  method PlanResolvers(parser: Parser, dns: seq<string>)
    returns (dns4: seq<Addr>, dns6: seq<Addr>, unreadable: Option<string>)
    ensures unreadable.None? ==>
              && Readable(parser, dns)
              && dns4 == Resolvers(parser, dns, false) && dns6 == Resolvers(parser, dns, true)
    ensures unreadable.Some? ==> FirstUnreadable(parser, dns, unreadable.value)
  {
    dns4, dns6, unreadable := [], [], None;
    for k := 0 to |dns|
      invariant Readable(parser, dns[..k])
      invariant dns4 == Resolvers(parser, dns[..k], false) && dns6 == Resolvers(parser, dns[..k], true)
    {
      var a := parser.addr(dns[k]);
      if a.None? {
        return dns4, dns6, Some(dns[k]);
      }
      assert dns[..k+1][..k] == dns[..k];
      if Unmap(a.value).six {
        dns6 := dns6 + [Unmap(a.value)];
      } else {
        dns4 := dns4 + [Unmap(a.value)];
      }
    }
    assert dns[..|dns|] == dns;
  }

  /** planNetwork's loop over AllowedIPs, and its sorts. */
  method PlanRoutes(parser: Parser, allowedIPs: seq<string>)
    returns (routes4: seq<Net>, routes6: seq<Net>, default4: bool, default6: bool)
    ensures PlansRoutes(parser, Texts(allowedIPs), false, routes4)
    ensures PlansRoutes(parser, Texts(allowedIPs), true, routes6)
    ensures default4 == HasDefault(routes4) && default6 == HasDefault(routes6)
  {
    routes4, routes6, default4, default6 := CollectRoutes(parser, allowedIPs);
    routes4 := SortPrefixes(routes4);
    routes6 := SortPrefixes(routes6);
  }

  /** ps are the routes of one family among seen, once each. */
  ghost predicate Collected(ps: seq<Net>, six: bool, seen: set<Net>) {
    Distinct(ps) && forall p: Net :: p in ps <==> p.six == six && p in seen
  }

  /** The loop. */
  method CollectRoutes(parser: Parser, allowedIPs: seq<string>)
    returns (routes4: seq<Net>, routes6: seq<Net>, default4: bool, default6: bool)
    ensures Collected(routes4, false, RoutesOf(parser, Texts(allowedIPs)))
    ensures Collected(routes6, true, RoutesOf(parser, Texts(allowedIPs)))
    ensures default4 == HasDefault(routes4) && default6 == HasDefault(routes6)
  {
    var seen: set<Net> := {};
    routes4, routes6, default4, default6 := [], [], false, false;
    for k := 0 to |allowedIPs|
      invariant seen == RoutesOf(parser, Texts(allowedIPs[..k]))
      invariant Collected(routes4, false, seen) && Collected(routes6, true, seen)
      invariant default4 == HasDefault(routes4) && default6 == HasDefault(routes6)
    {
      OneMoreText(parser, allowedIPs, k);
      var r := ParseRoute(parser, allowedIPs[k]);
      if r.Some? && r.value !in seen {
        OneMoreRoute(if r.value.six then routes6 else routes4, r.value.six, seen, r.value);
        seen := seen + {r.value};
        if r.value.six {
          routes6 := routes6 + [r.value];
          default6 := default6 || r.value.bits == 0;
        } else {
          routes4 := routes4 + [r.value];
          default4 := default4 || r.value.bits == 0;
        }
      }
    }
    assert allowedIPs[..|allowedIPs|] == allowedIPs;
  }

  /** One more route r, not seen before, goes behind those of its family. */
  lemma OneMoreRoute(ps: seq<Net>, six: bool, seen: set<Net>, r: Net)
    requires Collected(ps, six, seen) && r !in seen && r.six == six
    ensures Collected(ps + [r], six, seen + {r})
    ensures HasDefault(ps + [r]) <==> HasDefault(ps) || r.bits == 0
  {
    assert (ps + [r])[|ps|] == r;
    forall p: Net
      ensures p in ps + [r] <==> p in ps || p == r
    {
    }
  }

  lemma OneMoreText(parser: Parser, texts: seq<string>, k: nat)
    requires k < |texts|
    ensures Texts(texts[..k+1]) == Texts(texts[..k]) + {texts[k]}
    ensures RoutesOf(parser, Texts(texts[..k+1])) ==
              RoutesOf(parser, Texts(texts[..k])) +
              (if ParseRoute(parser, texts[k]).Some? then {ParseRoute(parser, texts[k]).value} else {})
  {
    assert texts[..k+1] == texts[..k] + [texts[k]];
  }

  // ------------------------------------------------------- the plan is canonical

  /** There is one strictly ordered list of given prefixes. */
  lemma {:induction false} OrderUnique(ps: seq<Net>, qs: seq<Net>)
    requires StrictlyInOrder(ps) && StrictlyInOrder(qs) && forall p: Net :: p in ps <==> p in qs
    ensures ps == qs
    decreases |ps|
  {
    if qs != [] {
      assert qs[0] in qs;
    }
    if ps != [] {
      assert ps[0] in qs && qs != [] && qs[0] in ps;
      var i :| 0 <= i < |qs| && qs[i] == ps[0];
      var j :| 0 <= j < |ps| && ps[j] == qs[0];
      assert ps[0] == qs[0];
      forall p: Net
        ensures p in ps[1..] <==> p in qs[1..]
      {
        assert p in ps <==> p == ps[0] || p in ps[1..];
        assert p in qs <==> p == qs[0] || p in qs[1..];
      }
      OrderUnique(ps[1..], qs[1..]);
    }
  }

  /** The routes planned depend on nothing but the set of texts: permuting AllowedIPs, or
      repeating some, plans the same routes and defaults. */
  lemma RoutesDependOnTexts(parser: Parser, a: Config, b: Config, pa: Plan, pb: Plan)
    requires PlanFor(parser, a, pa) && PlanFor(parser, b, pb) && Texts(a.allowedIPs) == Texts(b.allowedIPs)
    ensures pa.routes4 == pb.routes4 && pa.routes6 == pb.routes6
    ensures pa.default4 == pb.default4 && pa.default6 == pb.default6
  {
    OrderUnique(pa.routes4, pb.routes4);
    OrderUnique(pa.routes6, pb.routes6);
  }

  /** A default route is planned exactly if some text asks for a /0 of the family. */
  lemma DefaultExactly(parser: Parser, cfg: Config, plan: Plan)
    requires PlanFor(parser, cfg, plan)
    ensures plan.default4 <==> Prefix(false, 0, 0) in RoutesOf(parser, Texts(cfg.allowedIPs))
    ensures plan.default6 <==> Prefix(true, 0, 0) in RoutesOf(parser, Texts(cfg.allowedIPs))
  {
    forall p: Net | p in RoutesOf(parser, Texts(cfg.allowedIPs)) && p.bits == 0
      ensures p.addr == 0
    {
      var t :| t in cfg.allowedIPs && ParseRoute(parser, t) == Some(p);
      var q := parser.prefix(t).value;
      ZeroLengthIsZero(if q.six && Mapped(q.addr) then Unmapped(q) else q);
    }
    assert Prefix(false, 0, 0) in plan.routes4 <==> Prefix(false, 0, 0) in RoutesOf(parser, Texts(cfg.allowedIPs));
    assert Prefix(true, 0, 0) in plan.routes6 <==> Prefix(true, 0, 0) in RoutesOf(parser, Texts(cfg.allowedIPs));
  }

  lemma ZeroLengthIsZero(p: Net)
    requires p.bits == 0
    ensures Masked(p).addr == 0
  {
    ShrFits(p.addr, 0, Host(p));
    ShlOfZero(Host(p));
  }

  lemma {:induction false} ShlOfZero(k: nat)
    ensures Shl(0, k) == 0
  {
    if k > 0 {
      ShlOfZero(k - 1);
    }
  }

  /** Splitting the resolvers keeps their order: the split of two lists in a row is the
      splits in a row. */
  lemma {:induction false} ResolversInOrder(parser: Parser, a: seq<string>, b: seq<string>, six: bool)
    ensures Resolvers(parser, a + b, six) == Resolvers(parser, a, six) + Resolvers(parser, b, six)
    decreases |b|
  {
    if b == [] {
      assert a + b == a;
    } else {
      assert (a + b)[..|a + b| - 1] == a + b[..|b|-1];
      ResolversInOrder(parser, a, b[..|b|-1], six);
    }
  }

  /** And loses none of them. */
  lemma {:induction false} ResolversComplete(parser: Parser, texts: seq<string>)
    requires Readable(parser, texts)
    ensures |Resolvers(parser, texts, false)| + |Resolvers(parser, texts, true)| == |texts|
    ensures forall t | t in texts ::
              Unmap(parser.addr(t).value) in Resolvers(parser, texts, Unmap(parser.addr(t).value).six)
    decreases |texts|
  {
    if texts != [] {
      var init, last := texts[..|texts|-1], texts[|texts|-1];
      assert texts == init + [last];
      ResolversComplete(parser, init);
    }
  }

  // ------------------------------------------------------- what a plan means

  /** The resolver that a text asks for: an IPv6 address from ::ffff:0:0 on stands for the IPv4
      one that many places behind, and every other for itself. */
  function Asked(a: Addr): Addr {
    if a.six && 0xffff_0000_0000 <= a.value < 0x1_0000_0000_0000 then Addr(false, a.value - 0xffff_0000_0000) else a
  }

  lemma UnmapIsAsked(a: Addr)
    ensures Unmap(a) == Asked(a)
  {
    MappedByNumbers(a.value);
  }

  /** Those asked for by the texts before the k-th, of one family. */
  function AskedFor(parser: Parser, texts: seq<string>, six: bool, k: nat): seq<Addr>
    requires k <= |texts| && Readable(parser, texts)
  {
    if k == 0 then []
    else
      var a := Asked(parser.addr(texts[k-1]).value);
      AskedFor(parser, texts, six, k - 1) + if a.six == six then [a] else []
  }

  /** A plan has the resolvers that its texts ask for, split by family in their order; no IPv6
      one stands for an IPv4 one. */
  lemma PlannedResolvers(parser: Parser, cfg: Config, plan: Plan)
    requires PlanFor(parser, cfg, plan)
    ensures plan.dns4 == AskedFor(parser, cfg.dns, false, |cfg.dns|)
    ensures plan.dns6 == AskedFor(parser, cfg.dns, true, |cfg.dns|)
    ensures forall a | a in plan.dns4 :: !a.six
    ensures forall a | a in plan.dns6 :: a.six && !(0xffff_0000_0000 <= a.value < 0x1_0000_0000_0000)
  {
    ResolversAreAsked(parser, cfg.dns, |cfg.dns|);
    assert cfg.dns[..|cfg.dns|] == cfg.dns;
  }

  lemma {:induction false} ResolversAreAsked(parser: Parser, texts: seq<string>, k: nat)
    requires k <= |texts| && Readable(parser, texts)
    ensures forall six :: Resolvers(parser, texts[..k], six) == AskedFor(parser, texts, six, k)
    ensures forall a | a in AskedFor(parser, texts, false, k) :: !a.six
    ensures forall a | a in AskedFor(parser, texts, true, k) ::
              a.six && !(0xffff_0000_0000 <= a.value < 0x1_0000_0000_0000)
    decreases k
  {
    if k > 0 {
      ResolversAreAsked(parser, texts, k - 1);
      assert texts[..k][..k-1] == texts[..k-1] && texts[..k][k-1] == texts[k-1];
      UnmapIsAsked(parser.addr(texts[k-1]).value);
      assert texts[k-1] in texts;
    }
  }

  /** A text asks that the IPv4 address v go through the tunnel: it is read as an IPv4 prefix
      that covers v, or as one of length 96 or more, in ::ffff:0:0/96, that covers the address
      standing for v. */
  predicate Wants4(parser: Parser, text: string, v: nat) {
    match parser.prefix(text)
    case None => false
    case Some(p) =>
      || (!p.six && Covers(p, false, v))
      || (p.six && 0xffff_0000_0000 <= p.addr < 0x1_0000_0000_0000 && p.bits >= 96
          && Covers(p, true, 0xffff_0000_0000 + v))
  }

  /** Or the IPv6 address v: it is read as any other IPv6 prefix, and covers v. */
  predicate Wants6(parser: Parser, text: string, v: nat) {
    match parser.prefix(text)
    case None => false
    case Some(p) => p.six && !(0xffff_0000_0000 <= p.addr < 0x1_0000_0000_0000) && Covers(p, true, v)
  }

  lemma RouteOfPrefix(p: Net, v: nat)
    ensures var r, mapped := Normal(p), p.six && 0xffff_0000_0000 <= p.addr < 0x1_0000_0000_0000;
            && (r.Some? && mapped ==> !r.value.six) && (r.Some? && !mapped ==> r.value.six == p.six)
            && (r.None? <==> mapped && p.bits < 96)
            && (r.Some? && !mapped ==> (Covers(r.value, p.six, v) <==> Covers(p, p.six, v)))
            && (r.Some? && mapped && v < Pow2(Bits4()) ==>
                  (Covers(r.value, false, v) <==> Covers(p, true, MappedForm(v))))
  {
    MappedByNumbers(p.addr);
    NormalCoversTheSame(p, v);
  }

  lemma RouteOfText(parser: Parser, text: string, v: nat)
    ensures var r := ParseRoute(parser, text);
            && (v < 0x1_0000_0000 ==> (Wants4(parser, text, v) <==> r.Some? && Covers(r.value, false, v)))
            && (Wants6(parser, text, v) <==> r.Some? && Covers(r.value, true, v))
  {
    MappedByNumbers(v);
    if parser.prefix(text).Some? {
      RouteOfPrefix(parser.prefix(text).value, v);
    }
  }

  predicate SomeCovers(ps: seq<Net>, six: bool, v: nat) {
    exists p | p in ps :: Covers(p, six, v)
  }

  /** A plan's routes take into the tunnel exactly the addresses that some text asks for. */
  lemma PlanCoversExactly(parser: Parser, cfg: Config, plan: Plan, v: nat)
    requires PlanFor(parser, cfg, plan)
    ensures v < 0x1_0000_0000 ==>
              (SomeCovers(plan.routes4, false, v) <==> exists t | t in cfg.allowedIPs :: Wants4(parser, t, v))
    ensures SomeCovers(plan.routes6, true, v) <==> exists t | t in cfg.allowedIPs :: Wants6(parser, t, v)
  {
    FamilyCovers(parser, Texts(cfg.allowedIPs), false, plan.routes4, v);
    FamilyCovers(parser, Texts(cfg.allowedIPs), true, plan.routes6, v);
    forall t
      ensures v < 0x1_0000_0000 ==> (Wants4(parser, t, v) <==> TextCovers(parser, t, false, v))
      ensures Wants6(parser, t, v) <==> TextCovers(parser, t, true, v)
    {
      RouteOfText(parser, t, v);
    }
  }

  predicate TextCovers(parser: Parser, text: string, six: bool, v: nat) {
    ParseRoute(parser, text).Some? && Covers(ParseRoute(parser, text).value, six, v)
  }

  lemma FamilyCovers(parser: Parser, texts: set<string>, six: bool, ps: seq<Net>, v: nat)
    requires PlansRoutes(parser, texts, six, ps)
    ensures SomeCovers(ps, six, v) <==> exists t | t in texts :: TextCovers(parser, t, six, v)
  {
    if SomeCovers(ps, six, v) {
      var p :| p in ps && Covers(p, six, v);
      var t :| t in texts && ParseRoute(parser, t) == Some(p);
      assert TextCovers(parser, t, six, v);
    }
    if t :| t in texts && TextCovers(parser, t, six, v) {
      assert ParseRoute(parser, t).value in ps;
    }
  }

  /** Each family's routes ascend, by address and then by length. */
  lemma PlanAscends(parser: Parser, cfg: Config, plan: Plan)
    requires PlanFor(parser, cfg, plan)
    ensures forall i, j | 0 <= i < j < |plan.routes4| ::
              var p, q := plan.routes4[i], plan.routes4[j];
              !p.six && !q.six && (p.addr < q.addr || (p.addr == q.addr && p.bits < q.bits))
    ensures forall i, j | 0 <= i < j < |plan.routes6| ::
              var p, q := plan.routes6[i], plan.routes6[j];
              p.six && q.six && (p.addr < q.addr || (p.addr == q.addr && p.bits < q.bits))
  {
    forall i, j | 0 <= i < j < |plan.routes4|
      ensures plan.routes4[i] in plan.routes4 && plan.routes4[j] in plan.routes4
    {
    }
    forall i, j | 0 <= i < j < |plan.routes6|
      ensures plan.routes6[i] in plan.routes6 && plan.routes6[j] in plan.routes6
    {
    }
  }
}
