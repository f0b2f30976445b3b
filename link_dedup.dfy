/**
 * Reduction of the per-system directed jump lists to the list of gate links
 * the map draws: one entry per unordered pair of systems, in the orientation
 * of the first jump that produced it.
 */
module LinkDedup {
  import opened Wrappers
  import opened Galaxy

  /** A cached gate link (the source's GateHelper): two systems. */
  datatype GateLink = GateLink(from: StarSystem, to: StarSystem)

  /** The test made against each cached link: `a` and `b` are both endpoints of `g`. */
  predicate Matches(g: GateLink, a: StarSystem, b: StarSystem) {
    (g.from == a || g.to == a) && (g.from == b || g.to == b)
  }

  /** For two distinct systems the test above is exactly equality of unordered pairs. */
  lemma MatchesIsUnorderedPairEquality(g: GateLink, a: StarSystem, b: StarSystem)
    requires a != b
    ensures Matches(g, a, b) <==> {g.from, g.to} == {a, b}
  {

  }

  /** Some cached link already joins `a` and `b`. */
  predicate Covered(cache: seq<GateLink>, a: StarSystem, b: StarSystem) {
    exists k :: 0 <= k < |cache| && Matches(cache[k], a, b)
  }

  /** One step of the scan: append `l` unless a cached link already joins its endpoints. */
  function AddLink(cache: seq<GateLink>, l: GateLink): seq<GateLink> {
    if Covered(cache, l.from, l.to) then cache else cache + [l]
  }

  /** The directed jumps from `sys` to each named target, in list order. */
  function JumpsOf(sys: StarSystem, targets: seq<string>, all: seq<StarSystem>): (r: seq<GateLink>)
    requires forall t :: t in targets ==> HasSystem(all, t)
    ensures |r| == |targets|
    ensures forall k :: 0 <= k < |r| ==>
      r[k].from == sys && GetEveSystem(all, targets[k]) == Some(r[k].to)
  {
    if |targets| == 0 then []
    else
      var init := targets[..|targets| - 1];
      assert forall t :: t in init ==> t in targets;
      JumpsOf(sys, init, all) + [GateLink(sys, GetEveSystem(all, targets[|targets| - 1]).value)]
  }

  /** All directed jumps of `systems`, system by system in provider order. */
  function DirectedJumps(systems: seq<StarSystem>, all: seq<StarSystem>): seq<GateLink>
    requires AllJumpsResolve(systems, all)
  {
    if |systems| == 0 then []
    else
      var init := systems[..|systems| - 1];
      assert forall s :: s in init ==> s in systems;
      assert systems[|systems| - 1] in systems;
      DirectedJumps(init, all) + JumpsOf(systems[|systems| - 1], systems[|systems| - 1].jumps, all)
  }

  /** The jumps of one more system follow those of the systems before it. */
  lemma DirectedJumpsStep(systems: seq<StarSystem>, n: nat, all: seq<StarSystem>)
    requires AllJumpsResolve(systems, all)
    requires n < |systems|
    ensures AllJumpsResolve(systems[..n], all) && JumpsResolve(systems[n], all)
    ensures DirectedJumps(systems[..n + 1], all) ==
      DirectedJumps(systems[..n], all) + JumpsOf(systems[n], systems[n].jumps, all)
  {
    assert systems[n] in systems;
    assert forall s :: s in systems[..n + 1] ==> s in systems;
    assert systems[..n + 1][..n] == systems[..n];
  }

  /** `l` is a jump listed by a system of `systems`, with its target resolved in `all`. */
  predicate IsJump(systems: seq<StarSystem>, all: seq<StarSystem>, l: GateLink) {
    l.from in systems && exists t :: t in l.from.jumps && GetEveSystem(all, t) == Some(l.to)
  }

  /** The flattened jump list holds exactly the jumps the systems list. */
  lemma {:induction false} DirectedJumpsAreJumps(systems: seq<StarSystem>, all: seq<StarSystem>)
    requires AllJumpsResolve(systems, all)
    ensures forall l :: l in DirectedJumps(systems, all) <==> IsJump(systems, all, l)
  {
    if |systems| > 0 {
      var init := systems[..|systems| - 1];
      var last := systems[|systems| - 1];
      assert systems == init + [last];
      assert forall s :: s in init ==> s in systems;
      assert last in systems;
      DirectedJumpsAreJumps(init, all);
      var tail := JumpsOf(last, last.jumps, all);
      forall l | l in DirectedJumps(systems, all)
        ensures IsJump(systems, all, l)
      {
        if l !in DirectedJumps(init, all) {
          var k :| 0 <= k < |tail| && tail[k] == l;
          assert last.jumps[k] in l.from.jumps;
        }
      }
      forall l | IsJump(systems, all, l)
        ensures l in DirectedJumps(systems, all)
      {
        if l.from in init {
          assert IsJump(init, all, l);
        } else {
          assert l.from == last;
          var t :| t in l.from.jumps && GetEveSystem(all, t) == Some(l.to);
          var k :| 0 <= k < |last.jumps| && last.jumps[k] == t;
          assert tail[k] == l;
        }
      }
    }
  }

  /** The cache built by scanning the jumps `js` in order. */
  function Dedup(js: seq<GateLink>): seq<GateLink> {
    if |js| == 0 then [] else AddLink(Dedup(js[..|js| - 1]), js[|js| - 1])
  }

  /** Scanning one more jump is one more AddLink step. */
  lemma DedupSnoc(js: seq<GateLink>, l: GateLink)
    ensures Dedup(js + [l]) == AddLink(Dedup(js), l)
  {

  }

  /** Looking up one more target appends one more directed jump. */
  lemma JumpsOfSnoc(sys: StarSystem, targets: seq<string>, t: string, all: seq<StarSystem>)
    requires forall u :: u in targets ==> HasSystem(all, u)
    requires HasSystem(all, t)
    ensures JumpsOf(sys, targets + [t], all) ==
      JumpsOf(sys, targets, all) + [GateLink(sys, GetEveSystem(all, t).value)]
  {

  }

  /**
   * One step of the scan over the jumps of `sys`: adding the link to target
   * `n` to the cache built from the first `n` targets gives the cache of the
   * first `n + 1`.
   */
  lemma DedupJumpsStep(done: seq<GateLink>, sys: StarSystem, n: nat, all: seq<StarSystem>)
    requires JumpsResolve(sys, all)
    requires n < |sys.jumps|
    ensures forall u :: u in sys.jumps[..n] ==> HasSystem(all, u)
    ensures forall u :: u in sys.jumps[..n + 1] ==> HasSystem(all, u)
    ensures Dedup(done + JumpsOf(sys, sys.jumps[..n + 1], all)) ==
      AddLink(Dedup(done + JumpsOf(sys, sys.jumps[..n], all)), GateLink(sys, GetEveSystem(all, sys.jumps[n]).value))
  {
    var targets, t := sys.jumps[..n], sys.jumps[n];
    assert sys.jumps[..n + 1] == targets + [t];
    assert forall u :: u in sys.jumps[..n + 1] ==> u in sys.jumps;
    var l := GateLink(sys, GetEveSystem(all, t).value);
    JumpsOfSnoc(sys, targets, t, all);
    assert done + JumpsOf(sys, targets + [t], all) == (done + JumpsOf(sys, targets, all)) + [l];
    DedupSnoc(done + JumpsOf(sys, targets, all), l);
  }

  /** No cached link joins the endpoints of a later one. */
  predicate NoDuplicateLinks(cache: seq<GateLink>) {
    forall i, j :: 0 <= i < j < |cache| ==> !Matches(cache[i], cache[j].from, cache[j].to)
  }

  /** Scanning more jumps only appends to the cache. */
  lemma {:induction false} DedupExtends(js: seq<GateLink>, n: nat)
    requires n <= |js|
    ensures Dedup(js[..n]) <= Dedup(js)
  {
    if n < |js| {
      var init := js[..|js| - 1];
      assert js[..n] == init[..n];
      DedupExtends(init, n);
    } else {
      assert js[..n] == js;
    }
  }

  lemma {:induction false} DedupNoDuplicates(js: seq<GateLink>)
    ensures NoDuplicateLinks(Dedup(js))
  {
    if |js| > 0 {
      DedupNoDuplicates(js[..|js| - 1]);
    }
  }

  /** Every scanned jump is joined by some cached link. */
  lemma {:induction false} DedupCovers(js: seq<GateLink>)
    ensures forall l :: l in js ==> Covered(Dedup(js), l.from, l.to)
  {
    if |js| > 0 {
      var init := js[..|js| - 1];
      var last := js[|js| - 1];
      DedupCovers(init);
      var before := Dedup(init);
      var after := Dedup(js);
      assert before <= after;
      assert Covered(after, last.from, last.to) by {
        if !Covered(before, last.from, last.to) {
          assert after[|before|] == last;
        }
      }
      forall l | l in js
        ensures Covered(after, l.from, l.to)
      {
        if l != last {
          assert js == init + [last];
          assert l in init;
          var k :| 0 <= k < |before| && Matches(before[k], l.from, l.to);
          assert after[k] == before[k];
        }
      }
    }
  }

  /** Every cached link is one of the scanned jumps, in its original orientation. */
  lemma {:induction false} DedupSound(js: seq<GateLink>)
    ensures forall g :: g in Dedup(js) ==> g in js
  {
    if |js| > 0 {
      var init := js[..|js| - 1];
      DedupSound(init);
      assert js == init + [js[|js| - 1]];
    }
  }

  /** A jump whose endpoints no earlier jump joins is cached as it is: the first orientation wins. */
  lemma {:induction false} DedupKeepsFirst(js: seq<GateLink>, i: nat)
    requires i < |js|
    requires forall k :: 0 <= k < i ==> !Matches(js[k], js[i].from, js[i].to)
    ensures js[i] in Dedup(js)
  {
    var init := js[..|js| - 1];
    if i == |js| - 1 {
      DedupSound(init);
      forall k | 0 <= k < |Dedup(init)|
        ensures !Matches(Dedup(init)[k], js[i].from, js[i].to)
      {
        assert Dedup(init)[k] in init;
        var j :| 0 <= j < |init| && init[j] == Dedup(init)[k];
        assert init[j] == js[j];
      }
    } else {
      DedupKeepsFirst(init, i);
      DedupExtends(js, |js| - 1);
      assert js[..|js| - 1] == init;
    }
  }

  /** In a duplicate-free cache at most one link joins two distinct systems. */
  lemma OneLinkPerPair(cache: seq<GateLink>, a: StarSystem, b: StarSystem, i: nat, j: nat)
    requires NoDuplicateLinks(cache)
    requires a != b
    requires i < |cache| && j < |cache|
    requires Matches(cache[i], a, b) && Matches(cache[j], a, b)
    ensures i == j
  {

  }

  /**
   * What the scan of a whole universe yields: no duplicate links, every
   * cached link is a listed jump, and every listed jump is joined by a link.
   */
  lemma LinkCacheOfUniverse(systems: seq<StarSystem>)
    requires AllJumpsResolve(systems, systems)
    ensures var cache := Dedup(DirectedJumps(systems, systems));
      && NoDuplicateLinks(cache)
      && (forall g :: g in cache ==> IsJump(systems, systems, g))
      && (forall s, t :: s in systems && t in s.jumps ==>
            Covered(cache, s, GetEveSystem(systems, t).value))
  {
    var js := DirectedJumps(systems, systems);
    DedupNoDuplicates(js);
    DedupSound(js);
    DedupCovers(js);
    DirectedJumpsAreJumps(systems, systems);
    forall s, t | s in systems && t in s.jumps
      ensures Covered(Dedup(js), s, GetEveSystem(systems, t).value)
    {
      assert IsJump(systems, systems, GateLink(s, GetEveSystem(systems, t).value));
    }
  }

  /** The scan of one cached list: does the jump from `sys` to `to` still need a link? */
  method NeedsAdd(cache: seq<GateLink>, sys: StarSystem, to: StarSystem) returns (needsAdd: bool)
    ensures needsAdd <==> !Covered(cache, sys, to)
  {
    needsAdd := true;
    var k := 0;
    while k < |cache|
      invariant 0 <= k <= |cache|
      invariant forall i :: 0 <= i < k ==> !Matches(cache[i], sys, to)
    {
      if Matches(cache[k], sys, to) {
        needsAdd := false;
        break;
      }
      k := k + 1;
    }
  }
}
