/** `rendermon`, the per-output frame handler: every window of the global
  * client list draws its frame, every fade-out ghost ticks, and the output
  * asks for another frame while anything was drawn. */
module Render {
  import opened Curve
  import opened CNum
  import opened Geometry
  import opened State
  import opened Settings
  import opened Animation
  import opened AnimationDriver
  import opened FadeOut

  /** Some window among the first `k` has a frame to draw. */
  predicate AnyWants(cs: seq<Client>, k: nat)
    requires k <= |cs|
    reads set c | c in cs
  {
    k > 0 && (AnyWants(cs, k - 1) || WantsFrame(cs[k - 1]))
  }

  /** The ghosts among `fs` whose next tick, from animation state `anims`,
    * is not their last (progress 1.0, see `AtLastFrameIff`), in order. */
  function Survivors(fs: seq<Client>, anims: seq<Anim>): (r: seq<Client>)
    requires |fs| == |anims|
  {
    if |fs| == 0 then []
    else Survivors(fs[..|fs| - 1], anims[..|fs| - 1]) + (if AtLastFrame(anims[|fs| - 1]) then [] else [fs[|fs| - 1]])
  }

  lemma SurvivorsSnoc(fs: seq<Client>, anims: seq<Anim>, i: nat)
    requires |fs| == |anims| && i < |fs|
    ensures Survivors(fs[..i + 1], anims[..i + 1])
         == Survivors(fs[..i], anims[..i]) + (if AtLastFrame(anims[i]) then [] else [fs[i]])
  {
    assert fs[..i + 1][..i] == fs[..i] && anims[..i + 1][..i] == anims[..i];
  }

  /** A ghost survives the tick exactly when that tick was not its last. */
  lemma {:induction false} SurvivorsIff(fs: seq<Client>, anims: seq<Anim>, g: Client)
    requires |fs| == |anims| && Distinct(fs)
    ensures g in Survivors(fs, anims) <==> exists i :: 0 <= i < |fs| && fs[i] == g && !AtLastFrame(anims[i])
    decreases |fs|
  {
    if |fs| > 0 {
      var n := |fs| - 1;
      assert Distinct(fs[..n]);
      SurvivorsIff(fs[..n], anims[..n], g);
      if g in Survivors(fs, anims) && g !in Survivors(fs[..n], anims[..n]) {
        assert fs[n] == g && !AtLastFrame(anims[n]);
      }
      if i :| 0 <= i < |fs| && fs[i] == g && !AtLastFrame(anims[i]) {
        if i < n {
          assert fs[..n][i] == g && anims[..n][i] == anims[i];
        }
      }
    }
  }

  /** The rectangle every ghost fades toward. */
  function TargetsOf(fs: seq<Client>): (r: seq<Box>)
    reads set f | f in fs
    ensures |r| == |fs| && forall i :: 0 <= i < |fs| ==> r[i] == fs[i].current
  {
    if |fs| == 0 then [] else TargetsOf(fs[..|fs| - 1]) + [fs[|fs| - 1].current]
  }

  /** The animation state of every ghost. */
  function AnimsOf(fs: seq<Client>): (r: seq<Anim>)
    reads set f | f in fs
    ensures |r| == |fs| && forall i :: 0 <= i < |fs| ==> r[i] == fs[i].anim
  {
    if |fs| == 0 then [] else AnimsOf(fs[..|fs| - 1]) + [fs[|fs| - 1].anim]
  }

  /** The stored state of every window. */
  function SnapsOf(cs: seq<Client>): (r: seq<Snap>)
    reads set c | c in cs
    ensures |r| == |cs| && forall i :: 0 <= i < |cs| ==> r[i] == cs[i].Snapshot()
  {
    seq(|cs|, i requires 0 <= i < |cs| reads cs => cs[i].Snapshot())
  }

  /** What every window's frame reads and leaves alone. */
  function ViewsOf(cs: seq<Client>): (r: seq<ClientView>)
    reads set c | c in cs, set c | c in cs && c.mon != null :: c.mon
    ensures |r| == |cs| && forall i :: 0 <= i < |cs| ==> r[i] == cs[i].ViewOf()
  {
    seq(|cs|, i requires 0 <= i < |cs| reads (set c | c in cs), (set c | c in cs && c.mon != null :: c.mon) => cs[i].ViewOf())
  }

  /** The scene node of every ghost. */
  function ScenesOf(fs: seq<Client>): (r: seq<Scene>)
    reads set f | f in fs
    ensures |r| == |fs| && forall i :: 0 <= i < |fs| ==> r[i] == fs[i].scene
  {
    if |fs| == 0 then [] else ScenesOf(fs[..|fs| - 1]) + [fs[|fs| - 1].scene]
  }

  /** Draws the frame of every window of the list in order; `needMore` is
    * the OR of what `client_draw_frame` returned. */
  method DrawClients(clients: seq<Client>, cfg: Config, bt: BakedTables) returns (needMore: bool)
    requires bt.Sized() && Distinct(clients)
    requires forall i :: 0 <= i < |clients| ==> clients[i].props.mapped && clients[i].needOutputFlush ==> clients[i].mon != null
    modifies clients
    ensures needMore == old(AnyWants(clients, |clients|))
    ensures forall i :: 0 <= i < |clients| && !old(WantsFrame(clients[i])) ==> unchanged(clients[i])
    ensures forall i :: 0 <= i < |clients| ==>
              clients[i].Snapshot() == DrawSpec(old(clients[i].ViewOf()), cfg, bt.Values(), old(clients[i].Snapshot()))
  {
    ghost var views, snaps, tb := ViewsOf(clients), SnapsOf(clients), bt.Values();
    needMore := false;
    var i := 0;
    while i < |clients|
      invariant i <= |clients|
      invariant needMore == old(AnyWants(clients, i))
      invariant forall j :: 0 <= j < |clients| && (i <= j || !old(WantsFrame(clients[j]))) ==> unchanged(clients[j])
      invariant forall j :: 0 <= j < |clients| ==> views[j].p.mapped && snaps[j].needOutputFlush ==> views[j].mon.Some?
      invariant forall j :: 0 <= j < i ==> clients[j].Snapshot() == DrawSpec(views[j], cfg, tb, snaps[j])
      invariant bt.Values() == tb
    {
      ViewKept(clients[i]);
      var drew := DrawNth(clients, i, cfg, bt, views[i], snaps[i]);
      needMore := drew || needMore;
      i := i + 1;
    }
  }

  /** A window whose fields and monitor are as they were has the view it
    * had. */
  twostate lemma ViewKept(c: Client)
    requires unchanged(c) && (c.mon != null ==> unchanged(c.mon))
    ensures c.ViewOf() == old(c.ViewOf())
  {
  }

  /** The frame of the `i`th window, whose view is `v` and stored state
    * `s`, which leaves every other window alone and changes nothing but
    * its own stored state. */
  method DrawNth(clients: seq<Client>, i: nat, cfg: Config, bt: BakedTables, ghost v: ClientView, ghost s: Snap)
    returns (drew: bool)
    requires bt.Sized() && Distinct(clients) && i < |clients|
    requires clients[i].ViewOf() == v && clients[i].Snapshot() == s
    requires v.p.mapped && s.needOutputFlush ==> v.mon.Some?
    modifies clients[i]
    ensures drew == old(WantsFrame(clients[i]))
    ensures !drew ==> unchanged(clients[i])
    ensures clients[i].Snapshot() == DrawSpec(v, cfg, bt.Values(), s)
    ensures forall j :: 0 <= j < |clients| && j != i ==> unchanged(clients[j])
  {
    drew := DrawFrame(clients[i], cfg, bt);
  }

  /** A ghost's frame counter after one tick from `a`: it advances unless
    * the tick was the last, and the frame total stays. */
  predicate Advanced(b: Anim, a: Anim) {
    b.passedFrames == (if AtLastFrame(a) then a.passedFrames else a.passedFrames + 1)
    && b.totalFrames == a.totalFrames
  }

  /** Ghost `f` has taken one tick from animation state `a` and scene
    * `sc`: its animation took the `FadeStep` along its action's table and
    * its node moved to the drawn rectangle. */
  predicate Ticked(f: Client, a: Anim, sc: Scene, tb: Tables)
    requires tb.Sized()
    reads f
  {
    f.anim == FadeStep(a, f.current, tb.For(a.action))
    && f.scene == sc.(x := f.anim.drawn.x, y := f.anim.drawn.y)
  }

  /** The animation state of each ghost after one tick from `olds` toward
    * `targets`. */
  function Nexts(olds: seq<Anim>, targets: seq<Box>, tb: Tables): (r: seq<Anim>)
    requires tb.Sized() && |olds| == |targets|
    ensures |r| == |olds|
  {
    if |olds| == 0 then []
    else
      var n := |olds| - 1;
      Nexts(olds[..n], targets[..n], tb) + [FadeStep(olds[n], targets[n], tb.For(olds[n].action))]
  }

  lemma {:induction false} NextsAt(olds: seq<Anim>, targets: seq<Box>, tb: Tables, i: nat)
    requires tb.Sized() && |olds| == |targets| && i < |olds|
    ensures Nexts(olds, targets, tb)[i] == FadeStep(olds[i], targets[i], tb.For(olds[i].action))
    decreases |olds|
  {
    var n := |olds| - 1;
    if i < n {
      NextsAt(olds[..n], targets[..n], tb, i);
      assert olds[..n][i] == olds[i] && targets[..n][i] == targets[i];
    }
  }

  /** Ghost `f`, whose target is `t`, has taken one tick from animation
    * state `a` and scene `sc`. */
  predicate TickedFrom(f: Client, a: Anim, sc: Scene, t: Box, tb: Tables)
    requires tb.Sized()
    reads f`anim, f`scene
  {
    f.anim == FadeStep(a, t, tb.For(a.action))
    && f.scene == sc.(x := f.anim.drawn.x, y := f.anim.drawn.y)
  }

  /** A ticked ghost's frame counter has `Advanced`. */
  lemma TickedAdvances(f: Client, a: Anim, sc: Scene, tb: Tables)
    requires tb.Sized() && Ticked(f, a, sc, tb)
    ensures Advanced(f.anim, a)
  {
    AtLastFrameIff(a);
  }

  /** Ticks every ghost in order; `remaining` lists the ones still linked
    * afterwards (a ghost whose tick was its last is freed). */
  method TickGhosts(fadeouts: seq<Client>, bt: BakedTables) returns (remaining: seq<Client>)
    requires bt.Sized() && Distinct(fadeouts)
    modifies set f | f in fadeouts
    ensures remaining == Survivors(fadeouts, old(AnimsOf(fadeouts)))
    ensures forall i :: 0 <= i < |fadeouts| ==> Ticked(fadeouts[i], old(fadeouts[i].anim), old(fadeouts[i].scene), bt.Values())
  {
    ghost var olds, scenes, targets, tb := AnimsOf(fadeouts), ScenesOf(fadeouts), TargetsOf(fadeouts), bt.Values();
    remaining := [];
    var i := 0;
    while i < |fadeouts|
      invariant i <= |fadeouts| && bt.Values() == tb
      invariant remaining == Survivors(fadeouts[..i], olds[..i])
      invariant Untouched(fadeouts, i, olds, scenes, targets)
      invariant TickedUpTo(fadeouts, i, scenes, Nexts(olds, targets, tb))
    {
      var freed := TickStep(fadeouts, i, bt, olds, scenes, targets, tb);
      SurvivorsSnoc(fadeouts, olds, i);
      remaining := remaining + (if freed then [] else [fadeouts[i]]);
      i := i + 1;
    }
    assert fadeouts[..|fadeouts|] == fadeouts && olds[..|olds|] == olds;
    forall k | 0 <= k < |fadeouts|
      ensures Ticked(fadeouts[k], old(fadeouts[k].anim), old(fadeouts[k].scene), bt.Values())
    {
      NextsAt(olds, targets, tb, k);
    }
  }

  /** The ghosts from the `i`th on still have the animation state and scene
    * they began with, and every ghost keeps its target. */
  ghost predicate Untouched(fs: seq<Client>, i: nat, olds: seq<Anim>, scenes: seq<Scene>, targets: seq<Box>)
    reads set f | f in fs
  {
    |olds| == |scenes| == |targets| == |fs| && i <= |fs|
    && (forall j :: 0 <= j < |fs| ==> fs[j].current == targets[j])
    && forall j :: i <= j < |fs| ==> fs[j].anim == olds[j] && fs[j].scene == scenes[j]
  }

  /** The ghosts before the `i`th have taken their tick to `nexts`. */
  ghost predicate TickedUpTo(fs: seq<Client>, i: nat, scenes: seq<Scene>, nexts: seq<Anim>)
    requires i <= |fs| == |scenes| == |nexts|
    reads set f | f in fs
  {
    forall j :: 0 <= j < i ==> fs[j].anim == nexts[j] && fs[j].scene == scenes[j].(x := nexts[j].drawn.x, y := nexts[j].drawn.y)
  }

  /** One turn of the ghosts' loop: the `i`th ghost ticks. */
  method TickStep(fadeouts: seq<Client>, i: nat, bt: BakedTables,
                  ghost olds: seq<Anim>, ghost scenes: seq<Scene>, ghost targets: seq<Box>, ghost tb: Tables)
    returns (freed: bool)
    requires bt.Sized() && Distinct(fadeouts) && i < |fadeouts| && bt.Values() == tb
    requires Untouched(fadeouts, i, olds, scenes, targets)
    requires TickedUpTo(fadeouts, i, scenes, Nexts(olds, targets, tb))
    modifies fadeouts[i]
    ensures freed == AtLastFrame(olds[i]) && bt.Values() == tb
    ensures Untouched(fadeouts, i + 1, olds, scenes, targets)
    ensures TickedUpTo(fadeouts, i + 1, scenes, Nexts(olds, targets, tb))
  {
    DistinctApart(fadeouts, i);
    NextsAt(olds, targets, tb, i);
    freed := TickGhost(fadeouts[i], bt, olds[i], scenes[i], targets[i]);
  }

  /** The tick of one ghost, whose animation is `a`, scene `sc` and target
    * `t`: it changes only that ghost's animation and scene node. */
  method TickGhost(f: Client, bt: BakedTables, ghost a: Anim, ghost sc: Scene, ghost t: Box)
    returns (freed: bool)
    requires bt.Sized() && f.anim == a && f.scene == sc && f.current == t
    modifies f`anim, f`scene
    ensures freed == AtLastFrame(a)
    ensures TickedFrom(f, a, sc, t, bt.Values())
  {
    AtLastFrameIff(f.anim);
    freed := FadeoutTick(f, bt);
  }

  /** `rendermon`: the output schedules another frame when a window drew or
    * a ghost is left to tick (drawing a ghost always reports a frame). */
  method RenderMon(m: Monitor, clients: seq<Client>, fadeouts: seq<Client>, cfg: Config, bt: BakedTables)
    returns (needMore: bool, remaining: seq<Client>)
    requires bt.Sized() && Distinct(clients) && Distinct(fadeouts)
    requires forall i, j :: 0 <= i < |clients| && 0 <= j < |fadeouts| ==> clients[i] != fadeouts[j]
    requires forall i :: 0 <= i < |clients| ==> clients[i].props.mapped && clients[i].needOutputFlush ==> clients[i].mon != null
    modifies clients, fadeouts
    modifies m`frameScheduled
    ensures needMore == (old(AnyWants(clients, |clients|)) || |fadeouts| > 0)
    ensures remaining == Survivors(fadeouts, old(AnimsOf(fadeouts)))
    ensures m.frameScheduled == (old(m.frameScheduled) || needMore)
  {
    var drew := DrawClients(clients, cfg, bt);
    remaining := TickGhosts(fadeouts, bt);
    needMore := drew || |fadeouts| > 0;
    if needMore {
      m.frameScheduled := true;
    }
  }
}
