/** The compositor side of the ext-workspace-v1 protocol
  * (`src/ext-protocol/ext-workspace.h`): workspace groups, workspaces
  * with a committed and a pending state bitfield, one idle event that
  * flushes pending states, and the per-session queues of client requests
  * that a commit turns into signals.  Wayland resources and the events
  * sent on them are not modelled; only the state fields are. */
module ExtWorkspace {
  import opened Opt
  import opened Transaction

  /** A new workspace's committed state: different from any real state,
    * so the first flush always sends it. */
  const WS_STATE_INVALID: bv32 := 0xFFFF_FFFF

  const WS_CAP_GRP_ALL: bv32 := 0x0000_FFFF
  const WS_CAP_WS_ALL: bv32 := 0xFFFF_0000
  const WS_CAP_GRP_WS_CREATE: bv32 := 0x1
  const WS_CAP_WS_ACTIVATE: bv32 := 0x1_0000
  const WS_CAP_WS_DEACTIVATE: bv32 := 0x2_0000
  const WS_CAP_WS_REMOVE: bv32 := 0x4_0000
  const WS_CAP_WS_ASSIGN: bv32 := 0x8_0000

  /** The pending changes a request queues. */
  const WS_PENDING_WS_CREATE: bv32 := 1
  const WS_PENDING_WS_ACTIVATE: bv32 := 2
  const WS_PENDING_WS_DEACTIVATE: bv32 := 4
  const WS_PENDING_WS_REMOVE: bv32 := 8
  const WS_PENDING_WS_ASSIGN: bv32 := 16

  /** The state bits of `ext_workspace_handle_v1`.  A workspace's state
    * is modelled as the set of its bits. */
  datatype StateBit = Active | Urgent | Hidden

  function BitOf(s: StateBit): bv32 {
    match s
    case Active => 1
    case Urgent => 2
    case Hidden => 4
  }

  /** The state bitfield sent for a set of state bits. */
  function StatesMask(states: set<StateBit>): (m: bv32)
    ensures m & 7 == m
    ensures (m & 1 != 0) <==> Active in states
    ensures (m & 2 != 0) <==> Urgent in states
    ensures (m & 4 != 0) <==> Hidden in states
  {
    (if Active in states then 1 else 0) | (if Urgent in states then 2 else 0) | (if Hidden in states then 4 else 0)
  }

  /** The committed field: `WS_STATE_INVALID` before the first flush. */
  function CommittedMask(state: Option<set<StateBit>>): (m: bv32)
    ensures state.None? <==> m == WS_STATE_INVALID
  {
    match state
    case None => WS_STATE_INVALID
    case Some(states) => StatesMask(states)
  }

  /** Comparing the modelled states is comparing the bitfields, so the
    * flush sends exactly when the source's `state != state_pending`. */
  lemma CommittedMaskFaithful(state: Option<set<StateBit>>, pending: set<StateBit>)
    ensures CommittedMask(state) == StatesMask(pending) <==> state == Some(pending)
  {
    if CommittedMask(state) == StatesMask(pending) {
      var states := state.value;
      forall s: StateBit
        ensures s in states <==> s in pending
      {
        match s
        case Active =>
        case Urgent =>
        case Hidden =>
      }
      assert states == pending;
    }
  }

  /** What an operation's `src` and `data` pointers name. */
  datatype Ref = Null | ManagerObj(manager: Manager) | GroupObj(group: Group)
               | WorkspaceObj(workspace: Workspace) | CreateEvent(name: string)

  /** The signal a commit emits for one operation. */
  datatype SignalKind = CreateWorkspace | ActivateWorkspace | DeactivateWorkspace | RemoveWorkspace | AssignWorkspace
  datatype Signal = Signal(kind: SignalKind, target: Ref, payload: Ref)

  /** The `switch` of `manager_handle_commit`: the five known changes emit
    * a signal on the operation's `src`; any other is only logged. */
  function SignalOf(op: Op<Ref>): (r: Option<Signal>)
    ensures r.Some? <==> op.change in {WS_PENDING_WS_CREATE, WS_PENDING_WS_ACTIVATE, WS_PENDING_WS_DEACTIVATE,
                                       WS_PENDING_WS_REMOVE, WS_PENDING_WS_ASSIGN}
    ensures r.Some? ==> r.value.target == op.src
  {
    if op.change == WS_PENDING_WS_CREATE then Some(Signal(CreateWorkspace, op.src, op.data))
    else if op.change == WS_PENDING_WS_ACTIVATE then Some(Signal(ActivateWorkspace, op.src, Null))
    else if op.change == WS_PENDING_WS_DEACTIVATE then Some(Signal(DeactivateWorkspace, op.src, Null))
    else if op.change == WS_PENDING_WS_REMOVE then Some(Signal(RemoveWorkspace, op.src, Null))
    else if op.change == WS_PENDING_WS_ASSIGN then Some(Signal(AssignWorkspace, op.src, op.data))
    else None
  }

  /** The operation names `r` as its `src`, or, when `alsoData`, as its
    * `data`. */
  predicate Refers(op: Op<Ref>, r: Ref, alsoData: bool) {
    op.src == r || (alsoData && op.data == r)
  }

  /** The queue after the purge loop of a destroy: the operations that do
    * not name `r`, in their order. */
  function Purged(ops: seq<Op<Ref>>, r: Ref, alsoData: bool): (p: seq<Op<Ref>>)
    ensures |p| <= |ops|
  {
    if |ops| == 0 then []
    else (if Refers(ops[0], r, alsoData) then [] else [ops[0]]) + Purged(ops[1..], r, alsoData)
  }

  /** The purge drops exactly the operations naming `r`. */
  lemma {:induction false} PurgedMeaning(ops: seq<Op<Ref>>, r: Ref, alsoData: bool)
    ensures forall op :: op in Purged(ops, r, alsoData) <==> op in ops && !Refers(op, r, alsoData)
  {
    if |ops| > 0 {
      PurgedMeaning(ops[1..], r, alsoData);
      assert ops == [ops[0]] + ops[1..];
    }
  }

  /** A queue with nothing naming `r` is left as it is. */
  lemma {:induction false} PurgedKeepsUnrelated(ops: seq<Op<Ref>>, r: Ref, alsoData: bool)
    requires forall i :: 0 <= i < |ops| ==> !Refers(ops[i], r, alsoData)
    ensures Purged(ops, r, alsoData) == ops
  {
    if |ops| > 0 {
      PurgedKeepsUnrelated(ops[1..], r, alsoData);
      assert ops == [ops[0]] + ops[1..];
    }
  }

  /** No operation left by the purge names `r`. */
  lemma {:induction false} PurgedClean(ops: seq<Op<Ref>>, r: Ref, alsoData: bool)
    ensures forall i :: 0 <= i < |Purged(ops, r, alsoData)| ==> !Refers(Purged(ops, r, alsoData)[i], r, alsoData)
  {
    if |ops| > 0 {
      PurgedClean(ops[1..], r, alsoData);
    }
  }

  /** Purging twice is purging once. */
  lemma PurgeIdempotent(ops: seq<Op<Ref>>, r: Ref, alsoData: bool)
    ensures Purged(Purged(ops, r, alsoData), r, alsoData) == Purged(ops, r, alsoData)
  {
    PurgedClean(ops, r, alsoData);
    PurgedKeepsUnrelated(Purged(ops, r, alsoData), r, alsoData);
  }

  /** After a destroyed object's purge, a later commit emits no signal on
    * it. */
  lemma PurgedSignalsNothingFor(ops: seq<Op<Ref>>, r: Ref, alsoData: bool)
    ensures forall i :: 0 <= i < |Purged(ops, r, alsoData)| && SignalOf(Purged(ops, r, alsoData)[i]).Some?
              ==> SignalOf(Purged(ops, r, alsoData)[i]).value.target != r
  {
    PurgedClean(ops, r, alsoData);
  }

  /** A group's capabilities: the low half of the manager's. */
  function GroupCaps(caps: bv32): (r: bv32)
    ensures r & WS_CAP_WS_ALL == 0
  {
    caps & WS_CAP_GRP_ALL
  }

  /** A workspace's capabilities: the high half of the manager's, shifted
    * down to the protocol's own bit positions. */
  function WorkspaceCaps(caps: bv32): (r: bv32)
    ensures r & WS_CAP_WS_ALL == 0
  {
    (caps & WS_CAP_WS_ALL) >> 16
  }

  /** The two halves lose nothing: shifting the workspace half back up and
    * joining the group half gives the manager's capabilities. */
  lemma CapsSplit(caps: bv32)
    ensures GroupCaps(caps) | (WorkspaceCaps(caps) << 16) == caps
  {
    assert (caps & 0x0000_FFFF) | (((caps & 0xFFFF_0000) >> 16) << 16) == caps;
  }

  /** The activate capability the tag workspaces are created with is the
    * protocol's workspace `activate` capability (bit 0) and gives the
    * group no capability. */
  lemma ActivateCapability()
    ensures WorkspaceCaps(WS_CAP_WS_ACTIVATE) == 1 && GroupCaps(WS_CAP_WS_ACTIVATE) == 0
  {
  }

  /** `workspace_set_state` on the pending bits. */
  function PendingAfter(pending: set<StateBit>, s: StateBit, enabled: bool): (r: set<StateBit>)
    ensures s in r <==> enabled
    ensures r - {s} == pending - {s}
  {
    if (s in pending) == enabled then pending
    else if enabled then pending + {s}
    else pending - {s}
  }

  /** Those two facts determine the result: the requested bit has the
    * requested value and every other bit is the old one. */
  lemma PendingAfterIsUnique(pending: set<StateBit>, s: StateBit, enabled: bool, r: set<StateBit>)
    requires s in r <==> enabled
    requires r - {s} == pending - {s}
    ensures r == PendingAfter(pending, s, enabled)
  {
    var q := PendingAfter(pending, s, enabled);
    forall x | x in r
      ensures x in q
    {
      if x != s {
        assert x in r - {s};
      }
    }
    forall x | x in q
      ensures x in r
    {
      if x != s {
        assert x in q - {s};
      }
    }
  }

  /** Dropping the operation at the head of what is left of the queue. */
  lemma SkipHead<E>(kept: seq<E>, rest: seq<E>)
    requires |rest| > 0
    ensures Removed(kept + rest, |kept|) == kept + rest[1..]
    ensures (kept + rest[1..])[|kept|..] == rest[1..]
  {
  }

  /** Stepping over the operation at the head of what is left. */
  lemma KeepHead<E>(kept: seq<E>, rest: seq<E>)
    requires |rest| > 0
    ensures kept + rest == (kept + [rest[0]]) + rest[1..]
    ensures (kept + rest)[|kept| + 1..] == rest[1..]
  {
  }

  /** The first position of `x` in `s`. */
  function IndexOf<E(==)>(s: seq<E>, x: E): (i: nat)
    requires x in s
    ensures i < |s| && s[i] == x && forall j :: 0 <= j < i ==> s[j] != x
  {
    if s[0] == x then 0 else 1 + IndexOf(s[1..], x)
  }

  /** The workspaces whose committed state differs from the pending one,
    * in list order. */
  function Differing(ws: seq<Workspace>): seq<Workspace>
    reads ws
  {
    if |ws| == 0 then []
    else Differing(ws[..|ws| - 1]) + (if ws[|ws| - 1].state != Some(ws[|ws| - 1].statePending) then [ws[|ws| - 1]] else [])
  }

  /** `struct dwl_ext_workspace_group`; `outputs` holds the identities of
    * the outputs of its `group_output` list, head first. */
  class Group {
    var capabilities: bv32
    var outputs: seq<int>

    constructor (capabilities: bv32)
      ensures this.capabilities == capabilities && outputs == []
    {
      this.capabilities, outputs := capabilities, [];
    }
  }

  /** `struct dwl_ext_workspace`. */
  class Workspace {
    var group: Group?
    var name: Option<string>
    var capabilities: bv32
    var state: Option<set<StateBit>>
    var statePending: set<StateBit>

    /** The zero-filled workspace `dwl_ext_workspace_create` starts from. */
    constructor (capabilities: bv32)
      ensures group == null && name == None && this.capabilities == capabilities
      ensures state == None && statePending == {}
    {
      group, name, this.capabilities := null, None, capabilities;
      state, statePending := None, {};
    }
  }

  /** `struct dwl_ext_workspace_manager`; `sessions` are the transaction
    * contexts of the bound manager resources and `idleSource` says a
    * flush is scheduled. */
  class Manager {
    const caps: bv32
    const hasEventLoop: bool
    var groups: seq<Group>
    var workspaces: seq<Workspace>
    var sessions: seq<Context<Ref>>
    var idleSource: bool

    /** Each list holds distinct objects. */
    ghost predicate Valid()
      reads this
    {
      Distinct(groups) && Distinct(workspaces) && Distinct(sessions)
    }

    /** `dwl_ext_workspace_manager_create`, once the global exists. */
    constructor (caps: bv32, hasEventLoop: bool)
      ensures this.caps == caps && this.hasEventLoop == hasEventLoop
      ensures groups == [] && workspaces == [] && sessions == [] && !idleSource && Valid()
    {
      this.caps, this.hasEventLoop := caps, hasEventLoop;
      groups, workspaces, sessions, idleSource := [], [], [], false;
    }

    /** `ext_manager_schedule_done_event`: at most one idle source, and
      * none without an event loop. */
    method ScheduleDoneEvent()
      modifies this`idleSource
      ensures idleSource == (old(idleSource) || hasEventLoop)
    {
      if idleSource {
        return;
      }
      if !hasEventLoop {
        return;
      }
      idleSource := true;
    }

    /** `workspace_set_state`: nothing happens when the bit already has
      * the requested value; otherwise only that pending bit flips and a
      * flush is scheduled. */
    method SetState(w: Workspace, s: StateBit, enabled: bool)
      modifies w`statePending, this`idleSource
      ensures w.statePending == PendingAfter(old(w.statePending), s, enabled)
      ensures (s in old(w.statePending)) == enabled ==> idleSource == old(idleSource)
      ensures (s in old(w.statePending)) != enabled ==> idleSource == (old(idleSource) || hasEventLoop)
    {
      if (s in w.statePending) == enabled {
        return;
      }
      if enabled {
        w.statePending := w.statePending + {s};
      } else {
        w.statePending := w.statePending - {s};
      }
      ScheduleDoneEvent();
    }

    /** `manager_idle_send_done`: a workspace whose pending state differs
      * takes it and has it sent; then the idle source is gone. */
    method IdleSendDone() returns (sent: seq<Workspace>)
      requires Distinct(workspaces)
      modifies workspaces`state, this`idleSource
      ensures !idleSource && sent == old(Differing(workspaces))
      ensures forall w :: w in workspaces ==> w.state == Some(w.statePending)
    {
      var ws := workspaces;
      sent := [];
      var i := 0;
      while i < |ws|
        invariant i <= |ws|
        invariant forall j :: 0 <= j < i ==> ws[j].state == Some(ws[j].statePending)
        invariant forall j :: i <= j < |ws| ==> ws[j].state == old(ws[j].state)
        invariant sent == old(Differing(ws[..i]))
      {
        assert ws[..i + 1][..i] == ws[..i];
        var w := ws[i];
        if w.state != Some(w.statePending) {
          w.state := Some(w.statePending);
          sent := sent + [w];
        }
        i := i + 1;
      }
      assert ws[..i] == ws;
      idleSource := false;
    }

    /** `dwl_ext_workspace_group_create`: the group gets the group half of
      * the capabilities and joins the tail of the list. */
    method CreateGroup() returns (g: Group)
      requires Valid()
      modifies this`groups, this`idleSource
      ensures fresh(g) && g.capabilities == GroupCaps(caps) && g.outputs == []
      ensures groups == old(groups) + [g] && Valid()
      ensures idleSource == (old(idleSource) || hasEventLoop)
    {
      g := new Group(GroupCaps(caps));
      groups := groups + [g];
      ScheduleDoneEvent();
    }

    /** `dwl_ext_workspace_create`: the workspace gets the workspace half
      * of the capabilities, an invalid committed state and no pending
      * bits, and joins the tail of the list. */
    method CreateWorkspace() returns (w: Workspace)
      requires Valid()
      modifies this`workspaces, this`idleSource
      ensures fresh(w) && w.capabilities == WorkspaceCaps(caps) && w.group == null && w.name == None
      ensures w.state == None && w.statePending == {}
      ensures workspaces == old(workspaces) + [w] && Valid()
      ensures idleSource == (old(idleSource) || hasEventLoop)
    {
      w := new Workspace(WorkspaceCaps(caps));
      workspaces := workspaces + [w];
      ScheduleDoneEvent();
    }

    /** `dwl_ext_workspace_assign_to_group`: a no-op for the current
      * group; otherwise the workspace moves and a flush is scheduled. */
    method AssignToGroup(w: Workspace, g: Group?)
      modifies w`group, this`idleSource
      ensures w.group == g
      ensures old(w.group) == g ==> idleSource == old(idleSource)
      ensures old(w.group) != g ==> idleSource == (old(idleSource) || hasEventLoop)
    {
      if w.group == g {
        return;
      }
      if w.group != null {
        ScheduleDoneEvent();
      }
      w.group := g;
      if g == null {
        return;
      }
      ScheduleDoneEvent();
    }

    /** `dwl_ext_workspace_set_name`: the name is replaced when it
      * differs; a flush is scheduled either way. */
    method SetName(w: Workspace, name: string)
      modifies w`name, this`idleSource
      ensures w.name == Some(name) && idleSource == (old(idleSource) || hasEventLoop)
    {
      if w.name != Some(name) {
        w.name := Some(name);
      }
      ScheduleDoneEvent();
    }

    /** `dwl_ext_workspace_group_output_enter`: an output already in the
      * group changes nothing; a new one is inserted at the head. */
    method GroupOutputEnter(g: Group, output: int)
      modifies g`outputs, this`idleSource
      ensures output in old(g.outputs) ==> g.outputs == old(g.outputs) && idleSource == old(idleSource)
      ensures output !in old(g.outputs) ==> g.outputs == [output] + old(g.outputs)
                                            && idleSource == (old(idleSource) || hasEventLoop)
      ensures Distinct(old(g.outputs)) ==> Distinct(g.outputs)
    {
      var i := 0;
      while i < |g.outputs|
        invariant i <= |g.outputs| && output !in g.outputs[..i]
      {
        if g.outputs[i] == output {
          return;
        }
        assert g.outputs[..i + 1] == g.outputs[..i] + [g.outputs[i]];
        i := i + 1;
      }
      assert g.outputs[..i] == g.outputs;
      g.outputs := [output] + g.outputs;
      ScheduleDoneEvent();
    }

    /** `dwl_ext_workspace_group_output_leave`: the first entry for the
      * output is destroyed; an output never entered is only logged. */
    method GroupOutputLeave(g: Group, output: int) returns (found: bool)
      modifies g`outputs, this`idleSource
      ensures found <==> output in old(g.outputs)
      ensures found ==> g.outputs == Removed(old(g.outputs), IndexOf(old(g.outputs), output))
                        && idleSource == (old(idleSource) || hasEventLoop)
      ensures !found ==> g.outputs == old(g.outputs) && idleSource == old(idleSource)
    {
      var i := 0;
      while i < |g.outputs|
        invariant i <= |g.outputs| && output !in g.outputs[..i]
      {
        if g.outputs[i] == output {
          assert i == IndexOf(g.outputs, output);
          g.outputs := g.outputs[..i] + g.outputs[i + 1..];
          ScheduleDoneEvent();
          return true;
        }
        assert g.outputs[..i + 1] == g.outputs[..i] + [g.outputs[i]];
        i := i + 1;
      }
      assert g.outputs[..i] == g.outputs;
      return false;
    }

    /** `manager_handle_commit`: every queued operation of the session, in
      * order, gives its signal and is destroyed; the queue ends empty.  A
      * resource whose addon is gone does nothing. */
    method Commit(addon: Addon?<Ref>) returns (signals: seq<Option<Signal>>)
      modifies if addon == null then {} else {addon.ctx}
      ensures addon == null ==> signals == []
      ensures addon != null ==> addon.ctx.ops == [] && |signals| == |old(addon.ctx.ops)|
                                && (forall i :: 0 <= i < |signals| ==> signals[i] == SignalOf(old(addon.ctx.ops)[i]))
      ensures addon != null ==> addon.ctx.refCount == old(addon.ctx.refCount) && addon.ctx.addons == old(addon.ctx.addons)
                                && addon.ctx.freed == old(addon.ctx.freed)
    {
      signals := [];
      if addon == null {
        return;
      }
      var ctx := addon.ctx;
      ghost var done: seq<Op<Ref>> := [];
      while |ctx.ops| > 0
        invariant done + ctx.ops == old(ctx.ops) && |signals| == |done|
        invariant forall i :: 0 <= i < |signals| ==> signals[i] == SignalOf(done[i])
        invariant ctx.refCount == old(ctx.refCount) && ctx.addons == old(ctx.addons) && ctx.freed == old(ctx.freed)
        decreases |ctx.ops|
      {
        var op := ctx.DestroyOp(0);
        signals := signals + [SignalOf(op)];
        done := done + [op];
      }
    }

    /** The purge loop over one session's queue: every operation naming
      * `r` is destroyed, the others stay in order. */
    method PurgeSession(ctx: Context<Ref>, r: Ref, alsoData: bool)
      modifies ctx`ops
      ensures ctx.ops == Purged(old(ctx.ops), r, alsoData)
    {
      ghost var kept: seq<Op<Ref>> := [];
      var i := 0;
      while i < |ctx.ops|
        invariant i == |kept| <= |ctx.ops| && ctx.ops == kept + ctx.ops[i..]
        invariant Purged(old(ctx.ops), r, alsoData) == kept + Purged(ctx.ops[i..], r, alsoData)
        decreases |ctx.ops| - i
      {
        i, kept := PurgeOne(ctx, i, kept, ctx.ops[i..], r, alsoData);
      }
    }

    /** One step of the purge loop: the operation at `i` is destroyed when
      * it names `r`, otherwise skipped. */
    method PurgeOne(ctx: Context<Ref>, i: nat, ghost kept: seq<Op<Ref>>, ghost rest: seq<Op<Ref>>, r: Ref, alsoData: bool)
      returns (i': nat, ghost kept': seq<Op<Ref>>)
      requires i == |kept| && |rest| > 0 && ctx.ops == kept + rest
      modifies ctx`ops
      ensures kept + Purged(rest, r, alsoData) == kept' + Purged(rest[1..], r, alsoData)
      ensures i' == |kept'| <= |ctx.ops| && ctx.ops == kept' + rest[1..] && ctx.ops[i'..] == rest[1..]
      ensures |ctx.ops| - i' < |old(ctx.ops)| - i
    {
      assert ctx.ops[i] == rest[0];
      if Refers(ctx.ops[i], r, alsoData) {
        var _ := ctx.DestroyOp(i);
        SkipHead(kept, rest);
        i', kept' := i, kept;
      } else {
        KeepHead(kept, rest);
        i', kept' := i + 1, kept + [rest[0]];
      }
    }

    /** The purge over every bound session. */
    method PurgeAll(r: Ref, alsoData: bool)
      requires Distinct(sessions)
      modifies sessions`ops
      ensures forall j :: 0 <= j < |sessions| ==> sessions[j].ops == Purged(old(sessions[j].ops), r, alsoData)
    {
      var ss := sessions;
      var j := 0;
      while j < |ss|
        invariant j <= |ss|
        invariant forall k :: 0 <= k < j ==> ss[k].ops == Purged(old(ss[k].ops), r, alsoData)
        invariant forall k :: j <= k < |ss| ==> ss[k].ops == old(ss[k].ops)
      {
        PurgeSession(ss[j], r, alsoData);
        j := j + 1;
      }
    }

    /** The loop of `dwl_ext_workspace_group_destroy` that un-assigns the
      * group's workspaces. */
    method UnassignGroup(g: Group)
      requires Distinct(workspaces)
      modifies workspaces`group
      ensures forall w :: w in workspaces ==> w.group == (if old(w.group) == g then null else old(w.group))
    {
      var ws := workspaces;
      var i := 0;
      while i < |ws|
        invariant i <= |ws|
        invariant forall j :: 0 <= j < |ws| ==> ws[j].group == (if j < i && old(ws[j].group) == g then null else old(ws[j].group))
      {
        if ws[i].group == g {
          ws[i].group := null;
        }
        i := i + 1;
      }
    }

    /** `dwl_ext_workspace_group_destroy`: its outputs leave, its
      * workspaces lose it, every queued operation naming it as `src` or
      * `data` is purged, and it leaves the group list. */
    method GroupDestroy(g: Group)
      requires Valid() && g in groups
      modifies this`groups, this`idleSource, g`outputs, workspaces`group, sessions`ops
      ensures Valid() && groups == Removed(old(groups), IndexOf(old(groups), g)) && g !in groups
      ensures g.outputs == []
      ensures forall w :: w in workspaces ==> w.group == (if old(w.group) == g then null else old(w.group))
      ensures forall j :: 0 <= j < |sessions| ==> sessions[j].ops == Purged(old(sessions[j].ops), GroupObj(g), true)
      ensures idleSource == (old(idleSource) || hasEventLoop)
    {
      if |g.outputs| > 0 {
        g.outputs := [];
        ScheduleDoneEvent();
      }
      UnassignGroup(g);
      PurgeAll(GroupObj(g), true);
      ScheduleDoneEvent();
      var i := IndexOf(groups, g);
      RemovedDistinct(groups, i);
      groups := groups[..i] + groups[i + 1..];
    }

    /** `dwl_ext_workspace_destroy`: every queued operation with the
      * workspace as `src` is purged and it leaves the workspace list. */
    method WorkspaceDestroy(w: Workspace)
      requires Valid() && w in workspaces
      modifies this`workspaces, this`idleSource, sessions`ops
      ensures Valid() && workspaces == Removed(old(workspaces), IndexOf(old(workspaces), w)) && w !in workspaces
      ensures forall j :: 0 <= j < |sessions| ==> sessions[j].ops == Purged(old(sessions[j].ops), WorkspaceObj(w), false)
      ensures idleSource == (old(idleSource) || hasEventLoop)
    {
      ScheduleDoneEvent();
      PurgeAll(WorkspaceObj(w), false);
      var i := IndexOf(workspaces, w);
      RemovedDistinct(workspaces, i);
      workspaces := workspaces[..i] + workspaces[i + 1..];
    }
  }

  /** The request handlers queue one operation on the resource's session;
    * an inert resource (no addon) is ignored.  `workspace_handle_activate`,
    * `_deactivate` and `_remove` name the workspace as `src`. */
  method HandleWorkspaceRequest(addon: Addon?<Ref>, change: bv32)
    requires change in {WS_PENDING_WS_ACTIVATE, WS_PENDING_WS_DEACTIVATE, WS_PENDING_WS_REMOVE}
    modifies if addon == null then {} else {addon.ctx}
    ensures addon != null ==> addon.ctx.ops == old(addon.ctx.ops) + [Op(change, addon.data, Null)]
                              && addon.ctx.refCount == old(addon.ctx.refCount) && addon.ctx.addons == old(addon.ctx.addons)
                              && addon.ctx.freed == old(addon.ctx.freed)
  {
    if addon == null {
      return;
    }
    var _ := addon.ctx.Add(change, addon.data, Null);
  }

  /** `workspace_handle_assign`: the new group is the `data`; either
    * resource being inert drops the request. */
  method HandleAssign(addon: Addon?<Ref>, groupAddon: Addon?<Ref>)
    modifies if addon == null then {} else {addon.ctx}
    ensures addon != null && groupAddon != null
            ==> addon.ctx.ops == old(addon.ctx.ops) + [Op(WS_PENDING_WS_ASSIGN, addon.data, old(groupAddon.data))]
    ensures addon != null && groupAddon == null ==> addon.ctx.ops == old(addon.ctx.ops)
    ensures addon != null ==> addon.ctx.refCount == old(addon.ctx.refCount) && addon.ctx.addons == old(addon.ctx.addons)
                              && addon.ctx.freed == old(addon.ctx.freed)
  {
    if addon == null || groupAddon == null {
      return;
    }
    var _ := addon.ctx.Add(WS_PENDING_WS_ASSIGN, addon.data, groupAddon.data);
  }

  /** `group_handle_create_workspace`: the group is the `src` and the
    * requested name travels in the `data` event. */
  method HandleCreateWorkspace(addon: Addon?<Ref>, name: string)
    modifies if addon == null then {} else {addon.ctx}
    ensures addon != null ==> addon.ctx.ops == old(addon.ctx.ops) + [Op(WS_PENDING_WS_CREATE, addon.data, CreateEvent(name))]
                              && addon.ctx.refCount == old(addon.ctx.refCount) && addon.ctx.addons == old(addon.ctx.addons)
                              && addon.ctx.freed == old(addon.ctx.freed)
  {
    if addon == null {
      return;
    }
    var _ := addon.ctx.Add(WS_PENDING_WS_CREATE, addon.data, CreateEvent(name));
  }

  /** The names `get_name_from_tag` gives: "overview" for tag 0, the digit
    * for tags 1 to 9, none beyond. */
  function NameFromTag(tag: nat): (r: Option<string>)
    ensures r.Some? <==> tag < 10
  {
    var names := ["overview", "1", "2", "3", "4", "5", "6", "7", "8", "9"];
    if tag < |names| then Some(names[tag]) else None
  }
}
