/** The workspace switcher over tags (`src/ext-workspace/tag-worksapce.h`):
  * one ext-workspace per tag plus one for the overview, all in a single
  * group; switching activates the target's ext-workspace and deactivates
  * the old one.  The scene tree of a workspace is modelled by whether it
  * is enabled; the `view` and `toggleoverview` calls are returned as a
  * `Request` for the caller to carry out. */
module TagWorkspace {
  import opened Opt
  import opened State
  import opened Tags
  import opened Transaction
  import opened ExtWorkspace

  /** The tag-view action a switch asks of the compositor. */
  datatype Request = NoRequest | ToggleOverview | View(mask: bv32)

  /** The name `add_workspace` gives a tag: "overview" for 0, the digit
    * otherwise. */
  function TagName(tag: nat): (name: string)
    requires tag <= TAG_COUNT
    ensures |name| > 0 && (tag > 0 ==> name == [('0' as int + tag) as char])
  {
    if tag == 0 then "overview" else [('0' as int + tag) as char]
  }

  /** The switch of `add_workspace` names each tag as
    * `get_name_from_tag` does. */
  lemma TagNameAgreesWithExtNames(tag: nat)
    requires tag <= TAG_COUNT
    ensures NameFromTag(tag) == Some(TagName(tag))
  {
    assert tag == 0 || tag == 1 || tag == 2 || tag == 3 || tag == 4 || tag == 5 || tag == 6 || tag == 7 || tag == 8 || tag == 9;
  }

  /** `struct workspace`. */
  class TagWs {
    const name: string
    const tag: nat
    var treeEnabled: bool
    const ext: Workspace

    constructor (name: string, tag: nat, ext: Workspace)
      ensures this.name == name && this.tag == tag && this.ext == ext && treeEnabled
    {
      this.name, this.tag, this.ext, treeEnabled := name, tag, ext, true;
    }
  }

  /** The global `workspaces` record. */
  class Workspaces {
    var all: seq<TagWs>
    var current: TagWs?
    var last: TagWs?
    const extManager: Manager
    const extGroup: Group

    /** The list holds distinct workspaces with distinct ext-workspaces and
      * tags up to 9; `current` and `last` are on it. */
    ghost predicate Valid()
      reads this, extManager
    {
      Transaction.Distinct(all) && (forall i, j :: 0 <= i < j < |all| ==> all[i].ext != all[j].ext)
      && (forall i :: 0 <= i < |all| ==> all[i].tag <= TAG_COUNT)
      && (current != null ==> current in all) && (last != null ==> last in all)
      && extManager.Valid()
    }

    /** The ext-workspace of exactly the current workspace has `active` in
      * its pending state. */
    ghost predicate ActiveIsCurrent()
      reads this, set w | w in all :: w.ext
    {
      forall i :: 0 <= i < |all| ==> (Active in all[i].ext.statePending <==> all[i] == current)
    }

    /** `workspaces_init`: a manager offering only `activate`, one group,
      * and the workspaces of tags 0 to 9 in order, the first one current. */
    constructor ()
      ensures Valid() && ActiveIsCurrent()
      ensures |all| == TAG_COUNT + 1 && current == all[0] && last == null
      ensures forall i :: 0 <= i < |all| ==> all[i].tag == i && all[i].name == TagName(i)
                                             && all[i].ext.group == extGroup && all[i].ext.name == Some(TagName(i))
                                             && all[i].treeEnabled == (i == 0)
      ensures extManager.caps == WS_CAP_WS_ACTIVATE && extGroup in extManager.groups
    {
      var m := new Manager(WS_CAP_WS_ACTIVATE, true);
      var g := m.CreateGroup();
      extManager, extGroup := m, g;
      all, current, last := [], null, null;
      new;
      var i := 0;
      while i <= TAG_COUNT
        invariant i <= TAG_COUNT + 1 && |all| == i && Valid() && ActiveIsCurrent() && last == null
        invariant i > 0 ==> current == all[0]
        invariant i == 0 ==> current == null
        invariant forall k :: 0 <= k < |all| ==> all[k].tag == k && all[k].name == TagName(k)
                                                 && all[k].ext.group == extGroup && all[k].ext.name == Some(TagName(k))
                                                 && all[k].treeEnabled == (k == 0)
        invariant extGroup in extManager.groups
      {
        AddWorkspace(i);
        i := i + 1;
      }
    }

    /** `add_workspace`: the new workspace goes to the tail, becomes
      * current when there is none and is hidden otherwise; its
      * ext-workspace joins the group under the tag's name, active exactly
      * when it is current. */
    method AddWorkspace(tag: nat)
      requires tag <= TAG_COUNT && Valid() && ActiveIsCurrent()
      modifies this`all, this`current, extManager`workspaces, extManager`idleSource
      ensures Valid() && ActiveIsCurrent() && |all| == |old(all)| + 1 && all[..|old(all)|] == old(all)
      ensures var w := all[|all| - 1];
              fresh(w) && fresh(w.ext) && w.tag == tag && w.name == TagName(tag)
              && w.ext.group == extGroup && w.ext.name == Some(TagName(tag)) && w.ext.state == None
              && w.treeEnabled == (old(current) == null)
              && current == (if old(current) == null then w else old(current))
      ensures extManager.groups == old(extManager.groups)
    {
      var name := TagName(tag);
      var active := current == null;
      var ext := CreateExt(name, active);
      var w := new TagWs(name, tag, ext);
      all := all + [w];
      if current == null {
        current := w;
      } else {
        w.treeEnabled := false;
      }
    }

    /** The ext half of `add_workspace`: a workspace of the manager, in
      * the group, named, and active as asked. */
    method CreateExt(name: string, active: bool) returns (ext: Workspace)
      requires extManager.Valid()
      modifies extManager`workspaces, extManager`idleSource
      ensures fresh(ext) && ext.group == extGroup && ext.name == Some(name) && ext.state == None
      ensures ext.statePending == (if active then {Active} else {})
      ensures extManager.Valid() && extManager.groups == old(extManager.groups)
    {
      ext := extManager.CreateWorkspace();
      extManager.AssignToGroup(ext, extGroup);
      extManager.SetName(ext, name);
      extManager.SetState(ext, Active, active);
    }

    /** `workspaces_switch_to`.  Switching to the current workspace does
      * nothing.  Otherwise the old workspace is hidden and deactivated;
      * for the overview workspace (tag 0) the overview is toggled and
      * nothing else changes, so `current` and `last` stay; for a real
      * tag that tag is viewed, the target is shown and activated, and it
      * becomes current with the old one as `last`. */
    method SwitchTo(target: TagWs) returns (req: Request)
      requires Valid() && current != null && target in all
      modifies this`current, this`last, current`treeEnabled, target`treeEnabled
      modifies current.ext`statePending, target.ext`statePending, extManager`idleSource
      ensures Valid()
      ensures target == old(current) ==> req == NoRequest && current == old(current) && last == old(last)
                                         && target.treeEnabled == old(target.treeEnabled)
                                         && target.ext.statePending == old(target.ext.statePending)
      ensures target != old(current) ==> !old(current).treeEnabled
                                         && old(current).ext.statePending == old(current.ext.statePending) - {Active}
      ensures target != old(current) && target.tag == 0
              ==> req == ToggleOverview && current == old(current) && last == old(last)
                  && target.treeEnabled == old(target.treeEnabled)
                  && target.ext.statePending == old(target.ext.statePending)
      ensures target != old(current) && target.tag > 0
              ==> req == View(Bit(target.tag - 1)) && current == target && last == old(current)
                  && target.treeEnabled && target.ext.statePending == old(target.ext.statePending) + {Active}
      ensures old(ActiveIsCurrent()) && (target.tag > 0 || target == old(current)) ==> ActiveIsCurrent()
      ensures old(ActiveIsCurrent()) && target.tag == 0 && target != old(current)
              ==> forall i :: 0 <= i < |all| ==> Active !in all[i].ext.statePending
    {
      if target == current {
        return NoRequest;
      }
      var old_ := current;
      assert old_.ext != target.ext by {
        var i :| 0 <= i < |all| && all[i] == old_;
        var j :| 0 <= j < |all| && all[j] == target;
        assert i != j;
      }
      old_.treeEnabled := false;
      extManager.SetState(old_.ext, Active, false);
      if target.tag == 0 {
        return ToggleOverview;
      }
      req := View(Bit(target.tag - 1));
      target.treeEnabled := true;
      last := current;
      current := target;
      extManager.SetState(target.ext, Active, true);
    }
  }
}
