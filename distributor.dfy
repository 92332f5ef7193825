/** The distributor itself: it collects user views, surrounds them with
    spacers as they arrive, and finally registers the constraint plan with
    the container view. */
module Distribution {
  import opened UIKitModel
  import opened Slots
  import opened ConstraintPlan

  // The plan for the slot sequence a distributor builds.

  /** Total count: for N >= 1 user views, 2N+1 size records, 2N chains, two
      anchors and, in debug mode, two records for each of the N+1 spacers;
      nothing for N = 0. */
  lemma PlanCountForUsers(cfg: Config, users: seq<nat>)
    ensures var n := |users|;
      |Plan(cfg, Layout(users, !cfg.debug))|
      == if n == 0 then 0 else (2 * n + 1) + 2 * n + 2 + (if cfg.debug then 2 * (n + 1) else 0)
  {
    var views := Layout(users, !cfg.debug);
    LayoutShape(users, !cfg.debug);
    PlanLength(cfg, views);
    assert (|views| + 1) / 2 == (if users == [] then 0 else |users| + 1);
  }

  /** Size records of the built slots: the leading spacer is at least 0 and
      every later spacer is as large as the leading one. */
  lemma SpacerSizesForUsers(cfg: Config, users: seq<nat>)
    ensures var h := cfg.horizontal;
      var hidden := !cfg.debug;
      var s := WithRole(Plan(cfg, Layout(users, hidden)), h, SizeRole);
      && |s| == SlotCount(|users|)
      && (users != [] ==>
            s[0] == Constraint(Spacer(0, hidden), SizeAttr(h), GreaterThanOrEqual, NoItem, NotAnAttribute, 1, 0, Required))
      && (forall j :: 1 <= j <= |users| ==>
            s[2 * j] == Constraint(Spacer(j, hidden), SizeAttr(h), Equal, ToView(Spacer(0, hidden)), SizeAttr(h), 1, 0, Required))
  {
    var views := Layout(users, !cfg.debug);
    LayoutShape(users, !cfg.debug);
    SizeRecords(cfg, views);
    SpacerSizes(cfg, views, |users|, WithRole(Plan(cfg, views), cfg.horizontal, SizeRole));
  }

  /** The spacer part of SpacerSizesForUsers, for any records `s` that are
      the size records of slots alternating as a distributor builds them. */
  lemma SpacerSizes(cfg: Config, views: seq<View>, n: nat, s: seq<Constraint>)
    requires |views| == SlotCount(n)
    requires forall i :: 0 <= i < |views| && i % 2 == 0 ==>
               views[i].Spacer? && views[i].serial == i / 2 && views[i].hidden == !cfg.debug
    requires |s| == |views| && forall i :: 0 <= i < |s| ==> s[i] == SizeConstraint(cfg, views, i)
    ensures var h := cfg.horizontal;
      var hidden := !cfg.debug;
      && (n > 0 ==>
            s[0] == Constraint(Spacer(0, hidden), SizeAttr(h), GreaterThanOrEqual, NoItem, NotAnAttribute, 1, 0, Required))
      && (forall j :: 1 <= j <= n ==>
            s[2 * j] == Constraint(Spacer(j, hidden), SizeAttr(h), Equal, ToView(Spacer(0, hidden)), SizeAttr(h), 1, 0, Required))
  {
  }

  /** Size records of the built slots: user view j, in call order, is
      exactly viewSize along the axis. */
  lemma UserSizesForUsers(cfg: Config, users: seq<nat>)
    ensures var h := cfg.horizontal;
      var s := WithRole(Plan(cfg, Layout(users, !cfg.debug)), h, SizeRole);
      && |s| == SlotCount(|users|)
      && (forall j :: 0 <= j < |users| ==>
            s[2 * j + 1] == Constraint(User(users[j]), SizeAttr(h), Equal, NoItem, NotAnAttribute, 1, cfg.viewSize, Required))
  {
    var views := Layout(users, !cfg.debug);
    LayoutShape(users, !cfg.debug);
    SizeRecords(cfg, views);
    UserSizes(cfg, views, users, WithRole(Plan(cfg, views), cfg.horizontal, SizeRole));
  }

  /** The user-view part of UserSizesForUsers, for any records `s` that are
      the size records of slots holding `users` at the odd positions. */
  lemma UserSizes(cfg: Config, views: seq<View>, users: seq<nat>, s: seq<Constraint>)
    requires |views| == SlotCount(|users|)
    requires forall j :: 0 <= j < |users| ==> views[2 * j + 1] == User(users[j])
    requires |s| == |views| && forall i :: 0 <= i < |s| ==> s[i] == SizeConstraint(cfg, views, i)
    ensures forall j :: 0 <= j < |users| ==>
      s[2 * j + 1] == Constraint(User(users[j]), SizeAttr(cfg.horizontal), Equal, NoItem, NotAnAttribute,
                                 1, cfg.viewSize, Required)
  {
  }

  /** In debug mode the debug records go to the N+1 spacers, which are
      visible, and to nothing else; without debug mode there are none. */
  lemma DebugForUsers(cfg: Config, users: seq<nat>)
    ensures var h := cfg.horizontal;
      var views := Layout(users, !cfg.debug);
      var ds := WithRole(Plan(cfg, views), h, DebugSizeRole);
      var dp := WithRole(Plan(cfg, views), h, DebugPosRole);
      && |ds| == |dp| == (if cfg.debug && users != [] then |users| + 1 else 0)
      && (forall j :: 0 <= j < |ds| ==> ds[j].item == Spacer(j, false) && ds[j].constant == DebugCrossSize)
      && (forall j :: 0 <= j < |dp| ==> dp[j].item == Spacer(j, false) && dp[j].constant == DebugOffset(2 * j))
  {
    var views := Layout(users, !cfg.debug);
    LayoutShape(users, !cfg.debug);
    DebugRule(cfg, views);
    DebugSpacers(cfg, views, |users|, WithRole(Plan(cfg, views), cfg.horizontal, DebugSizeRole));
    DebugSpacers(cfg, views, |users|, WithRole(Plan(cfg, views), cfg.horizontal, DebugPosRole));
  }

  /** The spacer part of DebugForUsers, for any records `s` that are one per
      even slot of slots alternating as a distributor builds them. */
  lemma DebugSpacers(cfg: Config, views: seq<View>, n: nat, s: seq<Constraint>)
    requires |views| == SlotCount(n)
    requires forall i :: 0 <= i < |views| && i % 2 == 0 ==>
               views[i].Spacer? && views[i].serial == i / 2 && views[i].hidden == !cfg.debug
    requires |s| == (if cfg.debug then (|views| + 1) / 2 else 0)
    requires forall j :: 0 <= j < |s| ==> 2 * j < |views| && s[j].item == views[2 * j]
    ensures |s| == (if cfg.debug && n > 0 then n + 1 else 0)
    ensures forall j :: 0 <= j < |s| ==> s[j].item == Spacer(j, false)
  {
  }

  /** Chain priorities of the built slots: the chain from the leading spacer
      is required, and every other one, including the chain into the
      trailing spacer, is one below required. */
  lemma ChainPrioritiesForUsers(cfg: Config, users: seq<nat>)
    requires users != []
    ensures var s := WithRole(Plan(cfg, Layout(users, !cfg.debug)), cfg.horizontal, ChainRole);
      && |s| == 2 * |users|
      && s[0].priority == Required
      && s[|s| - 1].priority == AlmostRequired
      && s[|s| - 1].toItem == ToView(Spacer(|users|, !cfg.debug))
  {
    var views := Layout(users, !cfg.debug);
    LayoutShape(users, !cfg.debug);
    ChainRule(cfg, views);
    assert (2 * |users|) % 2 == 0 && (2 * |users|) / 2 == |users|;
  }

  /** One user view, horizontal, margin 10, view size 30, no debug mode: the
      whole plan, record by record. Only the chain from the leading spacer
      keeps the required priority; the chain into the trailing spacer is
      lowered too. */
  lemma OneViewPlan(u: nat)
    ensures Plan(Config(true, 10, 30, false), Layout([u], true)) == [
      Constraint(Spacer(0, true), Width, GreaterThanOrEqual, NoItem, NotAnAttribute, 1, 0, 1000),
      Constraint(Spacer(0, true), Right, Equal, ToView(User(u)), Left, 1, 0, 1000),
      Constraint(User(u), Width, Equal, NoItem, NotAnAttribute, 1, 30, 1000),
      Constraint(User(u), Right, Equal, ToView(Spacer(1, true)), Left, 1, 0, 999),
      Constraint(Spacer(1, true), Width, Equal, ToView(Spacer(0, true)), Width, 1, 0, 1000),
      Constraint(Spacer(0, true), Left, Equal, Container, Left, 1, 10, 1000),
      Constraint(Spacer(1, true), Right, Equal, Container, Right, 1, -10, 1000)]
  {
    var cfg, views := Config(true, 10, 30, false), Layout([u], true);
    LayoutShape([u], true);
    assert views == [Spacer(0, true), User(u), Spacer(1, true)];
    assert LoopPlan(cfg, views, 1) == SlotConstraints(cfg, views, 0);
    assert LoopPlan(cfg, views, 2) == LoopPlan(cfg, views, 1) + SlotConstraints(cfg, views, 1);
    assert LoopPlan(cfg, views, 3) == LoopPlan(cfg, views, 2) + SlotConstraints(cfg, views, 2);
  }

  class DistributeViewsEvenly {
    /** The slot sequence: spacer, user view, spacer, ..., spacer. */
    var views: seq<View>
    /** The user views added so far, in call order. */
    ghost var users: seq<nat>

    const parent: Parent
    const margin: int
    const viewSize: int
    const horizontal: bool
    const debug: bool

    /** The slot sequence is the reference layout of the user views added so
        far, with spacers hidden exactly when debug mode is off. */
    ghost predicate Valid()
      reads this
    {
      views == Layout(users, !debug)
    }

    function Settings(): Config
    {
      Config(horizontal, margin, viewSize, debug)
    }

    constructor (parent: Parent, viewSize: int, horizontal: bool := true, margin: int := 0, debug: bool := false)
      ensures Valid()
      ensures views == [] && users == []
      ensures this.parent == parent && this.viewSize == viewSize && this.horizontal == horizontal
      ensures this.margin == margin && this.debug == debug
    {
      this.parent := parent;
      this.margin := margin;
      this.viewSize := viewSize;
      this.horizontal := horizontal;
      this.debug := debug;
      views := [];
      users := [];
    }

    /** Appends user view `view`: the first one is preceded by a leading
        spacer, and every one is followed by a trailing spacer. Each new
        spacer is also added to the container as a subview. */
    method AddView(view: nat)
      requires Valid()
      modifies this, parent
      ensures Valid()
      ensures users == old(users) + [view]
      ensures views == old(views)
                       + (if old(views) == [] then [Spacer(0, !debug)] else [])
                       + [User(view), Spacer(|old(users)| + 1, !debug)]
      ensures parent.subviews == old(parent.subviews)
                                 + (if old(views) == [] then [Spacer(0, !debug)] else [])
                                 + [Spacer(|old(users)| + 1, !debug)]
      ensures parent.constraints == old(parent.constraints)
    {
      LayoutShape(users, !debug);
      if views == [] {
        AddSpacer();
      }
      views := views + [User(view)];
      AddSpacer();
      LayoutGrow(users, view, !debug);
      users := users + [view];
    }

    /** Creates a new spacer, hidden unless in debug mode, adds it to the
        container as a subview and appends it to the slot sequence. The
        spacer is numbered by the position it takes among the spacers. */
    method AddSpacer()
      modifies this`views, parent
      ensures views == old(views) + [Spacer(|old(views)| / 2, !debug)]
      ensures parent.subviews == old(parent.subviews) + [Spacer(|old(views)| / 2, !debug)]
      ensures parent.constraints == old(parent.constraints)
    {
      var spacerView := Spacer(|views| / 2, !debug);
      parent.AddSubview(spacerView);
      views := views + [spacerView];
    }

    /** Registers the constraint plan for the current slot sequence with the
        container, in plan order; nothing else changes. */
    method SetConstraints()
      modifies parent
      ensures parent.constraints == old(parent.constraints) + Plan(Settings(), views)
      ensures views == [] ==> parent.constraints == old(parent.constraints)
      ensures parent.subviews == old(parent.subviews)
    {
      var leadAttr := LeadAttr(horizontal);
      var trailAttr := TrailAttr(horizontal);

      var index := 0;
      while index < |views|
        invariant index <= |views|
        invariant parent.constraints == old(parent.constraints) + LoopPlan(Settings(), views, index)
        invariant parent.subviews == old(parent.subviews)
      {
        ConstrainSlot(index);
        LoopAppended(old(parent.constraints), Settings(), views, index);
        index := index + 1;
      }
      if |views| > 0 {
        var firstSpacer := views[0];
        parent.AddConstraint(Constraint(firstSpacer, leadAttr, Equal, Container, leadAttr, 1, margin, Required));
      }
      if |views| > 0 {
        var lastSpacer := views[|views| - 1];
        parent.AddConstraint(Constraint(lastSpacer, trailAttr, Equal, Container, trailAttr, 1, -margin, Required));
      }
    }

    /** One iteration of the loop of SetConstraints: the size record of slot
        `index`, its debug records if it is a spacer and debug mode is on, and
        the chain record to the next slot if there is one. */
    method ConstrainSlot(index: nat)
      requires index < |views|
      modifies parent
      ensures parent.constraints == old(parent.constraints) + SlotConstraints(Settings(), views, index)
      ensures parent.subviews == old(parent.subviews)
    {
      var sizeAttr := SizeAttr(horizontal);
      var leadAttr := LeadAttr(horizontal);
      var trailAttr := TrailAttr(horizontal);
      var view := views[index];
      if index % 2 == 0 {
        // a spacer
        if index == 0 {
          parent.AddConstraint(Constraint(view, sizeAttr, GreaterThanOrEqual, NoItem, NotAnAttribute, 1, 0, Required));
        } else {
          parent.AddConstraint(Constraint(view, sizeAttr, Equal, ToView(views[0]), sizeAttr, 1, 0, Required));
        }
        if debug {
          parent.AddConstraint(Constraint(view, CrossSizeAttr(horizontal), Equal, NoItem, NotAnAttribute,
                                          1, DebugCrossSize, Required));
          parent.AddConstraint(Constraint(view, CrossPosAttr(horizontal), Equal, Container, CrossPosAttr(horizontal),
                                          1, DebugOffset(index), Required));
        }
      } else {
        // a user view
        parent.AddConstraint(Constraint(view, sizeAttr, Equal, NoItem, NotAnAttribute, 1, viewSize, Required));
      }
      ghost var sized := old(parent.constraints) + [SizeConstraint(Settings(), views, index)]
                                                 + DebugConstraints(Settings(), views, index);
      assert parent.constraints == sized;
      if index + 1 < |views| {
        var constraint := Constraint(view, trailAttr, Equal, ToView(views[index + 1]), leadAttr, 1, 0, Required);
        if index > 0 && index + 1 < |views| {
          constraint := constraint.(priority := AlmostRequired);
        }
        parent.AddConstraint(constraint);
      }
      assert parent.constraints == sized + ChainConstraints(Settings(), views, index);
      SlotAppended(old(parent.constraints), Settings(), views, index);
    }
  }
}
