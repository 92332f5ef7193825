/** The constraint plan: the exact sequence of constraint records that
    `setConstraints` registers with the container for a given slot
    sequence and configuration, and what that sequence contains. */
module ConstraintPlan {
  import opened UIKitModel

  /** The distributor's configuration: axis, margin to the container, the
      common size of the user views, and the debug switch. */
  datatype Config = Config(horizontal: bool, margin: int, viewSize: int, debug: bool)

  /** Debug mode: fixed cross-axis size of a spacer. */
  const DebugCrossSize: int := 50
  /** Debug mode: the cross-axis offset from the container of the spacer in
      slot i, so that spacers of different slots do not overlap. */
  function DebugOffset(i: nat): int
  {
    50 + 20 * i
  }

  // Axis selection.

  function SizeAttr(horizontal: bool): Attribute
  {
    if horizontal then Width else Height
  }

  function LeadAttr(horizontal: bool): Attribute
  {
    if horizontal then Left else Top
  }

  function TrailAttr(horizontal: bool): Attribute
  {
    if horizontal then Right else Bottom
  }

  /** Debug mode only: the size attribute across the distribution axis. */
  function CrossSizeAttr(horizontal: bool): Attribute
  {
    if horizontal then Height else Width
  }

  /** Debug mode only: the position attribute across the distribution axis. */
  function CrossPosAttr(horizontal: bool): Attribute
  {
    if horizontal then Top else Left
  }

  /** The cross-axis attributes are the other axis' size and leading
      attributes, and the five attributes of one axis are pairwise
      distinct real attributes. */
  lemma AxisAttributes(h: bool)
    ensures CrossSizeAttr(h) == SizeAttr(!h) && CrossPosAttr(h) == LeadAttr(!h)
    ensures SizeAttr(true) == Width && LeadAttr(true) == Left && TrailAttr(true) == Right
    ensures SizeAttr(false) == Height && LeadAttr(false) == Top && TrailAttr(false) == Bottom
    ensures var attrs := [SizeAttr(h), LeadAttr(h), TrailAttr(h), CrossSizeAttr(h), CrossPosAttr(h)];
      && NotAnAttribute !in attrs
      && forall i, j :: 0 <= i < j < |attrs| ==> attrs[i] != attrs[j]
  {
  }

  // The records emitted for one slot, in the order the loop emits them.

  /** Size along the axis of slot i: the first spacer is at least 0, every
      later spacer equals the first slot, every user view equals viewSize. */
  function SizeConstraint(cfg: Config, views: seq<View>, i: nat): Constraint
    requires i < |views|
  {
    var size := SizeAttr(cfg.horizontal);
    if i % 2 == 0 then
      if i == 0 then
        Constraint(views[i], size, GreaterThanOrEqual, NoItem, NotAnAttribute, 1, 0, Required)
      else
        Constraint(views[i], size, Equal, ToView(views[0]), size, 1, 0, Required)
    else
      Constraint(views[i], size, Equal, NoItem, NotAnAttribute, 1, cfg.viewSize, Required)
  }

  function DebugSizeConstraint(cfg: Config, views: seq<View>, i: nat): Constraint
    requires i < |views|
  {
    Constraint(views[i], CrossSizeAttr(cfg.horizontal), Equal, NoItem, NotAnAttribute,
               1, DebugCrossSize, Required)
  }

  function DebugPosConstraint(cfg: Config, views: seq<View>, i: nat): Constraint
    requires i < |views|
  {
    Constraint(views[i], CrossPosAttr(cfg.horizontal), Equal, Container, CrossPosAttr(cfg.horizontal),
               1, DebugOffset(i), Required)
  }

  /** The debug constraints of slot i: two for a spacer slot in debug mode. */
  function DebugConstraints(cfg: Config, views: seq<View>, i: nat): seq<Constraint>
    requires i < |views|
  {
    if cfg.debug && i % 2 == 0 then [DebugSizeConstraint(cfg, views, i), DebugPosConstraint(cfg, views, i)]
    else []
  }

  /** The chain from slot i to slot i+1; its priority is lowered whenever
      i > 0 (the second half of the guard always holds at this point). */
  function ChainConstraint(cfg: Config, views: seq<View>, i: nat): Constraint
    requires i + 1 < |views|
  {
    Constraint(views[i], TrailAttr(cfg.horizontal), Equal, ToView(views[i + 1]), LeadAttr(cfg.horizontal),
               1, 0, if i > 0 && i + 1 < |views| then AlmostRequired else Required)
  }

  function ChainConstraints(cfg: Config, views: seq<View>, i: nat): seq<Constraint>
    requires i < |views|
  {
    if i + 1 < |views| then [ChainConstraint(cfg, views, i)] else []
  }

  /** Everything one iteration of the loop emits for slot i. */
  function SlotConstraints(cfg: Config, views: seq<View>, i: nat): seq<Constraint>
    requires i < |views|
  {
    [SizeConstraint(cfg, views, i)] + DebugConstraints(cfg, views, i) + ChainConstraints(cfg, views, i)
  }

  /** What the loop has emitted after its first k iterations. */
  function LoopPlan(cfg: Config, views: seq<View>, k: nat): seq<Constraint>
    requires k <= |views|
  {
    if k == 0 then [] else LoopPlan(cfg, views, k - 1) + SlotConstraints(cfg, views, k - 1)
  }

  /** The two container anchors, present when there is a first (and so a
      last) slot. */
  function AnchorConstraints(cfg: Config, views: seq<View>): seq<Constraint>
  {
    var lead := LeadAttr(cfg.horizontal);
    var trail := TrailAttr(cfg.horizontal);
    (if |views| > 0 then [Constraint(views[0], lead, Equal, Container, lead, 1, cfg.margin, Required)] else [])
    + (if |views| > 0 then [Constraint(views[|views| - 1], trail, Equal, Container, trail, 1, -cfg.margin, Required)] else [])
  }

  /** Appending the records of slot i piece by piece appends SlotConstraints. */
  lemma SlotAppended(before: seq<Constraint>, cfg: Config, views: seq<View>, i: nat)
    requires i < |views|
    ensures before + [SizeConstraint(cfg, views, i)] + DebugConstraints(cfg, views, i) + ChainConstraints(cfg, views, i)
         == before + SlotConstraints(cfg, views, i)
  {
  }

  /** Appending the records of iteration i after the first i iterations'
      gives the first i + 1 iterations'. */
  lemma LoopAppended(before: seq<Constraint>, cfg: Config, views: seq<View>, i: nat)
    requires i < |views|
    ensures before + LoopPlan(cfg, views, i) + SlotConstraints(cfg, views, i)
         == before + LoopPlan(cfg, views, i + 1)
  {
  }

  /** The whole plan, in emission order. */
  function Plan(cfg: Config, views: seq<View>): seq<Constraint>
  {
    LoopPlan(cfg, views, |views|) + AnchorConstraints(cfg, views)
  }

  // Telling the emitted records apart.

  /** What a record is for, read off its attributes and second item. */
  datatype Role = SizeRole | DebugSizeRole | DebugPosRole | LeadAnchorRole | TrailAnchorRole | ChainRole | OtherRole

  function RoleOf(h: bool, c: Constraint): Role
  {
    if c.attribute == SizeAttr(h) then SizeRole
    else if c.attribute == CrossSizeAttr(h) then DebugSizeRole
    else if c.attribute == CrossPosAttr(h) then DebugPosRole
    else if c.attribute == LeadAttr(h) then LeadAnchorRole
    else if c.attribute == TrailAttr(h) && c.toItem.Container? then TrailAnchorRole
    else if c.attribute == TrailAttr(h) then ChainRole
    else OtherRole
  }

  predicate HasRole(h: bool, c: Constraint, r: Role)
  {
    RoleOf(h, c) == r
  }

  /** The records of `s` that have role `r`, in their order in `s`. */
  function WithRole(s: seq<Constraint>, h: bool, r: Role): seq<Constraint>
  {
    RolesFrom(s, 0, h, r)
  }

  /** The records of `s` from position i on that have role `r`. */
  function RolesFrom(s: seq<Constraint>, i: nat, h: bool, r: Role): seq<Constraint>
    requires i <= |s|
    decreases |s| - i
  {
    if i == |s| then [] else (if HasRole(h, s[i], r) then [s[i]] else []) + RolesFrom(s, i + 1, h, r)
  }

  /** Past the end of `a`, filtering `a + b` is filtering `b`. */
  lemma {:induction false} RolesFromRight(a: seq<Constraint>, b: seq<Constraint>, j: nat, h: bool, r: Role)
    requires j <= |b|
    ensures RolesFrom(a + b, |a| + j, h, r) == RolesFrom(b, j, h, r)
    decreases |b| - j
  {
    if j < |b| {
      RolesFromRight(a, b, j + 1, h, r);
      assert (a + b)[|a| + j] == b[j];
    }
  }

  lemma {:induction false} RolesFromLeft(a: seq<Constraint>, b: seq<Constraint>, i: nat, h: bool, r: Role)
    requires i <= |a|
    ensures RolesFrom(a + b, i, h, r) == RolesFrom(a, i, h, r) + RolesFrom(b, 0, h, r)
    decreases |a| - i
  {
    if i == |a| {
      RolesFromRight(a, b, 0, h, r);
    } else {
      RolesFromLeft(a, b, i + 1, h, r);
      LeftStep(a, b, i, h, r);
    }
  }

  /** One record of `a` in front of the rest of `a + b`. */
  lemma LeftStep(a: seq<Constraint>, b: seq<Constraint>, i: nat, h: bool, r: Role)
    requires i < |a|
    requires RolesFrom(a + b, i + 1, h, r) == RolesFrom(a, i + 1, h, r) + RolesFrom(b, 0, h, r)
    ensures RolesFrom(a + b, i, h, r) == RolesFrom(a, i, h, r) + RolesFrom(b, 0, h, r)
  {
    // Dafny also finds this step unaided, but at several times the cost.
    assert (a + b)[i] == a[i];
  }

  lemma WithRoleAppend(a: seq<Constraint>, b: seq<Constraint>, h: bool, r: Role)
    ensures WithRole(a + b, h, r) == WithRole(a, h, r) + WithRole(b, h, r)
  {
    RolesFromLeft(a, b, 0, h, r);
  }

  lemma WithRoleSingle(c: Constraint, h: bool, r: Role)
    ensures WithRole([c], h, r) == if HasRole(h, c, r) then [c] else []
  {
    assert RolesFrom([c], 1, h, r) == [];
  }

  /** Each record built for one slot has the role its attribute gives it. */
  lemma RecordRoles(cfg: Config, views: seq<View>, i: nat)
    requires i < |views|
    ensures RoleOf(cfg.horizontal, SizeConstraint(cfg, views, i)) == SizeRole
    ensures RoleOf(cfg.horizontal, DebugSizeConstraint(cfg, views, i)) == DebugSizeRole
    ensures RoleOf(cfg.horizontal, DebugPosConstraint(cfg, views, i)) == DebugPosRole
    ensures i + 1 < |views| ==> RoleOf(cfg.horizontal, ChainConstraint(cfg, views, i)) == ChainRole
  {
  }

  /** The records of one slot with role r: its size record, if r is the size
      role, then its debug records and its chain record with role r. */
  lemma SlotRoles(cfg: Config, views: seq<View>, i: nat, r: Role)
    requires i < |views|
    ensures WithRole(SlotConstraints(cfg, views, i), cfg.horizontal, r)
         == (if r == SizeRole then [SizeConstraint(cfg, views, i)] else [])
            + WithRole(DebugConstraints(cfg, views, i), cfg.horizontal, r)
            + WithRole(ChainConstraints(cfg, views, i), cfg.horizontal, r)
  {
    var h := cfg.horizontal;
    var size := [SizeConstraint(cfg, views, i)];
    WithRoleAppend(size + DebugConstraints(cfg, views, i), ChainConstraints(cfg, views, i), h, r);
    WithRoleAppend(size, DebugConstraints(cfg, views, i), h, r);
    WithRoleSingle(SizeConstraint(cfg, views, i), h, r);
    RecordRoles(cfg, views, i);
  }

  lemma DebugRoles(cfg: Config, views: seq<View>, i: nat, r: Role)
    requires i < |views|
    ensures WithRole(DebugConstraints(cfg, views, i), cfg.horizontal, r)
         == if cfg.debug && i % 2 == 0 then
              (if r == DebugSizeRole then [DebugSizeConstraint(cfg, views, i)] else [])
              + (if r == DebugPosRole then [DebugPosConstraint(cfg, views, i)] else [])
            else []
  {
    if cfg.debug && i % 2 == 0 {
      var h := cfg.horizontal;
      var ds := DebugSizeConstraint(cfg, views, i);
      var dp := DebugPosConstraint(cfg, views, i);
      assert DebugConstraints(cfg, views, i) == [ds] + [dp];
      WithRoleAppend([ds], [dp], h, r);
      WithRoleSingle(ds, h, r);
      WithRoleSingle(dp, h, r);
      RecordRoles(cfg, views, i);
    }
  }

  lemma ChainRoles(cfg: Config, views: seq<View>, i: nat, r: Role)
    requires i < |views|
    ensures WithRole(ChainConstraints(cfg, views, i), cfg.horizontal, r)
         == if i + 1 < |views| && r == ChainRole then [ChainConstraint(cfg, views, i)] else []
  {
    if i + 1 < |views| {
      WithRoleSingle(ChainConstraint(cfg, views, i), cfg.horizontal, r);
      RecordRoles(cfg, views, i);
    }
  }

  /** Filtering a concatenation whose second part filters to `tail`. */
  lemma Regroup(before: seq<Constraint>, slot: seq<Constraint>, h: bool, r: Role, tail: seq<Constraint>)
    requires WithRole(slot, h, r) == tail
    ensures WithRole(before + slot, h, r) == WithRole(before, h, r) + tail
  {
    WithRoleAppend(before, slot, h, r);
  }

  /** The records with role r that iteration i emits. */
  function Share(cfg: Config, views: seq<View>, i: nat, r: Role): seq<Constraint>
    requires i < |views|
  {
    match r
    case SizeRole => [SizeConstraint(cfg, views, i)]
    case DebugSizeRole => if cfg.debug && i % 2 == 0 then [DebugSizeConstraint(cfg, views, i)] else []
    case DebugPosRole => if cfg.debug && i % 2 == 0 then [DebugPosConstraint(cfg, views, i)] else []
    case ChainRole => ChainConstraints(cfg, views, i)
    case _ => []
  }

  /** The size part, debug part and chain part of slot i with role r
      together are its share. */
  lemma ShareParts(cfg: Config, views: seq<View>, i: nat, r: Role, debug: seq<Constraint>, chain: seq<Constraint>)
    requires i < |views|
    requires debug == if cfg.debug && i % 2 == 0 then
                        (if r == DebugSizeRole then [DebugSizeConstraint(cfg, views, i)] else [])
                        + (if r == DebugPosRole then [DebugPosConstraint(cfg, views, i)] else [])
                      else []
    requires chain == if i + 1 < |views| && r == ChainRole then [ChainConstraint(cfg, views, i)] else []
    ensures (if r == SizeRole then [SizeConstraint(cfg, views, i)] else []) + debug + chain == Share(cfg, views, i, r)
  {
  }

  lemma SlotShare(cfg: Config, views: seq<View>, i: nat, r: Role)
    requires i < |views|
    ensures WithRole(SlotConstraints(cfg, views, i), cfg.horizontal, r) == Share(cfg, views, i, r)
  {
    SlotRoles(cfg, views, i, r);
    DebugRoles(cfg, views, i, r);
    ChainRoles(cfg, views, i, r);
    ShareParts(cfg, views, i, r, WithRole(DebugConstraints(cfg, views, i), cfg.horizontal, r),
               WithRole(ChainConstraints(cfg, views, i), cfg.horizontal, r));
  }

  lemma LoopGrowth(cfg: Config, views: seq<View>, k: nat, r: Role)
    requires 0 < k <= |views|
    ensures WithRole(LoopPlan(cfg, views, k), cfg.horizontal, r)
         == WithRole(LoopPlan(cfg, views, k - 1), cfg.horizontal, r) + Share(cfg, views, k - 1, r)
  {
    SlotShare(cfg, views, k - 1, r);
    Regroup(LoopPlan(cfg, views, k - 1), SlotConstraints(cfg, views, k - 1), cfg.horizontal, r,
            Share(cfg, views, k - 1, r));
  }

  /** The records with role r of the first k iterations, iteration by
      iteration. */
  function Shares(cfg: Config, views: seq<View>, k: nat, r: Role): seq<Constraint>
    requires k <= |views|
  {
    if k == 0 then [] else Shares(cfg, views, k - 1, r) + Share(cfg, views, k - 1, r)
  }

  lemma {:induction false} LoopShares(cfg: Config, views: seq<View>, k: nat, r: Role)
    requires k <= |views|
    ensures WithRole(LoopPlan(cfg, views, k), cfg.horizontal, r) == Shares(cfg, views, k, r)
  {
    if k > 0 {
      LoopShares(cfg, views, k - 1, r);
      LoopGrowth(cfg, views, k, r);
    }
  }

  /** Number of chain records among the first k iterations. */
  function ChainsIn(k: nat, n: nat): nat
  {
    if k == n && k > 0 then k - 1 else k
  }

  /** Number of spacer slots (even indices) among the first k slots. */
  function EvensIn(k: nat): nat
  {
    (k + 1) / 2
  }

  /** One more slot adds one spacer slot exactly when its index is even. */
  lemma EvensStep(k: nat)
    requires k > 0
    ensures (k - 1) % 2 == 0 ==> EvensIn(k) == EvensIn(k - 1) + 1 && 2 * EvensIn(k - 1) == k - 1
    ensures (k - 1) % 2 != 0 ==> EvensIn(k) == EvensIn(k - 1)
  {
  }

  lemma {:induction false} SizeShares(cfg: Config, views: seq<View>, k: nat)
    requires k <= |views|
    ensures var s := Shares(cfg, views, k, SizeRole);
      |s| == k && forall i :: 0 <= i < k ==> s[i] == SizeConstraint(cfg, views, i)
  {
    if k > 0 {
      SizeShares(cfg, views, k - 1);
    }
  }

  lemma {:induction false} ChainShares(cfg: Config, views: seq<View>, k: nat)
    requires k <= |views|
    ensures var s := Shares(cfg, views, k, ChainRole);
      |s| == ChainsIn(k, |views|)
      && forall i :: 0 <= i < |s| ==> i + 1 < |views| && s[i] == ChainConstraint(cfg, views, i)
  {
    if k > 0 {
      ChainShares(cfg, views, k - 1);
    }
  }

  /** The debug record of role r (a debug role) for slot i. */
  function DebugRecord(cfg: Config, views: seq<View>, i: nat, r: Role): Constraint
    requires i < |views|
  {
    if r == DebugSizeRole then DebugSizeConstraint(cfg, views, i) else DebugPosConstraint(cfg, views, i)
  }

  /** `n` is the number of spacer slots among the first k slots in debug
      mode, and 0 otherwise; stated without division. */
  predicate DebugCount(debug: bool, k: nat, n: nat)
  {
    if debug then k <= 2 * n <= k + 1 else n == 0
  }

  /** A debug record is emitted by slot k - 1 exactly when it is even. */
  lemma DebugStep(cfg: Config, views: seq<View>, k: nat, r: Role, prev: seq<Constraint>, last: seq<Constraint>)
    requires 0 < k <= |views|
    requires DebugCount(cfg.debug, k - 1, |prev|)
    requires forall j :: 0 <= j < |prev| ==> 2 * j < k - 1 && prev[j] == DebugRecord(cfg, views, 2 * j, r)
    requires last == if cfg.debug && (k - 1) % 2 == 0 then [DebugRecord(cfg, views, k - 1, r)] else []
    ensures DebugCount(cfg.debug, k, |prev + last|)
    ensures forall j :: 0 <= j < |prev + last| ==> 2 * j < k && (prev + last)[j] == DebugRecord(cfg, views, 2 * j, r)
  {
  }

  lemma {:induction false} DebugShares(cfg: Config, views: seq<View>, k: nat, r: Role)
    requires k <= |views|
    requires r == DebugSizeRole || r == DebugPosRole
    ensures var s := Shares(cfg, views, k, r);
      && DebugCount(cfg.debug, k, |s|)
      && forall j :: 0 <= j < |s| ==> 2 * j < k && s[j] == DebugRecord(cfg, views, 2 * j, r)
  {
    if k > 0 {
      DebugShares(cfg, views, k - 1, r);
      DebugStep(cfg, views, k, r, Shares(cfg, views, k - 1, r), Share(cfg, views, k - 1, r));
    }
  }

  /** The loop emits no anchor and nothing without a role. */
  lemma {:induction false} NoShares(cfg: Config, views: seq<View>, k: nat, r: Role)
    requires k <= |views|
    requires r == LeadAnchorRole || r == TrailAnchorRole || r == OtherRole
    ensures Shares(cfg, views, k, r) == []
  {
    if k > 0 {
      NoShares(cfg, views, k - 1, r);
    }
  }

  /** Iteration k - 1 emits one size record, two debug records for an even
      slot in debug mode, and a chain unless it is the last slot. */
  lemma LengthStep(cfg: Config, views: seq<View>, k: nat, before: nat)
    requires 0 < k <= |views|
    requires before == (k - 1) + ChainsIn(k - 1, |views|) + (if cfg.debug then 2 * EvensIn(k - 1) else 0)
    ensures before + |SlotConstraints(cfg, views, k - 1)|
         == k + ChainsIn(k, |views|) + (if cfg.debug then 2 * EvensIn(k) else 0)
  {
    EvensStep(k);
  }

  lemma {:induction false} LoopLength(cfg: Config, views: seq<View>, k: nat)
    requires k <= |views|
    ensures |LoopPlan(cfg, views, k)| == k + ChainsIn(k, |views|) + (if cfg.debug then 2 * EvensIn(k) else 0)
  {
    if k > 0 {
      LoopLength(cfg, views, k - 1);
      LengthStep(cfg, views, k, |LoopPlan(cfg, views, k - 1)|);
    }
  }

  /** The anchor records with role r: the leading anchor has the leading
      role, the trailing anchor the trailing role. */
  lemma AnchorRoles(cfg: Config, views: seq<View>, r: Role)
    ensures WithRole(AnchorConstraints(cfg, views), cfg.horizontal, r)
         == if views == [] then []
            else if r == LeadAnchorRole then [AnchorConstraints(cfg, views)[0]]
            else if r == TrailAnchorRole then [AnchorConstraints(cfg, views)[1]]
            else []
  {
    if views != [] {
      var a := AnchorConstraints(cfg, views);
      assert a == [a[0]] + [a[1]];
      WithRoleAppend([a[0]], [a[1]], cfg.horizontal, r);
      WithRoleSingle(a[0], cfg.horizontal, r);
      WithRoleSingle(a[1], cfg.horizontal, r);
    }
  }

  /** The records of the plan with role r: those of the loop, then those of
      the anchors. */
  lemma PlanRoles(cfg: Config, views: seq<View>, r: Role)
    ensures WithRole(Plan(cfg, views), cfg.horizontal, r)
         == WithRole(LoopPlan(cfg, views, |views|), cfg.horizontal, r)
            + WithRole(AnchorConstraints(cfg, views), cfg.horizontal, r)
  {
    WithRoleAppend(LoopPlan(cfg, views, |views|), AnchorConstraints(cfg, views), cfg.horizontal, r);
  }

  /** For a role that no anchor has, the plan's records are the loop's. */
  lemma LoopRolesOfPlan(cfg: Config, views: seq<View>, r: Role)
    requires r != LeadAnchorRole && r != TrailAnchorRole
    ensures WithRole(Plan(cfg, views), cfg.horizontal, r) == WithRole(LoopPlan(cfg, views, |views|), cfg.horizontal, r)
  {
    PlanRoles(cfg, views, r);
    AnchorRoles(cfg, views, r);
  }

  /** For an anchor role, the plan's records are the anchors'. */
  lemma AnchorRolesOfPlan(cfg: Config, views: seq<View>, r: Role)
    requires r == LeadAnchorRole || r == TrailAnchorRole
    ensures WithRole(Plan(cfg, views), cfg.horizontal, r) == WithRole(AnchorConstraints(cfg, views), cfg.horizontal, r)
  {
    PlanRoles(cfg, views, r);
    LoopShares(cfg, views, |views|, r);
    NoShares(cfg, views, |views|, r);
  }

  // What the plan contains.

  /** No slots: nothing is emitted. */
  lemma PlanEmpty(cfg: Config)
    ensures Plan(cfg, []) == []
  {
  }

  /** The plan's size records are the loop's, one per slot, in slot order. */
  lemma SizeRecords(cfg: Config, views: seq<View>)
    ensures var s := WithRole(Plan(cfg, views), cfg.horizontal, SizeRole);
      |s| == |views| && forall i :: 0 <= i < |s| ==> s[i] == SizeConstraint(cfg, views, i)
  {
    LoopRolesOfPlan(cfg, views, SizeRole);
    LoopShares(cfg, views, |views|, SizeRole);
    SizeShares(cfg, views, |views|);
  }

  /** Size rule: one size record per slot, in slot order. Slot 0 gets
      `size >= 0` with no second item; every later even slot gets
      `size == size of slot 0`; every odd slot gets `size == viewSize` with
      no second item, so all user views carry the same constant. */
  lemma SizeRule(cfg: Config, views: seq<View>)
    ensures var s := WithRole(Plan(cfg, views), cfg.horizontal, SizeRole);
      && |s| == |views|
      && (forall i :: 0 <= i < |s| ==>
            s[i].item == views[i] && s[i].attribute == SizeAttr(cfg.horizontal)
            && s[i].multiplier == 1 && s[i].priority == Required)
      && (|s| > 0 ==>
            s[0].relation == GreaterThanOrEqual && s[0].toItem == NoItem
            && s[0].toAttribute == NotAnAttribute && s[0].constant == 0)
      && (forall i :: 0 < i < |s| && i % 2 == 0 ==>
            s[i].relation == Equal && s[i].toItem == ToView(views[0])
            && s[i].toAttribute == SizeAttr(cfg.horizontal) && s[i].constant == 0)
      && (forall i :: 0 <= i < |s| && i % 2 == 1 ==>
            s[i].relation == Equal && s[i].toItem == NoItem
            && s[i].toAttribute == NotAnAttribute && s[i].constant == cfg.viewSize)
  {
    SizeRecords(cfg, views);
  }

  /** Chain rule: |views| - 1 chain records, one per adjacent pair (i, i+1)
      in order, each `trail(views[i]) == lead(views[i+1])` with constant 0;
      only the chain from slot 0 keeps the required priority, every later
      one (the last pair included) is lowered by one. */
  lemma ChainRule(cfg: Config, views: seq<View>)
    ensures var s := WithRole(Plan(cfg, views), cfg.horizontal, ChainRole);
      && |s| == (if views == [] then 0 else |views| - 1)
      && forall i :: 0 <= i < |s| ==>
           && s[i].item == views[i] && s[i].attribute == TrailAttr(cfg.horizontal)
           && s[i].relation == Equal
           && s[i].toItem == ToView(views[i + 1]) && s[i].toAttribute == LeadAttr(cfg.horizontal)
           && s[i].multiplier == 1 && s[i].constant == 0
           && s[i].priority == (if i == 0 then Required else AlmostRequired)
  {
    var s := WithRole(Plan(cfg, views), cfg.horizontal, ChainRole);
    LoopRolesOfPlan(cfg, views, ChainRole);
    LoopShares(cfg, views, |views|, ChainRole);
    ChainShares(cfg, views, |views|);
    forall i | 0 <= i < |s|
      ensures i + 1 < |views| && s[i] == ChainConstraint(cfg, views, i)
    {
    }
  }

  /** Container anchors: exactly one leading and one trailing anchor when
      there are slots, none otherwise; the first slot's leading edge sits at
      the container's leading edge + margin and the last slot's trailing
      edge at the container's trailing edge - margin. They are the last two
      records emitted. */
  lemma AnchorRule(cfg: Config, views: seq<View>)
    ensures var h := cfg.horizontal;
      && WithRole(Plan(cfg, views), h, LeadAnchorRole)
         == (if views == [] then []
             else [Constraint(views[0], LeadAttr(h), Equal, Container, LeadAttr(h), 1, cfg.margin, Required)])
      && WithRole(Plan(cfg, views), h, TrailAnchorRole)
         == (if views == [] then []
             else [Constraint(views[|views| - 1], TrailAttr(h), Equal, Container, TrailAttr(h), 1, -cfg.margin, Required)])
  {
    AnchorRolesOfPlan(cfg, views, LeadAnchorRole);
    AnchorRolesOfPlan(cfg, views, TrailAnchorRole);
    AnchorRoles(cfg, views, LeadAnchorRole);
    AnchorRoles(cfg, views, TrailAnchorRole);
  }

  /** The two anchors are the last two records emitted. */
  lemma AnchorsLast(cfg: Config, views: seq<View>)
    requires views != []
    ensures var p := Plan(cfg, views);
      var a := AnchorConstraints(cfg, views);
      && |p| >= 2 && p[|p| - 2] == a[0] && p[|p| - 1] == a[1]
      && p[|p| - 2].item == views[0] && p[|p| - 2].attribute == LeadAttr(cfg.horizontal)
      && p[|p| - 1].item == views[|views| - 1] && p[|p| - 1].attribute == TrailAttr(cfg.horizontal)
  {
  }

  /** Debug rule: in debug mode every even slot i gets, in slot order, a
      cross-axis size of 50 and a cross-axis position 50 + 20*i from the
      container's; without debug mode there are none. */
  lemma DebugRule(cfg: Config, views: seq<View>)
    ensures var h := cfg.horizontal;
      var ds := WithRole(Plan(cfg, views), h, DebugSizeRole);
      var dp := WithRole(Plan(cfg, views), h, DebugPosRole);
      && |ds| == |dp| == (if cfg.debug then (|views| + 1) / 2 else 0)
      && (forall j :: 0 <= j < |ds| ==>
            2 * j < |views| && ds[j].item == views[2 * j]
            && ds[j].attribute == CrossSizeAttr(h) && ds[j].relation == Equal
            && ds[j].toItem == NoItem && ds[j].toAttribute == NotAnAttribute
            && ds[j].multiplier == 1 && ds[j].constant == DebugCrossSize && ds[j].priority == Required)
      && (forall j :: 0 <= j < |dp| ==>
            2 * j < |views| && dp[j].item == views[2 * j]
            && dp[j].attribute == CrossPosAttr(h) && dp[j].relation == Equal
            && dp[j].toItem == Container && dp[j].toAttribute == CrossPosAttr(h)
            && dp[j].multiplier == 1 && dp[j].constant == 50 + 40 * j && dp[j].priority == Required)
  {
    LoopRolesOfPlan(cfg, views, DebugSizeRole);
    LoopRolesOfPlan(cfg, views, DebugPosRole);
    LoopShares(cfg, views, |views|, DebugSizeRole);
    LoopShares(cfg, views, |views|, DebugPosRole);
    DebugShares(cfg, views, |views|, DebugSizeRole);
    DebugShares(cfg, views, |views|, DebugPosRole);
  }

  /** Nothing is emitted beyond the records described by the rules above. */
  lemma NothingElse(cfg: Config, views: seq<View>)
    ensures WithRole(Plan(cfg, views), cfg.horizontal, OtherRole) == []
  {
    LoopRolesOfPlan(cfg, views, OtherRole);
    LoopShares(cfg, views, |views|, OtherRole);
    NoShares(cfg, views, |views|, OtherRole);
  }

  /** Total count for n >= 1 slots: n size records, n - 1 chains, two
      anchors, and in debug mode two per even slot. */
  lemma PlanLength(cfg: Config, views: seq<View>)
    ensures |Plan(cfg, views)|
         == if views == [] then 0
            else |views| + (|views| - 1) + 2 + (if cfg.debug then 2 * ((|views| + 1) / 2) else 0)
  {
    LoopLength(cfg, views, |views|);
  }
}
