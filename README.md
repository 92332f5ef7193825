# DistributeViewsEvenly in Dafny

`DistributeViewsEvenly` is a small UIKit helper. It lays out views of a common size evenly along one axis:
`|-(v1)-(v2)-(v3)-|`, with every gap the same width.

It works in two phases:

- **Building the slot sequence.** Each call to `addView` appends the caller's view to a private array, followed by a
  freshly created spacer view. The first call also puts a leading spacer in front, so the array always reads
  spacer, view, spacer, ..., spacer. Each spacer is added to the container as a subview. A spacer is hidden unless
  debug mode is on.
- **Emitting constraints.** `setConstraints` walks the array once and registers constraints with the container:
  - a size constraint for every slot;
  - two cross-axis constraints for every spacer in debug mode;
  - a chain constraint joining each slot to the next, where every chain except the first is lowered to priority 999;
  - two anchors pinning the first and last slot to the container, offset by the margin.

The model keeps that shape:

- `uikit.dfy` (module `UIKitModel`) holds the part of UIKit the helper talks to.
  - Views are values: a `Spacer` carries a serial number and its hidden flag, and a user view carries an opaque handle.
  - Layout attributes, relations and constraints are datatypes.
  - The container is a class `Parent` whose `subviews` and `constraints` sequences are only ever appended to.
- `slots.dfy` (module `Slots`) defines the slot sequence a distributor builds for a given list of user views. Its
  lemmas give the shape of that sequence and how it grows by one view.
- `plan.dfy` (module `ConstraintPlan`) defines `Plan(cfg, views)`, the exact sequence of records the emitter registers
  for a slot sequence and a configuration. It also proves what that sequence contains.
  - `WithRole` selects the records of one kind, in order. A record's kind is read off its attribute and second item.
  - The lemmas state the size, chain, anchor and debug rules about those selections.
- `distributor.dfy` (module `Distribution`) has the class `DistributeViewsEvenly`.
  - `AddView`, `AddSpacer` and `SetConstraints` change the object's slot sequence and the container.
  - `SetConstraints` keeps the loop of the original. The loop invariant says the container has received the plan of the
    slots visited so far. One iteration of the loop is the method `ConstrainSlot`.
  - The ghost field `users` records the user views added so far. `Valid()` says the slot sequence is the reference
    layout of exactly those views.
  - The module-level lemmas apply the plan's rules to the slot sequence a distributor actually builds, and work through
    the one-view example record by record.

Three facts about the code that are easy to misread:

- **Chain priority.** The comment at DistributeViewsEvenly.swift:78 says the priority is lowered "for spacers that
  are in the middle". The guard `index > 0 && index + 1 < count` (:79), however, sits inside `if index + 1 < count`
  (:76), so its second half always holds. Only the chain from slot 0 keeps priority 1000. Every later chain gets 999,
  the last one included (`ChainRule`, `ChainPrioritiesForUsers`, `OneViewPlan`).
- **When debug constraints are made.** A spacer's two debug constraints are emitted by `setConstraints` (:65-68), in
  slot order. `addSpacer` (:95-113) only sets the spacer's colour or its hidden flag.
- **Counts.** Three views give seven slots (four spacers, three views) and six chains, five of them at priority 999
  (`LayoutShape`, `ChainRule`, `PlanCountForUsers`).

## Model

| member | source | states |
|---|---|---|
| Distribution.DistributeViewsEvenly.constructor | DistributeViewsEvenly.swift:23-29 | the configuration is stored as given and the slot sequence starts empty, and so is the reference layout of no views |
| Distribution.DistributeViewsEvenly.AddView | DistributeViewsEvenly.swift:31-43 | the slot sequence gains a leading spacer (first call only), the user view and a trailing spacer numbered one past the previous spacer; the container's subviews gain exactly the new spacers; no constraint is added; the slot sequence stays the reference layout of the views added so far |
| Distribution.DistributeViewsEvenly.AddSpacer | DistributeViewsEvenly.swift:95-113 | one new spacer, hidden exactly when debug mode is off, is appended both to the container's subviews and to the slot sequence; constraints are untouched |
| Distribution.DistributeViewsEvenly.SetConstraints | DistributeViewsEvenly.swift:45-93 | the container's constraints gain exactly the plan of the current slot sequence, in emission order, and nothing when there are no slots; subviews are untouched |
| Distribution.DistributeViewsEvenly.ConstrainSlot | DistributeViewsEvenly.swift:55-83 | one loop iteration appends the size record of the slot, its two debug records when it is a spacer in debug mode, and the chain to the next slot if there is one, lowered to 999 unless the slot is the first |
| UIKitModel.Parent.AddSubview | DistributeViewsEvenly.swift:110 | the view is appended to the subviews and constraints are untouched |
| UIKitModel.Parent.AddConstraint | DistributeViewsEvenly.swift:82 | the constraint is appended to the constraints and subviews are untouched |
| Slots.Layout | DistributeViewsEvenly.swift:31-43 | the slot array that `addView` and `addSpacer` (:95-113) build for the user views added so far: spacer j at slot 2j, user view j at slot 2j+1, and nothing while no view has been added |
| Slots.LayoutShape | DistributeViewsEvenly.swift:31-43 | after N views the sequence has 2N+1 slots (none for N = 0); even slots are spacers numbered by position with the common hidden flag; odd slots are the user views in call order; it starts and ends with a spacer; no two user views are adjacent |
| Slots.LayoutGrow | DistributeViewsEvenly.swift:31-43 | adding one view extends the reference layout by a leading spacer (first view only), the view and a new trailing spacer, and changes nothing before them |
| ConstraintPlan.AxisAttributes | DistributeViewsEvenly.swift:49-51 | horizontal uses Width/Left/Right and vertical Height/Top/Bottom; the debug cross-axis size and position attributes are the other axis' size and leading attributes; the five attributes of an axis are distinct real attributes |
| ConstraintPlan.Plan | DistributeViewsEvenly.swift:53-92 | the exact record sequence that `setConstraints` registers: the loop's records for every slot, in slot order, then the leading and trailing anchors |
| ConstraintPlan.SizeConstraint | DistributeViewsEvenly.swift:55-74 | the size record of slot i: `>= 0` for slot 0, equal to slot 0's size for a later even slot, `== viewSize` for an odd slot |
| ConstraintPlan.DebugConstraints | DistributeViewsEvenly.swift:65-68 | the cross-axis size 50 and the cross-axis position 50 + 20*i of an even slot i in debug mode, and nothing otherwise |
| ConstraintPlan.ChainConstraint | DistributeViewsEvenly.swift:76-83 | the chain from slot i to slot i+1, with its priority lowered to 999 under the guard at :79 |
| ConstraintPlan.AnchorConstraints | DistributeViewsEvenly.swift:85-92 | the leading anchor of the first slot (+margin) and the trailing anchor of the last slot (-margin), both present exactly when there are slots |
| ConstraintPlan.PlanEmpty | DistributeViewsEvenly.swift:53-92 | with no slots nothing is emitted |
| ConstraintPlan.SizeRecords | DistributeViewsEvenly.swift:55-74 | there is exactly one size record per slot, in slot order, and it is the slot's size rule |
| ConstraintPlan.SizeRule | DistributeViewsEvenly.swift:55-74 | slot 0 gets size >= 0 with no second item; every later even slot gets size equal to slot 0's size; every odd slot gets size == viewSize with no second item; all are required |
| ConstraintPlan.ChainRule | DistributeViewsEvenly.swift:76-83 | there are exactly count - 1 chain records, one per adjacent pair in order, each trailing edge of slot i == leading edge of slot i+1 with constant 0; priority 1000 when i = 0 and 999 for every other pair, the last included |
| ConstraintPlan.AnchorRule | DistributeViewsEvenly.swift:85-92 | with slots there is exactly one leading anchor (first slot, +margin) and one trailing anchor (last slot, -margin), both against the container; without slots there are none |
| ConstraintPlan.AnchorsLast | DistributeViewsEvenly.swift:85-92 | the two anchors are the last two records emitted, leading before trailing |
| ConstraintPlan.DebugRule | DistributeViewsEvenly.swift:65-68 | in debug mode each even slot 2j gets, in order, a required cross-axis size == 50 with no second item and a required cross-axis position == the container's + 50 + 20 * 2j, both with multiplier 1; without debug mode there are none |
| ConstraintPlan.NothingElse | DistributeViewsEvenly.swift:53-92 | every emitted record is a size, chain, anchor or debug record |
| ConstraintPlan.PlanLength | DistributeViewsEvenly.swift:53-92 | for n >= 1 slots the plan has n size records, n - 1 chains, two anchors and, in debug mode, two records per even slot |
| ConstraintPlan.LoopLength | DistributeViewsEvenly.swift:53-84 | after k iterations the loop has emitted k size records, one chain per iteration except the final one, and two debug records per even slot visited in debug mode |
| ConstraintPlan.LoopShares | DistributeViewsEvenly.swift:53-84 | the records of any one kind emitted by the first k iterations are the records of that kind of each iteration, in iteration order |
| Distribution.PlanCountForUsers | DistributeViewsEvenly.swift:31-92 | after N >= 1 views the plan has (2N+1) + 2N + 2 + (2(N+1) in debug mode) records, and none for N = 0 |
| Distribution.SpacerSizesForUsers | DistributeViewsEvenly.swift:55-63 | for the slots a distributor builds, spacer 0 gets size >= 0 and spacer j >= 1 gets size equal to spacer 0 |
| Distribution.UserSizesForUsers | DistributeViewsEvenly.swift:69-74 | for the slots a distributor builds, the j-th user view added gets size == viewSize |
| Distribution.DebugForUsers | DistributeViewsEvenly.swift:65-68 | in debug mode each of the N+1 spacers, which are then visible, gets a cross size of 50 and a cross position offset 50 + 20 * (its slot index); without debug mode there are no such records |
| Distribution.ChainPrioritiesForUsers | DistributeViewsEvenly.swift:76-83 | after N >= 1 views there are 2N chains; the first is required; the last, into the trailing spacer, is 999 |
| Distribution.OneViewPlan | DistributeViewsEvenly.swift:45-93 | one view, horizontal, margin 10, size 30: the full list of seven records in emission order |

## Left out

- Layout solving and geometry: the model states which constraints are registered, not the positions they produce.
- Distribution.DistributeViewsEvenly.AddSpacer: in debug mode the source gives a spacer a random background colour
  (line 101). That is randomness and floating point, so it is not modelled; the model records only the hidden flag.
- `setTranslatesAutoresizingMaskIntoConstraints(false)` (lines 38 and 107) sets a UIKit flag with no logic behind it,
  so it is not modelled.
- ConstraintPlan.DebugOffset: the source converts `50 + 20*index`, the margin and the view size from `Int` to
  `CGFloat`. The model keeps them as unbounded integers. It does not model the `Int` overflow of `20*index` or the loss
  of precision above 2^53, which no realistic view count reaches.
- View identity: a user view is an opaque handle and a spacer is told apart by its serial number within one
  distributor. Aliasing, such as the same view added twice or a view that is also the container, is not modelled. The
  source checks neither case, and the model allows both.
- The source does not stop `addView` after `setConstraints`, or a second `setConstraints`. The model allows both too;
  each `SetConstraints` appends the plan of the slots present at that moment.
- The constructor keeps the defaults of the source (:23): horizontal, margin 0, no debug mode.
- `debug` is declared `let debug: Bool = false` and then assigned in `init` (lines 21 and 28), which Swift rejects.
  The model treats it as an ordinary field set by the constructor.
