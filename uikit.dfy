/** The part of UIKit that the distributor talks to: views, layout
    attributes, constraint records, and a container view that collects
    subviews and constraints. Nothing here solves the layout; a container
    only records what it has been given. */
module UIKitModel {

  /** The layout attributes a constraint can name (NSLayoutAttribute). */
  datatype Attribute = Width | Height | Left | Right | Top | Bottom | NotAnAttribute

  /** The relations the distributor uses (NSLayoutRelation). */
  datatype Relation = Equal | GreaterThanOrEqual

  /** A view taking part in a distribution. A spacer is created by the
      distributor itself: `serial` tells it apart from the distributor's
      other spacers and `hidden` is its visibility flag. A user view is
      supplied by the caller and is known only by an opaque handle. */
  datatype View = Spacer(serial: nat, hidden: bool) | User(handle: nat)

  /** The second item of a constraint: none (a constant-only constraint),
      another view, or the container view itself. */
  datatype Target = NoItem | ToView(view: View) | Container

  /** The priority a constraint has unless it is lowered (required). */
  const Required: int := 1000
  /** The priority of an interior chain constraint: one below required. */
  const AlmostRequired: int := Required - 1

  /** An NSLayoutConstraint as a record:
      item.attribute relation toItem.toAttribute * multiplier + constant. */
  datatype Constraint = Constraint(
    item: View,
    attribute: Attribute,
    relation: Relation,
    toItem: Target,
    toAttribute: Attribute,
    multiplier: int,
    constant: int,
    priority: int)

  /** The container view: the subviews added to it and the constraints
      registered with it, in the order they arrived. */
  class Parent {
    var subviews: seq<View>
    var constraints: seq<Constraint>

    constructor ()
      ensures subviews == [] && constraints == []
    {
      subviews := [];
      constraints := [];
    }

    /** addSubview: the view is appended, constraints are untouched. */
    method AddSubview(v: View)
      modifies this
      ensures subviews == old(subviews) + [v]
      ensures constraints == old(constraints)
    {
      subviews := subviews + [v];
    }

    /** addConstraint: the constraint is appended, subviews are untouched. */
    method AddConstraint(c: Constraint)
      modifies this
      ensures constraints == old(constraints) + [c]
      ensures subviews == old(subviews)
    {
      constraints := constraints + [c];
    }
  }
}
