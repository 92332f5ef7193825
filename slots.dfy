/** The slot sequence a distributor builds, defined directly: for the
    user views u0 .. u(n-1) added so far it is
    Spacer 0, u0, Spacer 1, u1, ..., u(n-1), Spacer n,
    and it is empty while no user view has been added. */
module Slots {
  import opened UIKitModel

  /** Number of slots for `n` user views. */
  function SlotCount(n: nat): nat
  {
    if n == 0 then 0 else 2 * n + 1
  }

  /** The reference slot sequence for the user views `users` (in the order
      they were added), with every spacer's visibility flag set to `hidden`. */
  function Layout(users: seq<nat>, hidden: bool): seq<View>
  {
    seq(SlotCount(|users|), i requires 0 <= i < SlotCount(|users|) =>
      if i % 2 == 0 then Spacer(i / 2, hidden) else User(users[i / 2]))
  }

  /** Slot count and alternation: 2N+1 slots for N >= 1 user views and none
      for N = 0; even slots are spacers, odd slots are the user views in the
      order they were added; the first and last slots are spacers; no two
      user views are adjacent; every spacer carries the same visibility flag. */
  lemma LayoutShape(users: seq<nat>, hidden: bool)
    ensures var r := Layout(users, hidden);
      && |r| == (if users == [] then 0 else 2 * |users| + 1)
      && (forall i :: 0 <= i < |r| && i % 2 == 0 ==> r[i].Spacer? && r[i].serial == i / 2 && r[i].hidden == hidden)
      && (forall i :: 0 <= i < |r| && i % 2 == 1 ==> r[i].User?)
      && (forall j :: 0 <= j < |users| ==> r[2 * j + 1] == User(users[j]))
      && (users != [] ==> r[0].Spacer? && r[|r| - 1].Spacer?)
      && (forall i :: 0 <= i && i + 1 < |r| ==> r[i].Spacer? || r[i + 1].Spacer?)
  {
    var r := Layout(users, hidden);
    var n := |users|;
    forall j | 0 <= j < n
      ensures r[2 * j + 1] == User(users[j])
    {
      assert (2 * j + 1) % 2 == 1 && (2 * j + 1) / 2 == j;
    }
    if n > 0 {
      assert (2 * n) % 2 == 0;
    }
    forall i | 0 <= i && i + 1 < |r|
      ensures r[i].Spacer? || r[i + 1].Spacer?
    {
      assert i % 2 == 0 || (i + 1) % 2 == 0;
    }
  }

  /** Adding one user view: the first one brings a leading spacer with it,
      and every one is followed by a new trailing spacer. */
  lemma LayoutGrow(users: seq<nat>, u: nat, hidden: bool)
    ensures Layout(users + [u], hidden)
         == Layout(users, hidden)
            + (if users == [] then [Spacer(0, hidden)] else [])
            + [User(u), Spacer(|users| + 1, hidden)]
  {
  }
}
