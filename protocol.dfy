/**
 * The informal contract between BestIndex and Filter
 * (extensions/internal/git/log.go:59-83): the value at argv position n is
 * interpreted by the byte at position n of the bitmap.
 */
module Protocol {
  import opened Wrappers
  import Codec
  import Planner
  import Routing

  /** Where a pushed constraint's value is meant to end up in Filter,
      judged from its column and operator alone. */
  function IntendedSlot(c: Planner.Constraint): Routing.Slot
    requires Planner.Pushed(c)
  {
    if c.column == 0 then Routing.HashSlot
    else if c.column == 9 then Routing.PathSlot
    else if c.column == 10 then Routing.RefSlot
    else if c.op == Planner.Lt then Routing.EndSlot
    else Routing.StartSlot
  }

  /** Filter's switch sends every tag BestIndex emits to the slot its
      constraint is meant for: LT on committer_when bounds from above (end),
      GT from below (start). */
  lemma TagRoutesToIntendedSlot(c: Planner.Constraint)
    requires Planner.Pushed(c)
    ensures Routing.SlotOf(Planner.TagOf(c)) == Some(IntendedSlot(c))
  {
    Routing.SlotOfTag(Planner.TagOf(c), IntendedSlot(c));
  }

  /** The planner's list of dispatch bytes is exactly the set of bytes
      Filter's switch handles. */
  lemma DispatchTagIsRouted(b: Codec.Byte)
    ensures Planner.IsDispatchTag(b) <==> Routing.SlotOf(b).Some?
  {
  }

  /** The bitmap position of a pushed constraint routes to its intended slot. */
  lemma SlotAtArgv(cs: seq<Planner.Constraint>, i: nat)
    requires i < |cs| && Planner.Pushed(cs[i])
    ensures Planner.ArgvIndex(cs, i) <= |Planner.Bitmap(cs)|
    ensures Routing.SlotOf(Planner.Bitmap(cs)[Planner.ArgvIndex(cs, i) - 1]) == Some(IntendedSlot(cs[i]))
  {
    Planner.ArgvAligned(cs, i);
    TagRoutesToIntendedSlot(cs[i]);
  }

  /** End to end: after sqlite binds the values in argv order and passes the
      index string back, the value bound to pushed constraint i reaches its
      intended slot, unless a later pushed constraint targets the same slot. */
  lemma ValueReachesSlot(cs: seq<Planner.Constraint>, values: seq<string>, i: nat)
    requires |values| == |Planner.Bitmap(cs)|
    requires i < |cs| && Planner.Pushed(cs[i])
    requires forall j :: i < j < |cs| && Planner.Pushed(cs[j]) ==> IntendedSlot(cs[j]) != IntendedSlot(cs[i])
    ensures |values| <= |Codec.DecodeOrEmpty(Codec.Enc(Planner.Bitmap(cs)))|
    ensures Planner.ArgvIndex(cs, i) <= |values|
    ensures Routing.Get(Routing.Route(Codec.DecodeOrEmpty(Codec.Enc(Planner.Bitmap(cs))), values), IntendedSlot(cs[i]))
            == values[Planner.ArgvIndex(cs, i) - 1]
  {
    var bm := Planner.Bitmap(cs);
    Codec.DecEnc(bm);
    var k := Planner.ArgvIndex(cs, i) - 1;
    SlotAtArgv(cs, i);
    forall j | k < j < |values|
      ensures Routing.SlotOf(bm[j]) != Some(IntendedSlot(cs[i]))
    {
      LaterPositionElsewhere(cs, i, j);
    }
    Routing.RouteLastWrite(bm, values, IntendedSlot(cs[i]), k);
  }

  /** A bitmap position after a pushed constraint's own belongs to a later
      pushed constraint, so it routes elsewhere when no later constraint
      targets the same slot. */
  lemma LaterPositionElsewhere(cs: seq<Planner.Constraint>, i: nat, j: nat)
    requires i < |cs| && Planner.Pushed(cs[i])
    requires Planner.ArgvIndex(cs, i) - 1 < j < |Planner.Bitmap(cs)|
    requires forall m :: i < m < |cs| && Planner.Pushed(cs[m]) ==> IntendedSlot(cs[m]) != IntendedSlot(cs[i])
    ensures Routing.SlotOf(Planner.Bitmap(cs)[j]) != Some(IntendedSlot(cs[i]))
  {
    Planner.ArgvCovers(cs, j);
    var m :| 0 <= m < |cs| && Planner.Pushed(cs[m]) && Planner.ArgvIndex(cs, m) == j + 1;
    assert m != i;
    if m < i {
      Planner.ArgvIncreasing(cs, m, i);
      assert false;
    }
    SlotAtArgv(cs, m);
    assert IntendedSlot(cs[m]) != IntendedSlot(cs[i]);
  }

  /** A slot no pushed constraint is meant for stays empty in Filter. */
  lemma SlotUnplanned(cs: seq<Planner.Constraint>, values: seq<string>, s: Routing.Slot)
    requires |values| == |Planner.Bitmap(cs)|
    requires forall j :: 0 <= j < |cs| && Planner.Pushed(cs[j]) ==> IntendedSlot(cs[j]) != s
    ensures |values| <= |Codec.DecodeOrEmpty(Codec.Enc(Planner.Bitmap(cs)))|
    ensures Routing.Get(Routing.Route(Codec.DecodeOrEmpty(Codec.Enc(Planner.Bitmap(cs))), values), s) == ""
  {
    var bm := Planner.Bitmap(cs);
    Codec.DecEnc(bm);
    forall k | 0 <= k < |values|
      ensures Routing.SlotOf(bm[k]) != Some(s)
    {
      Planner.ArgvCovers(cs, k);
      var m :| 0 <= m < |cs| && Planner.Pushed(cs[m]) && Planner.ArgvIndex(cs, m) == k + 1;
      SlotAtArgv(cs, m);
    }
    Routing.RouteUnset(bm, values, s);
  }
}
