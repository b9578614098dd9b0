/**
 * The first step of Filter: walk the bound values in lockstep with the
 * decoded bitmap and route each value by its tag byte
 * (extensions/internal/git/log.go:175-193).
 */
module Routing {
  import opened Wrappers
  import Codec

  /** The local variables of Filter a bound value can land in. */
  datatype Slot = HashSlot | PathSlot | RefSlot | EndSlot | StartSlot

  /** Filter's switch on the tag byte. The source spells the literals in
      binary: 0b00010000, 0b00011001, 0b00011010, 0b0100111, 0b0110111. */
  function SlotOf(b: Codec.Byte): (r: Option<Slot>)
    ensures r.Some? ==> 1 <= Codec.OpOf(b) <= 3 && Codec.ColOf(b) in {0, 7, 9, 10}
    ensures r.Some? ==> (Codec.ColOf(b) == 7 <==> Codec.OpOf(b) != 1)
  {
    if b == 0x10 then Some(HashSlot)
    else if b == 0x19 then Some(PathSlot)
    else if b == 0x1A then Some(RefSlot)
    else if b == 0x27 then Some(EndSlot)
    else if b == 0x37 then Some(StartSlot)
    else None
  }

  /** The packing BestIndex's `set` gives for the constraint meant for a slot. */
  function SlotTag(s: Slot): Codec.Byte
  {
    match s
    case HashSlot => Codec.Pack(1, 0)
    case PathSlot => Codec.Pack(1, 9)
    case RefSlot => Codec.Pack(1, 10)
    case EndSlot => Codec.Pack(2, 7)
    case StartSlot => Codec.Pack(3, 7)
  }

  /** Filter's byte literals are exactly set(1,0), set(1,9), set(1,10),
      set(2,7) and set(3,7): a byte selects a slot iff it is that slot's tag. */
  lemma SlotOfTag(b: Codec.Byte, s: Slot)
    ensures SlotOf(b) == Some(s) <==> b == SlotTag(s)
  {
  }

  /** Filter's `hash, path, refName, start, end` (all "" initially). */
  datatype FilterArgs = FilterArgs(hash: string, path: string, refName: string, start: string, end: string)

  const NoArgs := FilterArgs("", "", "", "", "")

  function Get(a: FilterArgs, s: Slot): string
  {
    match s
    case HashSlot => a.hash
    case PathSlot => a.path
    case RefSlot => a.refName
    case EndSlot => a.end
    case StartSlot => a.start
  }

  /** One arm of the switch: store v in the selected slot, if any. */
  function Put(a: FilterArgs, slot: Option<Slot>, v: string): (r: FilterArgs)
    ensures forall s :: Get(r, s) == if slot == Some(s) then v else Get(a, s)
  {
    match slot
    case None => a
    case Some(HashSlot) => a.(hash := v)
    case Some(PathSlot) => a.(path := v)
    case Some(RefSlot) => a.(refName := v)
    case Some(EndSlot) => a.(end := v)
    case Some(StartSlot) => a.(start := v)
  }

  /** The arguments after routing the values (their text) through the bitmap. */
  function Route(bitmap: seq<Codec.Byte>, values: seq<string>): (r: FilterArgs)
    requires |values| <= |bitmap|
    ensures forall s :: Get(r, s) == "" || exists k :: 0 <= k < |values| && Get(r, s) == values[k]
  {
    if values == [] then NoArgs
    else
      var n := |values| - 1;
      Put(Route(bitmap, values[..n]), SlotOf(bitmap[n]), values[n])
  }

  /** The routing loop of Filter. Filter indexes `bitmap[i]` for every value,
      so sqlite must pass no more values than the bitmap has tags. */
  method DecodeArgs(bitmap: seq<Codec.Byte>, values: seq<string>) returns (args: FilterArgs)
    requires |values| <= |bitmap|
    ensures args == Route(bitmap, values)
  {
    var hash, path, refName := "", "", "";
    var start, end := "", "";
    var i := 0;
    while i < |values|
      invariant 0 <= i <= |values|
      invariant FilterArgs(hash, path, refName, start, end) == Route(bitmap, values[..i])
    {
      var val := values[i];
      var b := bitmap[i];
      if b == 0x10 {
        hash := val;
      } else if b == 0x19 {
        path := val;
      } else if b == 0x1A {
        refName := val;
      } else if b == 0x27 {
        end := val;
      } else if b == 0x37 {
        start := val;
      }
      assert values[..i + 1][..i] == values[..i];
      i := i + 1;
    }
    assert values[..|values|] == values;
    args := FilterArgs(hash, path, refName, start, end);
  }

  /** A slot no value is routed to stays empty. */
  lemma {:induction false} RouteUnset(bitmap: seq<Codec.Byte>, values: seq<string>, s: Slot)
    requires |values| <= |bitmap|
    requires forall k :: 0 <= k < |values| ==> SlotOf(bitmap[k]) != Some(s)
    ensures Get(Route(bitmap, values), s) == ""
  {
    if values != [] {
      RouteUnset(bitmap, values[..|values| - 1], s);
    }
  }

  /** A later value for the same slot overwrites an earlier one: the slot
      holds the last value routed to it. */
  lemma {:induction false} RouteLastWrite(bitmap: seq<Codec.Byte>, values: seq<string>, s: Slot, k: nat)
    requires |values| <= |bitmap|
    requires k < |values| && SlotOf(bitmap[k]) == Some(s)
    requires forall j :: k < j < |values| ==> SlotOf(bitmap[j]) != Some(s)
    ensures Get(Route(bitmap, values), s) == values[k]
  {
    var n := |values| - 1;
    var prev := Route(bitmap, values[..n]);
    assert Route(bitmap, values) == Put(prev, SlotOf(bitmap[n]), values[n]);
    if k < n {
      RouteLastWrite(bitmap, values[..n], s, k);
      assert Get(prev, s) == values[k];
    }
  }
}
