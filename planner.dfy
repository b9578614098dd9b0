/**
 * The query planner of the `commits` virtual table: BestIndex
 * (extensions/internal/git/log.go:84-155).
 *
 * Schema columns, 0-based: 0 hash, 1 message, 2 author_name, 3 author_email,
 * 4 author_when, 5 committer_name, 6 committer_email, 7 committer_when,
 * 8 parents, 9 repository (hidden), 10 ref (hidden).
 */
module Planner {
  import opened Wrappers
  import Codec

  /** sqlite's SQLITE_INDEX_CONSTRAINT_* operators. */
  datatype ConstraintOp = Eq | Gt | Le | Lt | Ge | Match | Like | Glob | Regexp | Ne
                        | IsNot | IsNotNull | IsNull | Is

  /** One candidate constraint offered by sqlite. */
  datatype Constraint = Constraint(column: int, op: ConstraintOp, usable: bool)

  /** One ORDER BY term. */
  datatype OrderTerm = OrderTerm(column: int, desc: bool)

  /** A non-nil `ConstraintUsage`. */
  datatype Usage = Usage(argvIndex: nat, omit: bool)

  /** The `IndexInfoOutput` fields BestIndex writes; `scanUnique` is the
      INDEX_SCAN_UNIQUE bit of IdxFlags, which starts out clear. */
  datatype IndexOutput = IndexOutput(
    usage: seq<Option<Usage>>,
    estimatedCost: int,
    estimatedRows: int,
    scanUnique: bool,
    orderByConsumed: bool,
    indexString: string)

  /** SQLITE_CONSTRAINT. */
  datatype PlanError = ConstraintError

  /** A constraint on hash or repository that sqlite cannot use here. */
  predicate Unanswerable(c: Constraint)
    ensures Unanswerable(c) ==> !c.usable
    ensures c.column == 10 ==> !Unanswerable(c)
  {
    (c.column == 0 || c.column == 9) && !c.usable
  }

  /** A usable constraint that BestIndex pushes down to Filter. */
  predicate Pushed(c: Constraint)
    ensures Pushed(c) ==> c.usable && !Unanswerable(c) && 0 <= c.column < 16
  {
    && c.usable
    && ((c.column == 0 && c.op == Eq)
        || ((c.column == 9 || c.column == 10) && c.op == Eq)
        || (c.column == 7 && (c.op == Lt || c.op == Gt)))
  }

  /** The tag byte BestIndex emits for a pushed constraint. */
  function TagOf(c: Constraint): (b: Codec.Byte)
    requires Pushed(c)
    ensures Codec.ColOf(b) == c.column
    ensures Codec.OpOf(b) == (if c.op == Eq then 1 else if c.op == Lt then 2 else 3)
  {
    if c.op == Eq then Codec.Pack(1, c.column)
    else if c.op == Lt then Codec.Pack(2, 7)
    else Codec.Pack(3, 7)
  }

  /** Only the repository and ref selectors are left unchecked by sqlite. */
  predicate Omitted(c: Constraint)
  {
    c.column == 9 || c.column == 10
  }

  /** `WHERE hash = ?` with a usable constraint. */
  predicate UniqueLookup(c: Constraint)
  {
    c.usable && c.column == 0 && c.op == Eq
  }

  /** `ORDER BY committer_when DESC` and nothing else. */
  predicate SortedByCommitterDesc(orderBy: seq<OrderTerm>)
    ensures SortedByCommitterDesc(orderBy) ==> forall k :: 0 <= k < |orderBy| ==> orderBy[k] == OrderTerm(7, true)
  {
    |orderBy| == 1 && orderBy[0].column == 7 && orderBy[0].desc
  }

  /** The bitmap after the first n constraints: one tag per pushed
      constraint, in constraint order. */
  function Tags(cs: seq<Constraint>, n: nat): (b: seq<Codec.Byte>)
    requires n <= |cs|
    ensures |b| <= n
  {
    if n == 0 then []
    else Tags(cs, n - 1) + (if Pushed(cs[n - 1]) then [TagOf(cs[n - 1])] else [])
  }

  /** The bitmap BestIndex builds. */
  function Bitmap(cs: seq<Constraint>): seq<Codec.Byte>
  {
    Tags(cs, |cs|)
  }

  /** The 1-based argv slot of the i-th constraint: one past the number of
      constraints pushed before it. */
  function ArgvIndex(cs: seq<Constraint>, i: nat): nat
    requires i < |cs|
  {
    |Tags(cs, i)| + 1
  }

  /** The ConstraintUsage entry BestIndex writes for the i-th constraint. */
  function UsageFor(cs: seq<Constraint>, i: nat): (u: Option<Usage>)
    requires i < |cs|
    ensures u.Some? <==> Pushed(cs[i])
    ensures u.Some? ==> u.value.argvIndex == |Tags(cs, i)| + 1
    ensures u.Some? ==> (u.value.omit <==> cs[i].column == 9 || cs[i].column == 10)
  {
    if Pushed(cs[i]) then Some(Usage(ArgvIndex(cs, i), Omitted(cs[i]))) else None
  }

  /** The number of non-nil entries among the first n usages. */
  function CountUsed(usage: seq<Option<Usage>>, n: nat): nat
    requires n <= |usage|
  {
    if n == 0 then 0
    else CountUsed(usage, n - 1) + (if usage[n - 1].Some? then 1 else 0)
  }

  /** What the constraint loop of BestIndex leaves behind: the bitmap, the
      ConstraintUsage entries, and whether a unique hash lookup was seen
      (which also set EstimatedCost and EstimatedRows to 1). */
  datatype Pushdown = Pushdown(bitmap: seq<Codec.Byte>, usage: seq<Option<Usage>>, unique: bool)

  /** The constraint loop of BestIndex (log.go:85-142). */
  method PushDown(cs: seq<Constraint>) returns (r: Result<Pushdown, PlanError>)
    ensures r.Err? <==> exists i :: 0 <= i < |cs| && Unanswerable(cs[i])
    ensures r.Ok? ==> r.value.bitmap == Bitmap(cs)
    ensures r.Ok? ==> |r.value.usage| == |cs|
    ensures r.Ok? ==> forall i :: 0 <= i < |cs| ==> r.value.usage[i] == UsageFor(cs, i)
    ensures r.Ok? ==> (r.value.unique <==> exists i :: 0 <= i < |cs| && UniqueLookup(cs[i]))
  {
    var argv := 0;
    var bitmap: seq<Codec.Byte> := [];
    var usage: seq<Option<Usage>> := seq(|cs|, _ => None);
    var unique := false;

    var i := 0;
    while i < |cs|
      invariant 0 <= i <= |cs|
      invariant forall k :: 0 <= k < i ==> !Unanswerable(cs[k])
      invariant bitmap == Tags(cs, i) && argv == |bitmap|
      invariant |usage| == |cs|
      invariant forall k :: 0 <= k < i ==> usage[k] == UsageFor(cs, k)
      invariant forall k :: i <= k < |cs| ==> usage[k] == None
      invariant unique <==> exists k :: 0 <= k < i && UniqueLookup(cs[k])
    {
      var c := cs[i];
      var idx := c.column;

      // a hash or repository constraint must be usable
      if idx == 0 && !c.usable {
        return Err(ConstraintError);
      }
      if idx == 9 && !c.usable {
        return Err(ConstraintError);
      }
      if !c.usable {
        i := i + 1;
        continue;
      }

      argv := argv + 1;  // given back below when the constraint is not used
      if idx == 0 && c.op == Eq {
        bitmap := bitmap + [Codec.Pack(1, idx)];
        usage := usage[i := Some(Usage(argv, false))];
        unique := true;
      } else if (idx == 9 || idx == 10) && c.op == Eq {
        bitmap := bitmap + [Codec.Pack(1, idx)];
        usage := usage[i := Some(Usage(argv, true))];
      } else if idx == 7 && (c.op == Lt || c.op == Gt) {
        var op := if c.op == Lt then 2 else 3;
        bitmap := bitmap + [Codec.Pack(op, idx)];
        usage := usage[i := Some(Usage(argv, false))];
      } else {
        argv := argv - 1;
      }
      i := i + 1;
    }
    r := Ok(Pushdown(bitmap, usage, unique));
  }

  method BestIndex(cs: seq<Constraint>, orderBy: seq<OrderTerm>) returns (r: Result<IndexOutput, PlanError>)
    ensures r.Err? <==> exists i :: 0 <= i < |cs| && Unanswerable(cs[i])
    ensures r.Ok? ==> |r.value.usage| == |cs|
    ensures r.Ok? ==> forall i :: 0 <= i < |cs| ==> r.value.usage[i] == UsageFor(cs, i)
    ensures r.Ok? ==> CountUsed(r.value.usage, |cs|) == |Bitmap(cs)|
    ensures r.Ok? ==> r.value.indexString == Codec.Enc(Bitmap(cs))
    ensures r.Ok? ==> (r.value.scanUnique <==> exists i :: 0 <= i < |cs| && UniqueLookup(cs[i]))
    ensures r.Ok? ==> r.value.estimatedCost == r.value.estimatedRows == (if r.value.scanUnique then 1 else 0)
    ensures r.Ok? ==> (r.value.orderByConsumed <==> SortedByCommitterDesc(orderBy))
  {
    var pushed := PushDown(cs);
    if pushed.Err? {
      return Err(pushed.error);
    }
    var p := pushed.value;
    var cost := if p.unique then 1 else 0;

    // the commits come ordered by descending commit time already
    var consumed := false;
    if |orderBy| == 1 && orderBy[0].column == 7 && orderBy[0].desc {
      consumed := true;
    }
    UsedMatchesTags(cs, p.usage, |cs|);
    r := Ok(IndexOutput(p.usage, cost, cost, p.unique, consumed, Codec.Enc(p.bitmap)));
  }

  // ---------------------------------------------------------------------
  // The bitmap/argv contract between BestIndex and Filter.
  // ---------------------------------------------------------------------

  /** The tag bytes Filter dispatches on. */
  predicate IsDispatchTag(b: Codec.Byte)
  {
    b == 0x10 || b == 0x19 || b == 0x1A || b == 0x27 || b == 0x37
  }

  /** Every tag the planner emits is one of the bytes Filter dispatches on. */
  lemma TagDispatchable(c: Constraint)
    requires Pushed(c)
    ensures IsDispatchTag(TagOf(c))
  {
  }

  /** Every byte BestIndex emits is one Filter recognises. */
  lemma {:induction false} TagsDispatchable(cs: seq<Constraint>, n: nat)
    requires n <= |cs|
    ensures forall k :: 0 <= k < |Tags(cs, n)| ==> IsDispatchTag(Tags(cs, n)[k])
  {
    if n > 0 {
      TagsDispatchable(cs, n - 1);
      if Pushed(cs[n - 1]) {
        TagDispatchable(cs[n - 1]);
      }
    }
  }

  /** Every byte of the bitmap is one Filter recognises. */
  lemma BitmapDispatchable(cs: seq<Constraint>)
    ensures forall k :: 0 <= k < |Bitmap(cs)| ==> IsDispatchTag(Bitmap(cs)[k])
  {
    TagsDispatchable(cs, |cs|);
  }

  /** The bitmap only grows: the tags after i constraints are a prefix of
      the tags after j >= i. */
  lemma {:induction false} TagsPrefix(cs: seq<Constraint>, i: nat, j: nat)
    requires i <= j <= |cs|
    ensures |Tags(cs, i)| <= |Tags(cs, j)|
    ensures Tags(cs, i) == Tags(cs, j)[..|Tags(cs, i)|]
  {
    if i < j {
      TagsPrefix(cs, i, j - 1);
    }
  }

  /** The value sqlite binds at argv slot ArgvIndex(cs, i) meets, in Filter,
      the tag of constraint i. */
  lemma ArgvAligned(cs: seq<Constraint>, i: nat)
    requires i < |cs| && Pushed(cs[i])
    ensures ArgvIndex(cs, i) <= |Bitmap(cs)|
    ensures Bitmap(cs)[ArgvIndex(cs, i) - 1] == TagOf(cs[i])
  {
    TagsPrefix(cs, i + 1, |cs|);
  }

  /** Pushed constraints receive strictly increasing argv slots. */
  lemma ArgvIncreasing(cs: seq<Constraint>, i: nat, j: nat)
    requires i < j < |cs| && Pushed(cs[i])
    ensures ArgvIndex(cs, i) < ArgvIndex(cs, j)
  {
    TagsPrefix(cs, i + 1, j);
  }

  /** Every position among the first n tags is the argv slot of some pushed
      constraint among the first n. */
  lemma {:induction false} TagsCovered(cs: seq<Constraint>, n: nat, k: nat)
    requires n <= |cs| && k < |Tags(cs, n)|
    ensures exists i :: 0 <= i < n && Pushed(cs[i]) && ArgvIndex(cs, i) == k + 1
  {
    if k < |Tags(cs, n - 1)| {
      TagsCovered(cs, n - 1, k);
    } else {
      assert Pushed(cs[n - 1]) && ArgvIndex(cs, n - 1) == k + 1;
    }
  }

  /** Every bitmap position is the argv slot of some pushed constraint, so
      the slots handed out are exactly 1..|bitmap|. */
  lemma ArgvCovers(cs: seq<Constraint>, k: nat)
    requires k < |Bitmap(cs)|
    ensures exists i :: 0 <= i < |cs| && Pushed(cs[i]) && ArgvIndex(cs, i) == k + 1
  {
    TagsCovered(cs, |cs|, k);
  }

  /** The number of non-nil usages equals the number of tags (and the final
      argv counter). */
  lemma {:induction false} UsedMatchesTags(cs: seq<Constraint>, usage: seq<Option<Usage>>, n: nat)
    requires |usage| == |cs| && n <= |cs|
    requires forall i :: 0 <= i < |cs| ==> (usage[i].Some? <==> Pushed(cs[i]))
    ensures CountUsed(usage, n) == |Tags(cs, n)|
  {
    if n > 0 {
      UsedMatchesTags(cs, usage, n - 1);
    }
  }
}
