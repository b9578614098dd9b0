# The `commits` virtual table of askgit, modelled in Dafny

This project models the core of the `commits` virtual table (`git log` as a SQL table) in
`extensions/internal/git/log.go`. The model has three parts:

- **The query planner, `BestIndex`.** It walks sqlite's candidate constraints and pushes some of them down to the
  cursor. Each pushed constraint gets one argv slot and one tag byte in a bitmap. The tag packs an
  operation code in its high nibble and a schema column in its low nibble (`op<<4 | col`). The
  bitmap travels to `Filter` through sqlite's index string.
- **`Filter`.** It decodes the bitmap and routes each bound value by its exact tag byte into
  `hash`, `path`, `refName`, `end` or `start`. It then opens the repository and starts one of two
  scans. A bound hash gives a single-hash lookup. Otherwise it scans from the explicit ref, or from
  HEAD, after loading an optional `.mailmap` and parsing the RFC 3339 range bounds.
- **The cursor protocol: `Next`, `Eof`, `Close` and `Column`.**

Modules:

- `Codec` (codec.dfy) holds the nibble packing and the index-string channel.
- `Planner` (planner.dfy) holds `BestIndex` and its bitmap/argv specification.
- `Routing` (routing.dfy) holds Filter's tag switch.
- `Protocol` (protocol.dfy) proves that the planner and the filter agree.
- `Git` (git.dfy) holds the collaborators as oracles.
- `Cursor` (cursor.dfy) holds the `LogCursor` class.

The repository, go-git, the locator, `time.Parse`/`Format` and the mailmap package are oracles.
Each is a record of total functions that the cursor is built with. A commit iterator is the
finite sequence of steps it will produce (a commit or an error) plus a position.

Some behaviours of the code worth noting. The model follows the code in each:

- Only an unusable constraint on `hash` (column 0) or `repository` (column 9) fails planning.
  An unusable constraint on `ref` (column 10) is skipped like any other.
- A `.mailmap` that is missing, or skipped through the context's `skipMailmap` flag, does not
  clear the cursor's mailmap: a cursor that is filtered again keeps the mailmap it loaded before.
- `Close` does not record that it already ran. It closes the iterator again each time it is called.
  In the model, closing an already-closed iterator leaves it as it was.
- When `repo.Log` fails, the assignment `cur.commits, err = repo.Log(opts)` has already replaced
  the previous iterator with none. That iterator is never closed, and the current commit from the
  previous filter stays in place without an iterator behind it.

## Model

| member | source | states |
|---|---|---|
| Codec.Pack | extensions/internal/git/log.go:73-87 | below 16, the high nibble of `op<<4\|col` gives back op and the low nibble gives back col |
| Codec.PackIsShiftOr | extensions/internal/git/log.go:87 | the arithmetic packing agrees with the byte expression `op<<4 \| col` for every op and col below 16 |
| Codec.UnpackPack | extensions/internal/git/log.go:73-80 | every byte is the packing of its own two nibbles |
| Codec.ColumnCeiling | extensions/internal/git/log.go:81-83 | the 16-column ceiling: an equality tag on column 16 collides with the one on column 0 |
| Codec.Enc | extensions/internal/git/log.go:152 | the hexadecimal stand-in for `enc` (see "Left out") writes two characters per bitmap byte; log.go itself relies only on its round trip with `dec` |
| Codec.Dec | extensions/internal/git/log.go:179 | the hexadecimal stand-in for `dec` (see "Left out"): a successful decode has half as many bytes as the string has characters |
| Codec.DecodeOrEmpty | extensions/internal/git/log.go:179 | `var bitmap, _ = dec(s)`: a discarded decode error leaves an empty bitmap, so a non-empty bitmap is always a successful decode; it is never longer than half the string |
| Codec.DecEnc | extensions/internal/git/log.go:152-179 | Filter decodes exactly the bitmap BestIndex encoded |
| Planner.Unanswerable | extensions/internal/git/log.go:95-102 | the guards that fail planning: they need an unusable constraint, and a constraint on `ref` (column 10) is never one of them |
| Planner.Pushed | extensions/internal/git/log.go:105-129 | the case guards: a pushed constraint is usable, never one that fails planning, and its column fits the low nibble |
| Planner.TagOf | extensions/internal/git/log.go:115-134 | the `set` call of each case: the tag carries the constraint's column in its low nibble and op 1 (EQ), 2 (LT) or 3 (GT) in its high nibble |
| Planner.UsageFor | extensions/internal/git/log.go:116-136 | a constraint gets a usage exactly when it is pushed; its argv slot is one more than the number of tags before it, and Omit is set exactly for repository and ref |
| Planner.SortedByCommitterDesc | extensions/internal/git/log.go:147 | the ORDER BY sqlite may drop is a single term, committer_when descending |
| Planner.Tags | extensions/internal/git/log.go:85-141 | at most one tag per constraint examined, in constraint order |
| Planner.PushDown | extensions/internal/git/log.go:85-142 | the constraint loop fails iff some hash or repository constraint is unusable; otherwise it leaves exactly the bitmap of tags, one usage per pushed constraint and the unique flag iff a usable hash EQ exists |
| Planner.BestIndex | extensions/internal/git/log.go:84-155 | fails with SQLITE_CONSTRAINT iff some hash or repository constraint is unusable; otherwise: a usage exactly for the pushed constraints (hash EQ, repository/ref EQ, committer_when LT/GT, all usable), with argv slot 1 + the number pushed before it; Omit exactly for repository/ref; non-nil usages as many as bitmap bytes; index string = encoded bitmap; unique flag and cost/rows 1 iff a usable hash EQ exists; OrderByConsumed iff the only ORDER BY term is committer_when DESC |
| Planner.TagDispatchable | extensions/internal/git/log.go:109-137 | each emitted tag is one of 0x10, 0x19, 0x1A, 0x27, 0x37, the bytes Filter's switch handles |
| Planner.TagsDispatchable | extensions/internal/git/log.go:109-141 | every byte the loop has emitted so far is one Filter dispatches on |
| Planner.BitmapDispatchable | extensions/internal/git/log.go:109-141 | every bitmap byte is one Filter dispatches on |
| Planner.TagsPrefix | extensions/internal/git/log.go:85-141 | the bitmap only grows, so earlier bytes never change |
| Planner.ArgvAligned | extensions/internal/git/log.go:64-71 | bitmap[ArgvIndex-1] is the tag of the constraint given that ArgvIndex |
| Planner.ArgvIncreasing | extensions/internal/git/log.go:109-140 | argv slots increase in constraint order |
| Planner.TagsCovered | extensions/internal/git/log.go:109-140 | every position of the bitmap built from the first n constraints is the slot of one of those constraints |
| Planner.ArgvCovers | extensions/internal/git/log.go:109-140 | every bitmap position is the slot of some pushed constraint, so the slots are exactly 1..argv |
| Planner.UsedMatchesTags | extensions/internal/git/log.go:109-140 | the number of non-nil usages equals the bitmap length |
| Routing.SlotOfTag | extensions/internal/git/log.go:181-191 | a byte selects hash, path, refName, end or start iff it equals set(1,0), set(1,9), set(1,10), set(2,7) or set(3,7); `0b0100111` is set(2,7) and `0b0110111` is set(3,7) |
| Routing.SlotOf | extensions/internal/git/log.go:181-191 | Filter's switch: a byte it handles has op 1..3 in its high nibble and column 0, 7, 9 or 10 in its low nibble, and the column is 7 exactly when the op is a range (2 or 3) |
| Routing.Route | extensions/internal/git/log.go:176-193 | the routing of all values: every slot is empty or holds one of the bound values |
| Routing.Put | extensions/internal/git/log.go:181-192 | one arm of the switch writes the selected slot and leaves the others; an unknown byte writes nothing |
| Routing.DecodeArgs | extensions/internal/git/log.go:176-193 | the routing loop computes the routing of every value through the bitmap |
| Routing.RouteUnset | extensions/internal/git/log.go:176-193 | a slot no value is routed to stays empty |
| Routing.RouteLastWrite | extensions/internal/git/log.go:180-193 | a slot holds the last value routed to it |
| Protocol.TagRoutesToIntendedSlot | extensions/internal/git/log.go:113-137 | Filter sends each planner tag to the slot meant for its constraint: hash, repository to path, ref to refName, LT to end, GT to start |
| Protocol.DispatchTagIsRouted | extensions/internal/git/log.go:181-191 | the planner's dispatch bytes are exactly the bytes Filter's switch handles |
| Protocol.SlotAtArgv | extensions/internal/git/log.go:64-71 | the byte at a pushed constraint's argv position routes to that constraint's slot |
| Protocol.ValueReachesSlot | extensions/internal/git/log.go:59-71 | after the round trip through the index string, the value bound to a pushed constraint reaches its slot unless a later one targets the same slot |
| Protocol.LaterPositionElsewhere | extensions/internal/git/log.go:64-71 | a pushed constraint's argv position is never the position of a later pushed constraint |
| Protocol.SlotUnplanned | extensions/internal/git/log.go:176-193 | a slot no pushed constraint targets stays empty in Filter |
| Cursor.CurrentOf | extensions/internal/git/log.go:329 | there is a current commit exactly when the iterator yielded one |
| Cursor.Reported | extensions/internal/git/log.go:328-337 | Next reports no error on a commit, end of iteration or object-not-found, and returns every other error unchanged |
| Cursor.DrainedIsStable | extensions/internal/git/log.go:328-337 | on a drained iterator, Next yields no row and no error and changes nothing |
| Cursor.OpenRepo | extensions/internal/git/log.go:195-209 | a bound path is opened, otherwise the context's default; a default-path error is returned unchanged, an open failure is wrapped with the path |
| Cursor.ResolveStart | extensions/internal/git/log.go:219-235 | an explicit ref takes precedence over HEAD; failing to resolve either is an error; the ref error drops its cause, the HEAD error keeps it |
| Cursor.LoadMailmap | extensions/internal/git/log.go:239-273 | a missing .mailmap (ErrFileNotFound on the file lookup) is not an error; the mailmap is loaded exactly when the commit, tree, file and contents can be read and the contents parse, and it is then the parse of those contents; every other failure aborts the load |
| Cursor.Retained | extensions/internal/git/log.go:265-273 | the cursor's mailmap is replaced only by a successfully loaded one |
| Cursor.Bound | extensions/internal/git/log.go:275-289 | a bound is set exactly when its text is non-empty and parses as RFC 3339; otherwise it is dropped |
| Cursor.Proper | extensions/internal/git/log.go:301-302 | without a mailmap an identity maps to itself |
| Cursor.LogCursor.constructor | extensions/internal/git/log.go:53-55 | a new cursor keeps the options, plumbing and library it is built with, and has no repository, revision, commit, iterator or mailmap |
| Cursor.LogCursor.Filter | extensions/internal/git/log.go:169-217 | an unopenable repository changes nothing; otherwise the repository is recorded, and a bound hash starts a single-hash lookup and returns Next's result without touching rev or mailmap; with no hash the result is as Scan states, including a failed log replacing the iterator with none |
| Cursor.LogCursor.Scan | extensions/internal/git/log.go:219-295 | rev is set to the ref; a resolve or mailmap failure returns its error without moving the cursor; a log failure returns its error and leaves no iterator (the current commit stays); otherwise the log starts from the resolved commit with the parsed bounds (start as Since, end as Until) and the cursor is positioned by Next |
| Cursor.LogCursor.Next | extensions/internal/git/log.go:328-337 | advances the iterator one step; the current commit is the yielded commit or none; the error is as Reported says; other fields unchanged |
| Cursor.LogCursor.Eof | extensions/internal/git/log.go:339 | true exactly when there is no current commit; otherwise, when there is an iterator, the current commit is the last step it produced |
| Cursor.LogCursor.Close | extensions/internal/git/log.go:341-346 | closes the iterator only when there is one, changes nothing else, and always returns nil |
| Cursor.LogCursor.Column | extensions/internal/git/log.go:298-326 | columns 0..8 give hash, message, mapped author name/email, author time, mapped committer name/email, committer time, parent count; any other column (9 and 10 included) writes nothing; no cursor field changes |
| Cursor.LogCursor.ColumnWithoutMailmap | extensions/internal/git/log.go:301-318 | with no mailmap loaded the identity columns show the raw signatures |
| Cursor.LogCursor.CommitterWhenRoundTrips | extensions/internal/git/log.go:319-320 | committer_when is written with formatTime; assuming parseTime inverts formatTime on that instant, the column's text used as a bound gives back the commit's instant |

## Left out

- `enc` and `dec` are not part of this model: they are defined outside `log.go`. `Codec.Enc`/`Codec.Dec` stand in for them as a hexadecimal pair. The model uses only their round trip (`Codec.DecEnc`).
- When `dec` fails, Filter discards the error. The model then uses an empty bitmap.
- Filter's precondition requires no more values than bitmap bytes. The source indexes `bitmap[i]` without a check, and that would panic.
- Cursor.LogCursor.Next: requires an iterator. sqlite calls Filter before Next, and Go would dereference nil otherwise.
- Cursor.LogCursor.Column: requires a current commit, for the same reason.
- go-git is an oracle. The model does not capture how `Head`, `ResolveRevision`, `CommitObject`, `Tree`, `File`, `Contents`, the single-hash lookup iterator and `repo.Log` work. That includes the descending committer-time order of the log and whether Since/Until bounds are inclusive.
- Each call of an iterator's Next consumes one step. Whether go-git's iterators advance past a failing step is not modelled.
- RFC 3339 parsing and formatting are oracles (`Library.parseTime`, `Library.formatTime`). So are `mailmap.Parse` and `MailMap.Lookup`. The zero mailmap is taken to map every identity to itself.
- An error from the context's `GetBool("skipMailmap")` is ignored by the source. The model takes the flag as a plain boolean.
- Not modelled:
  - `EstimatedCost` is a float in the source; the model uses integers, 1 when set and 0 (the Go zero value) otherwise.
  - Logging, the schema DDL in `Connect`, `Disconnect`, `Destroy`, `Rowid` (always 0) and the unused `idxNum` argument of Filter.
  - Refilling a cursor does not close its previous iterator; the model does not track that.
- The rest of the repository is out of scope: driver registration, module options and the SQL function tests.
