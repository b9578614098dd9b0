/**
 * The cursor of the `commits` virtual table: Filter, Next, Eof, Close and
 * Column (extensions/internal/git/log.go:157-346).
 */
module Cursor {
  import opened Wrappers
  import opened Git
  import Codec
  import Routing

  /** A commit iterator: the steps it will produce and how many it has
      produced so far. */
  datatype CommitIter = CommitIter(items: seq<Step>, pos: nat, closed: bool)
  {
    ghost predicate Valid()
    {
      pos <= |items|
    }

    /** What the iterator's Next returns: the next step, or io.EOF once
        every step has been produced. */
    function Pull(): Step
      requires Valid()
    {
      if pos < |items| then items[pos] else Fail(EndOfIteration)
    }

    /** The iterator after its Next. */
    function Advanced(): (it: CommitIter)
      requires Valid()
      ensures it.Valid()
    {
      if pos < |items| then this.(pos := pos + 1) else this
    }
  }

  /** A fresh iterator over the given steps. */
  function Iterate(items: seq<Step>): CommitIter
  {
    CommitIter(items, 0, false)
  }

  /** Errors that Next treats as the end of the rows. */
  predicate Swallowed(e: GitError)
  {
    e == EndOfIteration || e == ObjectNotFound
  }

  /** The current commit after a step. */
  function CurrentOf(st: Step): (c: Option<Commit>)
    ensures c.Some? <==> st.Yield?
  {
    if st.Yield? then Some(st.commit) else None
  }

  /** The error Next returns after a step. */
  function Reported(st: Step): (r: Option<GitError>)
    ensures r.None? <==> (st.Yield? || Swallowed(st.error))
    ensures r.Some? ==> st == Fail(r.value)
  {
    match st
    case Yield(_) => None
    case Fail(e) => if e == EndOfIteration || e == ObjectNotFound then None else Some(e)
  }

  /** A drained iterator stays drained: Next produces no row and no error and
      changes nothing. */
  lemma DrainedIsStable(it: CommitIter)
    requires it.Valid() && it.pos == |it.items|
    ensures CurrentOf(it.Pull()) == None && Reported(it.Pull()) == None
    ensures it.Advanced() == it
  {
  }

  /** The errors Filter returns. `Raw` is an error returned unchanged (from
      the default-repository lookup and from Next); the others are the
      wrapped errors, each with what was being resolved. */
  datatype FilterError =
    | Raw(cause: GitError)
    | OpenFailed(path: string, cause: GitError)
    | ResolveFailed(refName: string)
    | HeadFailed(cause: GitError)
    | CommitLookupFailed(cause: GitError)
    | TreeLookupFailed(cause: GitError)
    | MailmapLookupFailed(cause: GitError)
    | MailmapReadFailed(cause: GitError)
    | MailmapParseFailed(cause: GitError)
    | IteratorFailed(cause: GitError)

  function Lift(e: Option<GitError>): Option<FilterError>
  {
    match e
    case None => None
    case Some(g) => Some(Raw(g))
  }

  /** The arguments Filter routes out of the index string and the values. */
  function Args(s: string, values: seq<string>): Routing.FilterArgs
    requires |values| <= |Codec.DecodeOrEmpty(s)|
  {
    Routing.Route(Codec.DecodeOrEmpty(s), values)
  }

  /** The repository Filter opens: the bound path, else the context's
      default, through the locator. */
  function OpenRepo(options: ModuleOptions, path: string): (r: Result<Repository, FilterError>)
    ensures path != "" ==> r == match options.locate(path)
                                case Ok(repo) => Ok(repo)
                                case Err(e) => Err(OpenFailed(path, e))
    ensures path == "" ==> r == match options.defaultRepo
                                case Err(e) => Err(Raw(e))
                                case Ok(p) =>
                                  match options.locate(p)
                                  case Ok(repo) => Ok(repo)
                                  case Err(e) => Err(OpenFailed(p, e))
  {
    var p := if path != "" then Ok(path) else options.defaultRepo;
    match p
    case Err(e) => Err(Raw(e))
    case Ok(p) =>
      match options.locate(p)
      case Err(e) => Err(OpenFailed(p, e))
      case Ok(repo) => Ok(repo)
  }

  /** The commit a scan starts from: an explicit ref takes precedence over
      HEAD, and failing to resolve the one chosen is an error. */
  function ResolveStart(git: Plumbing, repo: Repository, refName: string): (r: Result<Hash, FilterError>)
    ensures refName != "" ==> r == match git.resolveRevision(repo, refName)
                                   case Ok(h) => Ok(h)
                                   case Err(_) => Err(ResolveFailed(refName))
    ensures refName == "" ==> r.Ok? == git.head(repo).Ok?
    ensures refName == "" && r.Ok? ==> r.value == git.head(repo).value
    ensures refName == "" && r.Err? ==> r.error == HeadFailed(git.head(repo).error)
  {
    if refName != "" then
      match git.resolveRevision(repo, refName)
      case Err(_) => Err(ResolveFailed(refName))
      case Ok(h) => Ok(h)
    else
      match git.head(repo)
      case Err(e) => Err(HeadFailed(e))
      case Ok(h) => Ok(h)
  }

  /** The text of the .mailmap in the start commit's tree, when the commit,
      its tree, the file and its contents can all be read. */
  function MailmapText(git: Plumbing, repo: Repository, from: Hash): Option<string>
  {
    match git.commitObject(repo, from)
    case Err(_) => None
    case Ok(c) =>
      match git.tree(repo, c)
      case Err(_) => None
      case Ok(t) =>
        match git.file(repo, t, ".mailmap")
        case Err(_) => None
        case Ok(f) =>
          match git.contents(repo, f)
          case Err(_) => None
          case Ok(text) => Some(text)
  }

  /** The outcome of looking for a .mailmap at the start commit. */
  datatype MailmapLoad = Loaded(mm: MailMap) | NotLoaded | LoadFailed(error: FilterError)

  /** Reads the .mailmap of the start commit's tree. A missing file is
      not an error; every other failure on the way is. */
  function LoadMailmap(git: Plumbing, lib: Library, repo: Repository, from: Hash): (r: MailmapLoad)
    ensures r.NotLoaded? <==>
              && git.commitObject(repo, from).Ok?
              && git.tree(repo, git.commitObject(repo, from).value).Ok?
              && git.file(repo, git.tree(repo, git.commitObject(repo, from).value).value, ".mailmap") == Err(FileNotFound)
    ensures r.Loaded? <==>
              MailmapText(git, repo, from).Some? && lib.parseMailmap(MailmapText(git, repo, from).value).Ok?
    ensures r.Loaded? ==> Ok(r.mm) == lib.parseMailmap(MailmapText(git, repo, from).value)
  {
    match git.commitObject(repo, from)
    case Err(e) => LoadFailed(CommitLookupFailed(e))
    case Ok(c) =>
      match git.tree(repo, c)
      case Err(e) => LoadFailed(TreeLookupFailed(e))
      case Ok(t) =>
        match git.file(repo, t, ".mailmap")
        case Err(e) => if e == FileNotFound then NotLoaded else LoadFailed(MailmapLookupFailed(e))
        case Ok(f) =>
          match git.contents(repo, f)
          case Err(e) => LoadFailed(MailmapReadFailed(e))
          case Ok(text) =>
            match lib.parseMailmap(text)
            case Err(e) => LoadFailed(MailmapParseFailed(e))
            case Ok(mm) => Loaded(mm)
  }

  /** The cursor's mailmap after a load that did not fail: the loaded one,
      or else the one the cursor already held. */
  function Retained(load: MailmapLoad, previous: Option<MailMap>): (r: Option<MailMap>)
    ensures load.Loaded? ==> r == Some(load.mm)
    ensures !load.Loaded? ==> r == previous
  {
    match load
    case Loaded(m) => Some(m)
    case _ => previous
  }

  /** A range bound: the parsed RFC 3339 instant, or none when the text is
      empty or does not parse. */
  function Bound(lib: Library, text: string): (r: Option<Time>)
    ensures r.Some? <==> text != "" && lib.parseTime(text).Some?
    ensures r.Some? ==> r == lib.parseTime(text)
  {
    if text == "" then None
    else match lib.parseTime(text)
      case Some(t) => Some(t)
      case None => None
  }

  /** MailMap.Lookup, with the zero mailmap mapping every identity to itself. */
  function Proper(lib: Library, mm: Option<MailMap>, id: Ident): (r: Ident)
    ensures mm.None? ==> r == id
  {
    match mm
    case None => id
    case Some(m) => lib.lookup(m, id)
  }

  /** A result written by Column. */
  datatype Value = Text(text: string) | Int(n: int)

  class LogCursor {
    const options: ModuleOptions
    const git: Plumbing
    const lib: Library

    var repo: Option<Repository>
    var rev: Option<string>
    var commit: Option<Commit>
    var commits: Option<CommitIter>
    var mm: Option<MailMap>

    /** The current commit, when there is one alongside an iterator, is the
        last step that iterator produced. A scan whose log cannot be started
        drops the iterator but leaves the current commit. */
    ghost predicate Valid()
      reads this
    {
      && (commits.Some? ==> commits.value.Valid())
      && (commit.Some? && commits.Some? ==>
            0 < commits.value.pos
            && commits.value.items[commits.value.pos - 1] == Yield(commit.value))
    }

    /** gitLogTable.Open: a cursor with nothing set. */
    constructor(options: ModuleOptions, git: Plumbing, lib: Library)
      ensures Valid()
      ensures this.options == options && this.git == git && this.lib == lib
      ensures repo == None && rev == None && commit == None && commits == None && mm == None
    {
      this.options := options;
      this.git := git;
      this.lib := lib;
      repo, rev, commit, commits, mm := None, None, None, None, None;
    }

    /** Advances to the next commit. End of iteration and a missing object
        are not errors; any other error is returned unchanged. Requires an
        iterator, which sqlite guarantees by calling Filter first. */
    method Next() returns (err: Option<GitError>)
      requires commits.Some? && commits.value.Valid()
      modifies this
      ensures Valid()
      ensures commits == Some(old(commits.value.Advanced()))
      ensures commit == CurrentOf(old(commits.value.Pull()))
      ensures err == Reported(old(commits.value.Pull()))
      ensures repo == old(repo) && rev == old(rev) && mm == old(mm)
    {
      var it := commits.value;
      var st := it.Pull();
      commits := Some(it.Advanced());
      match st {
        case Yield(c) =>
          commit := Some(c);
          err := None;
        case Fail(e) =>
          commit := None;
          if e != EndOfIteration && e != ObjectNotFound {
            return Some(e);
          }
          err := None;
      }
    }

    /** True exactly when there is no current commit. */
    predicate Eof()
      reads this
      ensures Eof() <==> commit.None?
      ensures Valid() && !Eof() && commits.Some? ==>
                0 < commits.value.pos <= |commits.value.items|
                && commits.value.items[commits.value.pos - 1] == Yield(commit.value)
    {
      commit == None
    }

    /** Releases the iterator, if there is one; never fails. */
    method Close() returns (err: Option<GitError>)
      requires Valid()
      modifies this
      ensures Valid()
      ensures err == None
      ensures commits == if old(commits).Some? then Some(old(commits).value.(closed := true)) else None
      ensures commit == old(commit) && repo == old(repo) && rev == old(rev) && mm == old(mm)
    {
      if commits.Some? {
        commits := Some(commits.value.(closed := true));
      }
      return None;
    }

    /** The value of a column of the current commit. Names and emails go
        through the mailmap; the hidden columns 9 and 10, like any other
        column outside 0..8, get no result. */
    function Column(col: int): (r: Option<Value>)
      reads this
      requires commit.Some?
      ensures r.Some? <==> 0 <= col <= 8
      ensures col == 0 ==> r == Some(Text(commit.value.hash))
      ensures col == 1 ==> r == Some(Text(commit.value.message))
      ensures col == 2 ==> r == Some(Text(Proper(lib, mm, Ident(commit.value.author.name, commit.value.author.email)).name))
      ensures col == 3 ==> r == Some(Text(Proper(lib, mm, Ident(commit.value.author.name, commit.value.author.email)).email))
      ensures col == 4 ==> r == Some(Text(lib.formatTime(commit.value.author.when)))
      ensures col == 5 ==> r == Some(Text(Proper(lib, mm, Ident(commit.value.committer.name, commit.value.committer.email)).name))
      ensures col == 6 ==> r == Some(Text(Proper(lib, mm, Ident(commit.value.committer.name, commit.value.committer.email)).email))
      ensures col == 7 ==> r == Some(Text(lib.formatTime(commit.value.committer.when)))
      ensures col == 8 ==> r == Some(Int(commit.value.parents))
    {
      var c := commit.value;
      var committerSig := Proper(lib, mm, Ident(c.committer.name, c.committer.email));
      var authorSig := Proper(lib, mm, Ident(c.author.name, c.author.email));
      if col == 0 then Some(Text(c.hash))
      else if col == 1 then Some(Text(c.message))
      else if col == 2 then Some(Text(authorSig.name))
      else if col == 3 then Some(Text(authorSig.email))
      else if col == 4 then Some(Text(lib.formatTime(c.author.when)))
      else if col == 5 then Some(Text(committerSig.name))
      else if col == 6 then Some(Text(committerSig.email))
      else if col == 7 then Some(Text(lib.formatTime(c.committer.when)))
      else if col == 8 then Some(Int(c.parents))
      else None
    }

    /** Without a mailmap, the identity columns show the raw signatures. */
    lemma ColumnWithoutMailmap()
      requires commit.Some? && mm.None?
      ensures Column(2) == Some(Text(commit.value.author.name))
      ensures Column(3) == Some(Text(commit.value.author.email))
      ensures Column(5) == Some(Text(commit.value.committer.name))
      ensures Column(6) == Some(Text(commit.value.committer.email))
    {
    }

    /** committer_when is written in the format range bounds are parsed in:
        when RFC 3339 parsing inverts formatting, the column's text used as a
        bound gives back the commit's own instant. */
    lemma CommitterWhenRoundTrips()
      requires commit.Some?
      requires lib.formatTime(commit.value.committer.when) != ""
      requires lib.parseTime(lib.formatTime(commit.value.committer.when)) == Some(commit.value.committer.when)
      ensures Column(7).Some? && Column(7).value.Text?
      ensures Bound(lib, Column(7).value.text) == Some(commit.value.committer.when)
    {
    }

    /** Routes the values by the index string, opens the repository and
        positions the cursor on the first commit of either a single-hash
        lookup or a scan from the explicit ref or HEAD. */
    method Filter(s: string, values: seq<string>) returns (err: Option<FilterError>)
      requires Valid()
      requires |values| <= |Codec.DecodeOrEmpty(s)|
      modifies this
      ensures Valid()
      // the repository could not be found or located: nothing changes
      ensures var path := Args(s, values).path;
              OpenRepo(options, path).Err? ==>
                err == Some(OpenRepo(options, path).error)
                && repo == old(repo) && rev == old(rev) && commit == old(commit)
                && commits == old(commits) && mm == old(mm)
      ensures var path := Args(s, values).path;
              OpenRepo(options, path).Ok? ==> repo == Some(OpenRepo(options, path).value)
      // a bound hash: a single-hash lookup, skipping ref, mailmap and bounds
      ensures var args := Args(s, values);
              var located := OpenRepo(options, args.path);
              located.Ok? && args.hash != "" ==>
                var it := Iterate([git.lookup(located.value, args.hash)]);
                && commits == Some(it.Advanced())
                && commit == CurrentOf(it.Pull())
                && err == Lift(Reported(it.Pull()))
                && rev == old(rev) && mm == old(mm)
      // otherwise a scan from the explicit ref or HEAD
      ensures var args := Args(s, values);
              var located := OpenRepo(options, args.path);
              located.Ok? && args.hash == "" ==> ScanStarted(located.value, args, err)
    {
      var args := Routing.DecodeArgs(Codec.DecodeOrEmpty(s), values);

      // open the git repository
      var located := OpenRepo(options, args.path);
      if located.Err? {
        return Some(located.error);
      }
      var r := located.value;
      repo := Some(r);

      if args.hash != "" {
        // only a single commit is needed
        commits := Some(Iterate([git.lookup(r, args.hash)]));
        var e := Next();
        return Lift(e);
      }

      err := Scan(r, args);
    }

    /** The state and error a scan of the repository leaves, relative to the
        state before it. */
    twostate predicate ScanStarted(r: Repository, args: Routing.FilterArgs, new err: Option<FilterError>)
      reads this
    {
      && rev == Some(args.refName)
      && match ResolveStart(git, r, args.refName)
         case Err(e) =>
           err == Some(e) && commit == old(commit) && commits == old(commits) && mm == old(mm)
         case Ok(from) =>
           var load := if options.skipMailmap then NotLoaded else LoadMailmap(git, lib, r, from);
           match load
           case LoadFailed(e) =>
             err == Some(e) && commit == old(commit) && commits == old(commits) && mm == old(mm)
           case _ =>
             && mm == Retained(load, old(mm))
             && var opts := LogOptions(from, Bound(lib, args.start), Bound(lib, args.end));
                match git.log(r, opts)
                case Err(e) =>
                  err == Some(IteratorFailed(e)) && commit == old(commit) && commits == None
                case Ok(items) =>
                  var it := Iterate(items);
                  && commits == Some(it.Advanced())
                  && commit == CurrentOf(it.Pull())
                  && err == Lift(Reported(it.Pull()))
    }

    /** The scan branch of Filter: resolve the start commit, load the mailmap
        unless the context skips it, parse the bounds and start the log. */
    method Scan(r: Repository, args: Routing.FilterArgs) returns (err: Option<FilterError>)
      requires Valid()
      modifies this
      ensures Valid()
      ensures repo == old(repo)
      ensures ScanStarted(r, args, err)
    {
      rev := Some(args.refName);
      var start := ResolveStart(git, r, args.refName);
      if start.Err? {
        return Some(start.error);
      }
      var from := start.value;

      if !options.skipMailmap {
        var load := LoadMailmap(git, lib, r, from);
        match load {
          case LoadFailed(e) =>
            return Some(e);
          case Loaded(m) =>
            mm := Some(m);
          case NotLoaded =>
        }
      }

      // a bound that does not parse as RFC 3339 is dropped
      var since := Bound(lib, args.start);
      var until := Bound(lib, args.end);
      var log := git.log(r, LogOptions(from, since, until));
      if log.Err? {
        // the failed call still overwrites the iterator, with none
        commits := None;
        return Some(IteratorFailed(log.error));
      }
      commits := Some(Iterate(log.value));
      var e := Next();
      return Lift(e);
    }
  }
}
