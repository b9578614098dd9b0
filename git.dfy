/**
 * The collaborators the `commits` cursor calls but does not implement: the
 * repository locator, go-git's plumbing, RFC 3339 time parsing and
 * formatting, and the mailmap package. Each is an oracle, a record of total
 * functions the cursor is constructed with; repositories and mailmaps are
 * opaque handles.
 */
module Git {
  import opened Wrappers

  /** A commit hash, as its hexadecimal text. */
  type Hash = string

  /** An instant; only its identity matters to the cursor. */
  datatype Time = Time(instant: int)

  datatype Signature = Signature(name: string, email: string, when: Time)

  datatype Commit = Commit(hash: Hash, message: string, author: Signature, committer: Signature, parents: nat)

  /** An error value handed back by a collaborator. `EndOfIteration` is
      io.EOF, `ObjectNotFound` is plumbing.ErrObjectNotFound, `FileNotFound`
      is object.ErrFileNotFound. */
  datatype GitError = EndOfIteration | ObjectNotFound | FileNotFound | Failure(message: string)

  /** One result of a commit iterator's Next: a commit or an error. */
  datatype Step = Yield(commit: Commit) | Fail(error: GitError)

  datatype Repository = Repository(handle: nat)
  datatype Tree = Tree(handle: nat)
  datatype Blob = Blob(handle: nat)

  /** git.LogOptions with Order fixed to LogOrderCommitterTime. */
  datatype LogOptions = LogOptions(from: Hash, since: Option<Time>, until: Option<Time>)

  /** mailmap.NameAndEmail */
  datatype Ident = Ident(name: string, email: string)

  datatype MailMap = MailMap(handle: nat)

  /** go-git, on an opened repository. `lookup` is the one step of the
      commit iterator over the single-hash object lookup; `log` is the
      sequence of steps of repo.Log, or the error creating it. */
  datatype Plumbing = Plumbing(
    head: Repository -> Result<Hash, GitError>,
    resolveRevision: (Repository, string) -> Result<Hash, GitError>,
    lookup: (Repository, Hash) -> Step,
    commitObject: (Repository, Hash) -> Result<Commit, GitError>,
    tree: (Repository, Commit) -> Result<Tree, GitError>,
    file: (Repository, Tree, string) -> Result<Blob, GitError>,
    contents: (Repository, Blob) -> Result<string, GitError>,
    log: (Repository, LogOptions) -> Result<seq<Step>, GitError>)

  /** time.Parse(time.RFC3339, _), Time.Format(time.RFC3339),
      mailmap.Parse and MailMap.Lookup. */
  datatype Library = Library(
    parseTime: string -> Option<Time>,
    formatTime: Time -> string,
    parseMailmap: string -> Result<MailMap, GitError>,
    lookup: (MailMap, Ident) -> Ident)

  /** The module options a cursor reads: the locator, the default repository
      path from the query context, and the context's "skipMailmap" flag
      (false when it is not set). */
  datatype ModuleOptions = ModuleOptions(
    locate: string -> Result<Repository, GitError>,
    defaultRepo: Result<string, GitError>,
    skipMailmap: bool)
}
