/** core/engine/fileshare/handlers.go and backend.go: what each SFTP request may do to the shared files. */
module Share {
  import opened Common
  import opened Paths
  import opened Backend
  import opened Files

  datatype Mode = ReadOnly | ReadWrite | WriteOnly

  predicate CanRead(m: Mode) { m != WriteOnly }

  predicate CanWrite(m: Mode) { m != ReadOnly }

  /** What a share serves: one directory, or a picked set of paths. */
  datatype Store = DirStore | PickStore(byName: map<string, Item>)

  /** The calls of the backend interface, with paths relative to the share. */
  datatype Call =
    | COpen(rel: string)
    | COpenFile(rel: string, flags: Flags)
    | CStat(rel: string)
    | CLstat(rel: string)
    | CReadDir(rel: string)
    | CReadlink(rel: string)
    | CMkdir(rel: string)
    | CRemove(rel: string)
    | CRename(rel: string, to: string)
    | CSymlink(target: string, rel: string)
    | CLink(from: string, rel: string)
    | CChmod(rel: string, mode: int)
    | CChtimes(rel: string, mtime: int)

  datatype Answer =
    | Failed(e: Errno)
    | Done
    | Opened(at: Path)
    | Info(node: Node)
    | Infos(names: set<string>)
    | LinkTo(target: string)

  function Reply(r: (Disk, Option<Errno>)): (Disk, Answer) {
    (r.0, match r.1 { case None => Done case Some(e) => Failed(e) })
  }

  function NodeAt(d: Disk, p: Path): Answer {
    if IsDir(d, p) then Info(Dir) else if p in d.nodes then Info(d.nodes[p]) else Failed(NotExist)
  }

  function OpenAt(d: Disk, p: Path): Answer {
    if IsDir(d, p) || (p in d.nodes && d.nodes[p].File?) then Opened(p) else Failed(NotExist)
  }

  function ReadDirAt(d: Disk, p: Path): Answer {
    if IsDir(d, p) then Infos(Children(d, p)) else Failed(NotExist)
  }

  /** dirBackend: every call goes to the one directory. */
  function InDir(d: Disk, c: Call): (Disk, Answer) {
    var p := Target(c.rel);
    match c
    case COpen(_) => (d, OpenAt(d, p))
    case COpenFile(_, f) =>
      var r := OpenFile(d, p, f);
      (r.0, match r.1 { case None => Opened(p) case Some(e) => Failed(e) })
    case CStat(_) => (d, NodeAt(d, p))
    case CLstat(_) => (d, NodeAt(d, p))
    case CReadDir(_) => (d, ReadDirAt(d, p))
    case CReadlink(_) => (d, if p in d.nodes && d.nodes[p].Link? then LinkTo(d.nodes[p].target) else Failed(Other))
    case CMkdir(_) => Reply(Mkdir(d, p))
    case CRemove(_) => Reply(Remove(d, p))
    case CRename(_, to) => Reply(Rename(d, p, Target(to)))
    case CSymlink(target, _) => Reply(Symlink(d, target, p))
    case CLink(from, _) => Reply(HardLink(d, Target(from), p))
    case CChmod(_, mode) => Reply(Chmod(d, p, mode))
    case CChtimes(_, mtime) => Reply(Chtimes(d, p, mtime))
  }

  /** The host path behind a path of a picked share, if its first name is on offer. */
  function HostPath(byName: map<string, Item>, rel: string): Option<Path> {
    match Locate(byName, rel)
    case None => None
    case Some((e, sub)) => if !e.isDir && sub != "." then None else Some(Target(e.path) + Target(sub))
  }

  function OpenPicked(byName: map<string, Item>, d: Disk, rel: string): Answer {
    match HostPath(byName, rel)
    case None => Failed(NotExist)
    case Some(p) => OpenAt(d, p)
  }

  predicate IsRoot(rel: string) {
    rel == "." || rel == ""
  }

  function StatPicked(byName: map<string, Item>, d: Disk, rel: string): Answer {
    if IsRoot(rel) then Info(Dir)
    else
      match HostPath(byName, rel)
      case None => Failed(NotExist)
      case Some(p) => NodeAt(d, p)
  }

  /** pathsBackend: reads go to the picked paths, everything that could write is refused. */
  function InPicks(byName: map<string, Item>, d: Disk, c: Call): (Disk, Answer) {
    match c
    case COpen(rel) => (d, OpenPicked(byName, d, rel))
    case COpenFile(rel, f) =>
      if f.write || f.create || f.trunc || f.append then (d, Failed(ReadOnlyShare)) else (d, OpenPicked(byName, d, rel))
    case CStat(rel) => (d, StatPicked(byName, d, rel))
    case CLstat(rel) => (d, StatPicked(byName, d, rel))
    case CReadDir(rel) =>
      if IsRoot(rel) then (d, Infos(set n | n in byName && (byName[n].isDir || Exists(d, Target(byName[n].path)))))
      else
        (d, match Locate(byName, rel)
            case None => Failed(NotExist)
            case Some((e, sub)) => if e.isDir then ReadDirAt(d, Target(e.path) + Target(sub)) else Failed(NotExist))
    case CReadlink(_) => (d, Failed(NotExist))
    case _ => (d, Failed(ReadOnlyShare))
  }

  function Perform(s: Store, d: Disk, c: Call): (Disk, Answer) {
    match s
    case DirStore => InDir(d, c)
    case PickStore(byName) => InPicks(byName, d, c)
  }

  // ---- requests ----

  datatype Method = MkdirM | SetstatM | RenameM | RmdirM | RemoveM | SymlinkM | LinkM | UnknownM

  datatype Attrs = Attrs(mode: Option<int>, mtime: Option<int>, size: Option<nat>)

  datatype Request =
    | Get(path: string)
    | PutReq(path: string, pflags: Flags, chunks: seq<Chunk>)
    | OpenReq(path: string, pflags: Flags, chunks: seq<Chunk>)
    | Cmd(meth: Method, path: string, target: string, attrs: Option<Attrs>)
    | List(path: string)
    | Stat(path: string)
    | Lstat(path: string)
    | Readlink(path: string)

  datatype Status = Okay | NoSuchFile | Denied | Failure | Unsupported

  /** mapErr. */
  function MapErr(e: Errno): Status {
    match e
    case NotExist => NoSuchFile
    case Permission => Denied
    case ReadOnlyShare => Denied
    case Exist => Failure
    case Other => Failure
  }

  function StatusOf(a: Answer): Status {
    if a.Failed? then MapErr(a.e) else Okay
  }

  /** The disk after a request, the status sent back, what was read, and the backend calls made. */
  datatype Outcome = Outcome(disk: Disk, status: Status, answer: Answer, calls: seq<Call>)

  function Refuse(d: Disk): Outcome {
    Outcome(d, Denied, Failed(Permission), [])
  }

  function Pass(s: Store, d: Disk, c: Call): Outcome {
    var (d', a) := Perform(s, d, c);
    Outcome(d', StatusOf(a), a, [c])
  }

  /** Writes through the handle an open call returned. */
  function OpenAndWrite(s: Store, d: Disk, rel: string, f: Flags, chunks: seq<Chunk>): Outcome {
    var o := Pass(s, d, COpenFile(rel, f));
    if o.answer.Opened? && !f.append then o.(disk := WriteAll(o.disk, o.answer.at, chunks)) else o
  }

  /** Fileread: a directory opens but is refused afterwards. */
  function Fileread(m: Mode, s: Store, d: Disk, path: string): Outcome {
    if !CanRead(m) then Refuse(d)
    else
      var o := Pass(s, d, COpen(Rel(path)));
      if o.answer.Opened? && IsDir(d, o.answer.at) then o.(status := Failure) else o
  }

  /** Setstat does what it can and never fails an upload. */
  function Setstat(m: Mode, s: Store, d: Disk, rel: string, attrs: Option<Attrs>): Outcome {
    match attrs
    case None => Outcome(d, Okay, Done, [])
    case Some(a) =>
      var o1 := if a.mode.Some? then Pass(s, d, CChmod(rel, a.mode.value)) else Outcome(d, Okay, Done, []);
      var o2 := if a.mtime.Some? then Pass(s, o1.disk, CChtimes(rel, a.mtime.value)) else Outcome(o1.disk, Okay, Done, []);
      var o3 :=
        if a.size.Some? && m != WriteOnly then
          var o := Pass(s, o2.disk, COpenFile(rel, Flags(false, true, false, false, false, false)));
          if o.answer.Opened? then o.(disk := Truncate(o.disk, o.answer.at, a.size.value)) else o
        else Outcome(o2.disk, Okay, Done, []);
      Outcome(o3.disk, Okay, Done, o1.calls + o2.calls + o3.calls)
  }

  function Filecmd(m: Mode, s: Store, d: Disk, meth: Method, path: string, target: string,
                   attrs: Option<Attrs>): Outcome {
    if !CanWrite(m) then Refuse(d)
    else if meth == MkdirM then Pass(s, d, CMkdir(Rel(path)))
    else if meth == SetstatM then Setstat(m, s, d, Rel(path), attrs)
    else if m == WriteOnly then Refuse(d)
    else
      match meth
      case RenameM => Pass(s, d, CRename(Rel(path), Rel(target)))
      case RmdirM => Pass(s, d, CRemove(Rel(path)))
      case RemoveM => Pass(s, d, CRemove(Rel(path)))
      case SymlinkM => Pass(s, d, CSymlink(target, Rel(path)))
      case LinkM => Pass(s, d, CLink(Rel(target), Rel(path)))
      case _ => Outcome(d, Unsupported, Failed(Other), [])
  }

  function Serve(m: Mode, s: Store, d: Disk, r: Request): Outcome {
    match r
    case Get(path) => Fileread(m, s, d, path)
    case PutReq(path, f, chunks) =>
      if !CanWrite(m) then Refuse(d) else OpenAndWrite(s, d, Rel(path), f.(write := true), chunks)
    case OpenReq(path, f, chunks) =>
      if !CanWrite(m) || !CanRead(m) then Refuse(d)
      else OpenAndWrite(s, d, Rel(path), Flags(true, true, f.create, f.trunc, false, false), chunks)
    case Cmd(meth, path, target, attrs) => Filecmd(m, s, d, meth, path, target, attrs)
    case List(path) => if !CanRead(m) then Refuse(d) else Pass(s, d, CReadDir(Rel(path)))
    case Stat(path) => Pass(s, d, CStat(Rel(path)))
    case Lstat(path) => Pass(s, d, CLstat(Rel(path)))
    case Readlink(path) => if !CanRead(m) then Refuse(d) else Pass(s, d, CReadlink(Rel(path)))
  }

  /** A client's whole conversation: the last disk and every backend call made. */
  function ServeAll(m: Mode, s: Store, d: Disk, rs: seq<Request>): (Disk, seq<Call>)
    decreases |rs|
  {
    if rs == [] then (d, [])
    else
      var o := Serve(m, s, d, rs[0]);
      var (d', calls) := ServeAll(m, s, o.disk, rs[1..]);
      (d', o.calls + calls)
  }

  // ---- the policy ----

  predicate Mutating(r: Request) {
    r.PutReq? || r.OpenReq? || r.Cmd?
  }

  predicate Reads(c: Call) {
    c.COpen? || c.CReadDir? || c.CReadlink?
  }

  lemma ReadCallKeeps(s: Store, d: Disk, c: Call)
    requires Reads(c) || c.CStat? || c.CLstat?
    ensures Perform(s, d, c).0 == d
  {
  }

  /** A read-only share refuses every writing request before it reaches the backend. */
  lemma ReadOnlyRefuses(s: Store, d: Disk, r: Request)
    ensures Serve(ReadOnly, s, d, r).disk == d
    ensures Mutating(r) ==> Serve(ReadOnly, s, d, r) == Refuse(d)
  {
    hide Perform, Rel, OpenAndWrite, Setstat;
    forall c | Reads(c) || c.CStat? || c.CLstat? ensures Perform(s, d, c).0 == d { ReadCallKeeps(s, d, c); }
  }

  /** Whatever a client sends, a read-only share leaves the filesystem as it was. */
  lemma {:induction false} ReadOnlyChangesNothing(s: Store, d: Disk, rs: seq<Request>)
    ensures ServeAll(ReadOnly, s, d, rs).0 == d
    decreases |rs|
  {
    if rs != [] {
      ReadOnlyRefuses(s, d, rs[0]);
      ReadOnlyChangesNothing(s, d, rs[1..]);
    }
  }

  lemma PickCall(byName: map<string, Item>, d: Disk, c: Call)
    ensures Perform(PickStore(byName), d, c).0 == d
    ensures c.COpenFile? && c.flags.write ==> Perform(PickStore(byName), d, c).1 == Failed(ReadOnlyShare)
  {
  }

  lemma PickedSetstat(m: Mode, byName: map<string, Item>, d: Disk, rel: string, attrs: Option<Attrs>)
    ensures Setstat(m, PickStore(byName), d, rel, attrs).disk == d
  {
  }

  lemma PickedKeepsDisk(m: Mode, byName: map<string, Item>, d: Disk, r: Request)
    ensures Serve(m, PickStore(byName), d, r).disk == d
    ensures r.PutReq? || r.OpenReq? ==> Serve(m, PickStore(byName), d, r).status == Denied
  {
    hide Perform, Setstat;
    forall c ensures Pass(PickStore(byName), d, c).disk == d { PickCall(byName, d, c); }
    match r {
      case PutReq(path, f, _) => PickCall(byName, d, COpenFile(Rel(path), f.(write := true)));
      case OpenReq(path, f, _) =>
        PickCall(byName, d, COpenFile(Rel(path), Flags(true, true, f.create, f.trunc, false, false)));
      case Cmd(_, path, _, attrs) => PickedSetstat(m, byName, d, Rel(path), attrs);
      case _ =>
    }
  }

  /** A picked set of paths stays untouched even in a mode that allows writing: the backend itself refuses. */
  lemma {:induction false} PickedChangesNothing(m: Mode, byName: map<string, Item>, d: Disk, rs: seq<Request>)
    ensures ServeAll(m, PickStore(byName), d, rs).0 == d
    decreases |rs|
  {
    if rs != [] {
      PickedKeepsDisk(m, byName, d, rs[0]);
      PickedChangesNothing(m, byName, d, rs[1..]);
    }
  }

  /** Nothing disappears and nothing turns into something else; only the contents of files may change. */
  ghost predicate OnlyGrows(d: Disk, d': Disk) {
    forall p :: p in d.nodes ==>
      p in d'.nodes && (d'.nodes[p] == d.nodes[p] || (d.nodes[p].File? && d'.nodes[p].File?))
  }

  lemma {:induction false} WriteAllGrows(d: Disk, p: Path, chunks: seq<Chunk>)
    ensures OnlyGrows(d, WriteAll(d, p, chunks))
    decreases |chunks|
  {
    if chunks != [] && p in d.nodes && d.nodes[p].File? {
      WriteAllGrows(Put(d, p, File(Splice(d.nodes[p].data, chunks[0].off, chunks[0].data))), p, chunks[1..]);
    }
  }

  lemma OpenGrows(s: Store, d: Disk, rel: string, f: Flags, chunks: seq<Chunk>)
    ensures OnlyGrows(d, OpenAndWrite(s, d, rel, f, chunks).disk)
  {
    var o := Pass(s, d, COpenFile(rel, f));
    if o.answer.Opened? && !f.append {
      WriteAllGrows(o.disk, o.answer.at, chunks);
    }
  }

  lemma CallGrows(s: Store, d: Disk, c: Call)
    requires c.CMkdir? || c.CStat? || c.CLstat?
    ensures OnlyGrows(d, Perform(s, d, c).0)
  {
  }

  lemma SetstatGrows(s: Store, d: Disk, rel: string, attrs: Option<Attrs>)
    ensures var o := Setstat(WriteOnly, s, d, rel, attrs);
      OnlyGrows(d, o.disk) && forall c :: c in o.calls ==> !Reads(c)
  {
  }

  lemma DropBoxStep(s: Store, d: Disk, r: Request)
    ensures var o := Serve(WriteOnly, s, d, r);
      OnlyGrows(d, o.disk) && forall c :: c in o.calls ==> !Reads(c)
  {
    hide Perform, Setstat, WriteAll, Rel;
    match r {
      case PutReq(path, f, chunks) => OpenGrows(s, d, Rel(path), f.(write := true), chunks);
      case Cmd(meth, path, _, attrs) =>
        SetstatGrows(s, d, Rel(path), attrs);
        CallGrows(s, d, CMkdir(Rel(path)));
      case Stat(path) => CallGrows(s, d, CStat(Rel(path)));
      case Lstat(path) => CallGrows(s, d, CLstat(Rel(path)));
      case _ =>
    }
  }

  /**
    A drop box: whatever a client sends, nothing is read back or listed, nothing already there is removed,
    renamed or replaced by something else, and new paths are all that is added.
   */
  lemma {:induction false} DropBox(s: Store, d: Disk, rs: seq<Request>)
    ensures OnlyGrows(d, ServeAll(WriteOnly, s, d, rs).0)
    ensures forall c :: c in ServeAll(WriteOnly, s, d, rs).1 ==> !Reads(c)
    decreases |rs|
  {
    if rs != [] {
      DropBoxStep(s, d, rs[0]);
      DropBox(s, Serve(WriteOnly, s, d, rs[0]).disk, rs[1..]);
    }
  }

  // ---- listerAt ----

  /** Fills the caller's buffer from `offset` on; `eof` is what io.EOF says. */
  method ListAt<T>(list: seq<T>, buf: array<T>, offset: nat) returns (n: nat, eof: bool)
    modifies buf
    ensures n == (if offset >= |list| then 0 else if |list| - offset < buf.Length then |list| - offset else buf.Length)
    ensures buf[..n] == list[if n == 0 then 0 else offset..][..n]
    ensures buf[n..] == old(buf[..])[n..]
    ensures eof <==> offset >= |list| || |list| - offset < buf.Length
  {
    if offset >= |list| {
      return 0, true;
    }
    n := if |list| - offset < buf.Length then |list| - offset else buf.Length;
    forall i | 0 <= i < n { buf[i] := list[offset + i]; }
    eof := n < buf.Length;
  }

  /** Reading page after page until the end gives the whole listing, once, in order. */
  method ListPages<T(0)>(list: seq<T>, page: nat) returns (all: seq<T>)
    requires page > 0
    ensures all == list
  {
    var buf := new T[page];
    all := [];
    var eof := false;
    while !eof
      invariant fresh(buf) && buf.Length == page
      invariant |all| <= |list| && all == list[..|all|]
      invariant eof ==> |all| == |list|
      decreases |list| - |all|, !eof
    {
      var n;
      n, eof := ListAt(list, buf, |all|);
      ghost var before := |all|;
      all := all + buf[..n];
      assert all == list[..before + n];
    }
  }
}
