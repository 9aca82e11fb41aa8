/**
 An unfinished task and a revocation.  An append writes the inode back under the file key it had read with it.
 When a revocation changed the key in between, the append reports success, and everybody the revocation left
 with access loses the file; whoever still has the old key can load it if no block the append had read was
 sealed again.  A task that has not read the file's inode yet does no harm.
 */
module Overlaps {
  import opened Wrappers
  import opened Blocks
  import opened Records
  import opened Protocol
  import opened Ledgers
  import opened LedgerSteps
  import opened Refinement
  import opened RefineFiles
  import opened RefineRevoke
  import opened Stepwise
  import opened Concurrency
  import opened Runs
  import opened Guarantees
  import opened Stability
  import opened Frames
  import opened ConcurrentFiles
  import opened Continuations

  /**
   Appends and loads are interleaved in any way and stopped; somebody revokes; then task `k` goes on alone from
   where it was.
   */
  datatype Overlap = Overlap(start: World, tasks: seq<Task>, schedule: seq<nat>, k: nat, revocation: Op) {

    ghost function Between(): Config {
      Interleaved(start, tasks, schedule)
    }

    ghost function Before(): World {
      Step(start, Interleave(tasks, schedule))
    }

    ghost function After(): World {
      Step(Before(), revocation)
    }

    /** What task `k` has read so far. */
    ghost function Reached(): Phase {
      if k < |Between().phases| then Between().phases[k] else Begin
    }

    ghost function Seen(): Option<Sighting> {
      if k < |Between().views| then Between().views[k] else None
    }

    ghost function End(): (State, Result<seq<byte>, Error>)
      requires k < |tasks|
    {
      Alone(After().st, tasks[k], Reached())
    }

    /** The revocation succeeds and works on `inode`. */
    ghost predicate Revokes(inode: UUID) {
      && Inv(start) && k < |tasks| && revocation.Revoke? && Succeeds(Before(), revocation)
      && Opened(Before().st, Caller(Before(), revocation), revocation.filename) == Some(inode)
    }

    /** Task `k` is an append that has read `inode` and not yet written it. */
    ghost predicate HasRead(inode: UUID) {
      Reached().Writing? && Reached().node.inode == inode
    }
  }

  // ---------- what a revocation leaves alone ----------

  lemma RevocationLeaves(led: Ledger, st: State, user: UserData, filename: string, recipient: string, i: nat, s: UUID,
                         rec: RecInfo, st1: State)
    requires WellFormed(led) && Represents(led, st) && CanOpen(led, user, filename)
    requires i == FileOf(led, user, filename) && s == AccessUUID(user.username, filename) && rec == led.recs[s]
    requires st1 == RevokeAccess(st, user, filename, recipient).st
    ensures OthersSame(st, st1, i, led.files[i], rec, recipient, led.next)
  {
    var mail, access := NewMail(rec, i, st.next, user.username), AccessOf(led, rec);
    var st3 := RevokeRuns(led, st, user, filename, recipient, RevokeAccess(st, user, filename, recipient), i, s, rec,
                          mail, access);
    ClosedWrites(led, st, st3, i, rec, recipient, mail, s,
                 Sealed(PersonalKey(user.master, filename),
                        AccessRec(Access(Random(st.next + 2), st.next + 1, access.children - {recipient}))),
                 UserUUID(user.username), Sealed(UserKey(user.master), UserRec(WithFile(user, filename))), st1);
  }

  /** A block that is not in the revoked file is left alone. */
  lemma BlockUntouched(led: Ledger, s: UUID, rec: RecInfo, recipient: string, i: nat, u: UUID, role: Role)
    requires RolesOK(led) && MailsOK(led) && FilesOK(led) && RecOK(led, s, rec) && i in led.files
    requires u.Random? && Has(led, u.n, role) && role.BlockRole? && (role.file != i || u !in led.files[i].blocks)
    ensures !Touched(u, i, led.files[i], rec, recipient, led.next)
  {
    assert FileOK(led, i, led.files[i]);
    KeptAreMails(led, s, rec, recipient);
  }

  /** Of the files, a revocation changes one, and of that the key. */
  ghost predicate OneRekeyed(led: Ledger, led1: Ledger, i: nat) {
    && Grows(led, led1) && i in led.files && i in led1.files
    && led1.files[i].key != led.files[i].key && led1.files[i].blocks == led.files[i].blocks
    && forall j | j in led.files && j != i :: led1.files[j] == led.files[j]
  }

  ghost predicate IsBlock(led: Ledger, u: UUID, i: nat) {
    u.Random? && exists index :: Has(led, u.n, BlockRole(i, index))
  }

  /** Blocks that are not in file `i` are as they were. */
  ghost predicate OtherBlocksSame(led: Ledger, st: State, st1: State, i: nat)
    requires i in led.files
  {
    forall u: UUID, j | IsBlock(led, u, j) && (j != i || u !in led.files[i].blocks) :: Same(st, st1, u)
  }

  /** The ledgers and stores before and after a revocation on file `i`. */
  ghost predicate Rekeyed(led: Ledger, st: State, led1: Ledger, st1: State, i: nat) {
    OneRekeyed(led, led1, i) && OtherBlocksSame(led, st, st1, i)
  }

  lemma LedgerRekeyed(led: Ledger, user: UserData, filename: string, recipient: string, i: nat, led1: Ledger)
    requires RolesOK(led) && FilesOK(led) && CanOpen(led, user, filename) && i == FileOf(led, user, filename)
    requires led1 == RevokeLedger(led, user, filename, recipient) && Grows(led, led1)
    ensures OneRekeyed(led, led1, i)
  {
    var s := AccessUUID(user.username, filename);
    RevokeShape(led, user, filename, recipient, led1, i, s, led.recs[s]);
    assert FileOK(led, i, led.files[i]);
  }

  lemma BlocksElsewhere(led: Ledger, st: State, st1: State, s: UUID, rec: RecInfo, recipient: string, i: nat)
    requires RolesOK(led) && MailsOK(led) && FilesOK(led) && RecOK(led, s, rec) && i in led.files
    requires OthersSame(st, st1, i, led.files[i], rec, recipient, led.next)
    ensures OtherBlocksSame(led, st, st1, i)
  {
    forall u: UUID, j | IsBlock(led, u, j) && (j != i || u !in led.files[i].blocks)
      ensures Same(st, st1, u)
    {
      var index :| Has(led, u.n, BlockRole(j, index));
      BlockUntouched(led, s, rec, recipient, i, u, BlockRole(j, index));
    }
  }

  lemma RevocationRekeys(led: Ledger, st: State, user: UserData, filename: string, recipient: string, i: nat,
                         led1: Ledger, st1: State)
    requires WellFormed(led) && Represents(led, st) && CanOpen(led, user, filename) && i == FileOf(led, user, filename)
    requires led1 == RevokeLedger(led, user, filename, recipient)
    requires st1 == RevokeAccess(st, user, filename, recipient).st
    ensures Rekeyed(led, st, led1, st1, i)
  {
    var s := AccessUUID(user.username, filename);
    var rec := led.recs[s];
    RevokeKeeps(led, user, filename, recipient);
    LedgerRekeyed(led, user, filename, recipient, i, led1);
    RevocationLeaves(led, st, user, filename, recipient, i, s, rec, st1);
    assert RecOK(led, s, rec);
    BlocksElsewhere(led, st, st1, s, rec, recipient, i);
  }

  // ---------- an append on another file ----------

  lemma ViewSurvives(led: Ledger, st: State, led1: Ledger, st1: State, i: nat, view: Sighting)
    requires Rekeyed(led, st, led1, st1, i) && ViewOK(led, st, view) && view.file != i
    ensures ViewOK(led1, st1, view)
  {
    FileKeeps(led, led1, view.file, view.info);
    forall j | 0 <= j < |view.info.blocks|
      ensures StoredAs(st1, view.info.blocks[j], Sealed(FileKey(view.info.key), BlockRec(view.info.chunks[j])))
    {
      assert Has(led, view.info.blocks[j].n, BlockRole(view.file, j));
      assert IsBlock(led, view.info.blocks[j], view.file);
    }
  }

  lemma WrittenSurvives(led: Ledger, st: State, led1: Ledger, st1: State, i: nat, view: Sighting,
                        chunks: seq<seq<byte>>, todo: seq<seq<byte>>, ids: seq<UUID>)
    requires Rekeyed(led, st, led1, st1, i) && Written(led, st, view, chunks, todo, ids) && view.file != i
    ensures Written(led1, st1, view, chunks, todo, ids)
  {
    forall j | 0 <= j < |ids|
      ensures ids[j].Random? && Has(led1, ids[j].n, BlockRole(view.file, |view.info.blocks| + j))
      ensures StoredAs(st1, ids[j], Sealed(FileKey(view.info.key), BlockRec(chunks[j])))
    {
      assert Has(led, ids[j].n, BlockRole(view.file, |view.info.blocks| + j));
      assert IsBlock(led, ids[j], view.file);
    }
  }

  lemma WritingSurvives(led: Ledger, st: State, led1: Ledger, st1: State, i: nat, task: Task, phase: Phase,
                        view: Sighting)
    requires Rekeyed(led, st, led1, st1, i) && phase.Writing? && PhaseOK(led, st, task, phase, Some(view))
    requires view.file != i
    ensures PhaseOK(led1, st1, task, phase, Some(view))
  {
    ViewSurvives(led, st, led1, st1, i, view);
    WrittenSurvives(led, st, led1, st1, i, view, Chunks(task.content.value), phase.todo, phase.ids);
  }

  // ---------- what the rest of the append writes ----------

  /** Only fresh entries and the inode `i` are written; the inode is under `key` and lists `blocks`. */
  ghost predicate WritesBack(st: State, st2: State, i: nat, key: nat, blocks: seq<UUID>) {
    && (forall u: UUID | u != Random(i) && (u.Random? ==> u.n < st.next) :: Same(st, st2, u))
    && Random(i) in st2.store && st2.store[Random(i)].Sealed? && st2.store[Random(i)].lock == FileKey(key)
    && st2.store[Random(i)].plain.InodeRec? && st2.store[Random(i)].plain.inode.blocks == blocks
  }

  lemma AppendWritesBack(st: State, task: Task, phase: Phase, i: nat, drawn: seq<UUID>, st2: State)
    requires task.AppendTask? && task.content.Some? && phase.Writing? && phase.node.inode == Random(i) && i < st.next
    requires drawn == FreshIds(st.next, |phase.todo|) && st2 == Alone(st, task, phase).0
    ensures Alone(st, task, phase).1 == Success([])
    ensures WritesBack(st, st2, i, phase.node.fileKey, phase.base.blocks + (phase.ids + drawn))
    ensures BlocksUnder(st2, drawn, phase.todo, phase.node.fileKey)
  {
    WritingAlone(st, task, task.content.value, phase.node, phase.base, phase.todo, phase.ids);
    PutBlocksWrites(st, phase.todo, phase.node.fileKey);
  }

  // ---------- who can read what is left ----------

  lemma WritesBackUndisturbed(led: Ledger, st: State, st2: State, i: nat, key: nat, blocks: seq<UUID>)
    requires WritesBack(st, st2, i, key, blocks) && i in led.files && led.next == st.next
    ensures Undisturbed(led, led, st, st2)
  {
  }

  /** Every record and mailbox still leads to the inode it led to. */
  lemma NodesKept(led: Ledger, st: State, st2: State, i: nat, key: nat, blocks: seq<UUID>, user: UserData,
                  filename: string)
    requires WellFormed(led) && Represents(led, st) && i in led.files && WritesBack(st, st2, i, key, blocks)
    requires OpenNode(st, user, filename).Success?
    ensures OpenNode(st2, user, filename) == OpenNode(st, user, filename)
  {
    WritesBackUndisturbed(led, st, st2, i, key, blocks);
    RecordMailboxKept(led, led, st, st2, user, filename);
  }

  /** A reader with any other key than the one written back does not get past the inode. */
  lemma OtherKeyFails(st: State, st2: State, i: nat, key: nat, blocks: seq<UUID>, user: UserData, filename: string,
                      node: MailboxNode)
    requires WritesBack(st, st2, i, key, blocks) && OpenNode(st2, user, filename) == Success(node)
    requires node.inode == Random(i) && node.fileKey != key
    ensures LoadFile(st2, user, filename).Failure?
  {
  }

  lemma {:induction false} UnreadableBlock(st: State, blocks: seq<UUID>, key: nat, j: nat)
    requires j < |blocks| && st.Open(blocks[j], FileKey(key), BlockKind).Failure?
    ensures LoadBlocks(st, blocks, key).Failure?
    decreases j
  {
    if j > 0 {
      UnreadableBlock(st, blocks[1..], key, j - 1);
    }
  }

  /** A reader with that key loads what the blocks of the inode hold. */
  lemma SameKeyLoads(st: State, st2: State, i: nat, key: nat, blocks: seq<UUID>, user: UserData, filename: string,
                     node: MailboxNode)
    requires WritesBack(st, st2, i, key, blocks) && OpenNode(st2, user, filename) == Success(node)
    requires node.inode == Random(i) && node.fileKey == key
    ensures LoadFile(st2, user, filename) == LoadBlocks(st2, blocks, key)
  {
  }

  /** A block of the revoked file is sealed under the new key. */
  lemma BlockSealedAnew(led1: Ledger, st1: State, st2: State, i: nat, key: nat, blocks: seq<UUID>, u: UUID)
    requires WellFormed(led1) && Represents(led1, st1) && i in led1.files && WritesBack(st1, st2, i, key, blocks)
    requires u in led1.files[i].blocks && key != led1.files[i].key
    ensures st2.Open(u, FileKey(key), BlockKind).Failure?
  {
    var file := led1.files[i];
    var j :| 0 <= j < |file.blocks| && file.blocks[j] == u;
    assert FileOK(led1, i, file) && FileBlocksStored(st1, file);
    assert Has(led1, u.n, BlockRole(i, j)) && Has(led1, i, FileRole);
    assert StoredAs(st1, u, Sealed(FileKey(file.key), BlockRec(file.chunks[j])));
    assert Same(st1, st2, u);
  }

  lemma SealedAnewFails(led1: Ledger, st1: State, st2: State, i: nat, key: nat, blocks: seq<UUID>, u: UUID)
    requires WellFormed(led1) && Represents(led1, st1) && i in led1.files && WritesBack(st1, st2, i, key, blocks)
    requires u in blocks && u in led1.files[i].blocks && key != led1.files[i].key
    ensures LoadBlocks(st2, blocks, key).Failure?
  {
    BlockSealedAnew(led1, st1, st2, i, key, blocks, u);
    var j :| 0 <= j < |blocks| && blocks[j] == u;
    UnreadableBlock(st2, blocks, key, j);
  }

  // ---------- what the old key still opens ----------

  lemma BlocksJoin(st: State, us: seq<UUID>, vs: seq<UUID>, a: seq<seq<byte>>, b: seq<seq<byte>>, key: nat)
    requires BlocksUnder(st, us, a, key) && BlocksUnder(st, vs, b, key)
    ensures BlocksUnder(st, us + vs, a + b, key)
  {
    forall j | 0 <= j < |us + vs|
      ensures StoredAs(st, (us + vs)[j], Sealed(FileKey(key), BlockRec((a + b)[j])))
    {
      if j >= |us| {
        assert (us + vs)[j] == vs[j - |us|] && (a + b)[j] == b[j - |us|];
      }
    }
  }

  lemma BlocksStay(st: State, st2: State, us: seq<UUID>, chunks: seq<seq<byte>>, key: nat)
    requires BlocksUnder(st, us, chunks, key) && forall j :: 0 <= j < |us| ==> Same(st, st2, us[j])
    ensures BlocksUnder(st2, us, chunks, key)
  {
    forall j | 0 <= j < |us|
      ensures StoredAs(st2, us[j], Sealed(FileKey(key), BlockRec(chunks[j])))
    {
      assert StoredAs(st, us[j], Sealed(FileKey(key), BlockRec(chunks[j])));
    }
  }

  /** The blocks `us`, drawn for file `i` and none of them sealed again, are as they were before the revocation. */
  lemma OldBlocksStay(led: Ledger, st: State, led1: Ledger, st1: State, st2: State, i: nat, key: nat, blocks: seq<UUID>,
                      us: seq<UUID>, chunks: seq<seq<byte>>, first: nat)
    requires RolesOK(led) && FilesOK(led) && led.next <= st1.next
    requires Rekeyed(led, st, led1, st1, i) && WritesBack(st1, st2, i, key, blocks) && BlocksUnder(st, us, chunks, key)
    requires forall j :: 0 <= j < |us| ==> us[j].Random? && Has(led, us[j].n, BlockRole(i, first + j))
    requires forall u | u in us :: u !in led.files[i].blocks
    ensures BlocksUnder(st2, us, chunks, key)
  {
    FilesHaveRoles(led);
    forall j | 0 <= j < |us|
      ensures Same(st, st2, us[j])
    {
      assert us[j] in us && Has(led, us[j].n, BlockRole(i, first + j));
      assert IsBlock(led, us[j], i);
      assert Same(st, st1, us[j]) && Same(st1, st2, us[j]);
    }
    BlocksStay(st, st2, us, chunks, key);
  }

  lemma IdsStay(led: Ledger, st: State, led1: Ledger, st1: State, st2: State, view: Sighting, chunks: seq<seq<byte>>,
                todo: seq<seq<byte>>, ids: seq<UUID>, blocks: seq<UUID>)
    requires RolesOK(led) && FilesOK(led) && led.next <= st1.next && Rekeyed(led, st, led1, st1, view.file)
    requires Written(led, st, view, chunks, todo, ids) && WritesBack(st1, st2, view.file, view.info.key, blocks)
    requires forall u | u in ids :: u !in led.files[view.file].blocks
    ensures BlocksUnder(st2, ids, chunks[..|ids|], view.info.key) && chunks[..|ids|] + todo == chunks
  {
    OldBlocksStay(led, st, led1, st1, st2, view.file, view.info.key, blocks, ids, chunks[..|ids|], |view.info.blocks|);
  }

  /** What an append had read and written before the revocation, and what it writes after it. */
  lemma AllBlocksUnder(led: Ledger, st: State, led1: Ledger, st1: State, st2: State, task: Task, phase: Phase,
                       view: Sighting, drawn: seq<UUID>, key: nat, blocks: seq<UUID>)
    requires RolesOK(led) && FilesOK(led) && led.next <= st1.next && Rekeyed(led, st, led1, st1, view.file)
    requires phase.Writing? && PhaseOK(led, st, task, phase, Some(view)) && WritesBack(st1, st2, view.file, key, blocks)
    requires BlocksUnder(st2, drawn, phase.todo, key) && key == view.info.key
    requires forall u | u in phase.base.blocks || u in phase.ids :: u !in led.files[view.file].blocks
    ensures BlocksUnder(st2, phase.base.blocks + (phase.ids + drawn), view.info.chunks
                        + Chunks(task.content.value), key)
  {
    var chunks, n := Chunks(task.content.value), |phase.ids|;
    OldBlocksStay(led, st, led1, st1, st2, view.file, key, blocks, phase.base.blocks, view.info.chunks, 0);
    IdsStay(led, st, led1, st1, st2, view, chunks, phase.todo, phase.ids, blocks);
    BlocksJoin(st2, phase.ids, drawn, chunks[..n], phase.todo, key);
    BlocksJoin(st2, phase.base.blocks, phase.ids + drawn, view.info.chunks, chunks, key);
  }

  /** The text that an append had read. */
  lemma TextRead(led: Ledger, st: State, view: Sighting)
    requires ViewOK(led, st, view)
    ensures LoadBlocks(st, view.info.blocks, view.info.key) == Success(Flatten(view.info.chunks))
  {
    LoadBlocksReads(st, view.info.blocks, view.info.chunks, view.info.key);
  }

  lemma OldKeyLoads(led: Ledger, st: State, led1: Ledger, st1: State, st2: State, task: Task, phase: Phase,
                    view: Sighting, drawn: seq<UUID>, blocks: seq<UUID>)
    requires RolesOK(led) && FilesOK(led) && led.next <= st1.next && Rekeyed(led, st, led1, st1, view.file)
    requires phase.Writing? && PhaseOK(led, st, task, phase, Some(view))
    requires WritesBack(st1, st2, view.file, view.info.key, blocks)
    requires BlocksUnder(st2, drawn, phase.todo, view.info.key) && blocks == phase.base.blocks + (phase.ids + drawn)
    requires forall u | u in phase.base.blocks || u in phase.ids :: u !in led.files[view.file].blocks
    ensures LoadBlocks(st, phase.base.blocks, view.info.key).Success?
    ensures LoadBlocks(st2, blocks, view.info.key)
         == Success(LoadBlocks(st, phase.base.blocks, view.info.key).value + task.content.value)
  {
    var chunks := Chunks(task.content.value);
    AllBlocksUnder(led, st, led1, st1, st2, task, phase, view, drawn, view.info.key, blocks);
    LoadBlocksReads(st2, blocks, view.info.chunks + chunks, view.info.key);
    FlattenAppend(view.info.chunks, chunks);
    FlattenChunks(task.content.value);
    TextRead(led, st, view);
  }

  // ---------- an append on the revoked file ----------

  /** The append has read file `i`, which is then revoked; nobody has committed what it wrote. */
  ghost predicate Caught(led: Ledger, st: State, led1: Ledger, st1: State, task: Task, phase: Phase, view: Sighting,
                         i: nat)
  {
    && WellFormed(led) && Represents(led, st) && WellFormed(led1) && Represents(led1, st1)
       && Rekeyed(led, st, led1, st1, i)
    && phase.Writing? && PhaseOK(led, st, task, phase, Some(view)) && view.file == i
    && forall u | u in phase.ids :: u !in led.files[i].blocks
  }

  lemma CaughtLoads(led: Ledger, st: State, led1: Ledger, st1: State, task: Task, phase: Phase, view: Sighting, i: nat,
                    user: UserData, filename: string, node: MailboxNode, st2: State)
    requires Caught(led, st, led1, st1, task, phase, view, i) && st2 == Alone(st1, task, phase).0
    requires OpenNode(st1, user, filename) == Success(node) && node.inode == Random(i)
    ensures Alone(st1, task, phase).1 == Success([])
    ensures LoadFile(st2, user, filename).Success?
       <==> node.fileKey == phase.node.fileKey && forall u | u in phase.base.blocks :: u !in led.files[i].blocks
    ensures LoadFile(st2, user, filename).Success? ==>
              LoadBlocks(st, phase.base.blocks, phase.node.fileKey).Success?
              && LoadFile(st2, user, filename)
                 == Success(LoadBlocks(st, phase.base.blocks, phase.node.fileKey).value + task.content.value)
  {
    var drawn := FreshIds(st1.next, |phase.todo|);
    var blocks, key := phase.base.blocks + (phase.ids + drawn), phase.node.fileKey;
    FilesHaveRoles(led);
    AppendWritesBack(st1, task, phase, i, drawn, st2);
    NodesKept(led1, st1, st2, i, key, blocks, user, filename);
    if node.fileKey != key {
      OtherKeyFails(st1, st2, i, key, blocks, user, filename, node);
    } else {
      SameKeyLoads(st1, st2, i, key, blocks, user, filename, node);
      if u :| u in phase.base.blocks && u in led.files[i].blocks {
        assert u in blocks;
        SealedAnewFails(led1, st1, st2, i, key, blocks, u);
      } else {
        OldKeyLoads(led, st, led1, st1, st2, task, phase, view, drawn, blocks);
      }
    }
  }

  // ---------- the theorems ----------

  /** The blocks of the file that an operation works on. */
  function BlocksNow(w: World, op: Op): seq<UUID>
    requires HasSession(w, op) && op.Revoke?
  {
    var node := OpenNode(w.st, Caller(w, op), op.filename);
    if node.Success? && OpenInode(w.st, node.value).Success? then OpenInode(w.st, node.value).value.blocks else []
  }

  lemma OpenedFile(led: Ledger, st: State, user: UserData, filename: string, inode: UUID)
    requires WellFormed(led) && Represents(led, st) && Opened(st, user, filename) == Some(inode)
    ensures CanOpen(led, user, filename) && inode == Random(FileOf(led, user, filename))
    ensures OpenNode(st, user, filename) == Success(MailboxNode(led.files[FileOf(led, user, filename)].key, inode))
    ensures OpenInode(st, OpenNode(st, user, filename).value).Success?
    ensures OpenInode(st, OpenNode(st, user, filename).value).value.blocks
            == led.files[FileOf(led, user, filename)].blocks
  {
    OpenedAgrees(led, st, user, filename);
    LiveHolderOpens(led, st, user, filename);
  }

  /** The world the interleaving leaves, and how far task `k` is in it. */
  lemma Stopped(w0: World, tasks: seq<Task>, schedule: seq<nat>, k: nat, c: Config, w: World)
    requires Inv(w0) && c == Interleaved(w0, tasks, schedule) && w == Step(w0, Interleave(tasks, schedule))
    requires k < |tasks|
    ensures Inv(w) && IsMove(c, k) && PhaseOK(w.led, w.st, tasks[k], c.phases[k], c.views[k])
    ensures c.phases[k].Writing? ==> forall i, u | i in w.led.files && u in c.phases[k].ids ::
              u !in w.led.files[i].blocks
  {
    InterleavedSound(w0, tasks, schedule);
    InterleaveInv(w0, Interleave(tasks, schedule));
    InterleaveStep(w0, Interleave(tasks, schedule), c);
    LaunchApart(w0.st, w0.led, tasks);
    MovesApart(Launch(w0.st, w0.led, tasks), schedule);
    assert WritingAt(c.phases, k) ==> forall u | u in c.phases[k].ids :: Uncommitted(c.led.files, c.phases, k, u);
  }

  lemma Revoked(w: World, op: Op, inode: UUID, w1: World)
    requires Inv(w) && op.Revoke? && Succeeds(w, op) && Opened(w.st, Caller(w, op), op.filename) == Some(inode)
    requires w1 == Step(w, op)
    ensures inode.Random? && WellFormed(w1.led) && Represents(w1.led, w1.st)
    ensures Rekeyed(w.led, w.st, w1.led, w1.st, inode.n)
    ensures BlocksNow(w, op) == w.led.files[inode.n].blocks
  {
    OpenedFile(w.led, w.st, Caller(w, op), op.filename, inode);
    RevokeInv(w, op);
    CallStep(w, op);
    RevocationRekeys(w.led, w.st, Caller(w, op), op.filename, op.recipient, inode.n, w1.led, w1.st);
  }

  lemma Situation(o: Overlap, inode: UUID)
    requires o.Revokes(inode)
    ensures inode.Random? && Inv(o.Before()) && WellFormed(o.After().led) && Represents(o.After().led, o.After().st)
    ensures Rekeyed(o.Before().led, o.Before().st, o.After().led, o.After().st, inode.n)
    ensures PhaseOK(o.Before().led, o.Before().st, o.tasks[o.k], o.Reached(), o.Seen())
    ensures BlocksNow(o.Before(), o.revocation) == o.Before().led.files[inode.n].blocks
    ensures o.Reached().Writing? ==> forall u | u in o.Reached().ids :: u !in o.Before().led.files[inode.n].blocks
  {
    Stopped(o.start, o.tasks, o.schedule, o.k, o.Between(), o.Before());
    Revoked(o.Before(), o.revocation, inode, o.After());
  }

  lemma ServedLoads(led1: Ledger, st1: State, led2: Ledger, st2: State, user: UserData, filename: string, i: nat,
                    bytes: seq<byte>, content: seq<byte>)
    requires WellFormed(led1) && Represents(led1, st1) && StillServes(led1, led2, st2, i, bytes, content)
    requires HoldsFile(led1, user, filename, i) && HasBytes(led1, i, bytes)
    ensures LoadFile(st1, user, filename) == Success(bytes)
    ensures LoadFile(st2, user, filename) == Success(bytes) || LoadFile(st2, user, filename) == Success(bytes + content)
  {
    SharingOpens(led1, led2, user, filename);
    LoadFileReads(led1, st1, user, filename);
    LoadFileReads(led2, st2, user, filename);
  }

  /** A task that has not read the file serves everybody who can load it. */
  lemma OthersServed(w: World, w1: World, task: Task, phase: Phase, view: Option<Sighting>, i: nat, user: UserData,
                     filename: string)
    requires Inv(w) && WellFormed(w1.led) && Represents(w1.led, w1.st) && Rekeyed(w.led, w.st, w1.led, w1.st, i)
    requires PhaseOK(w.led, w.st, task, phase, view) && !(phase.Writing? && phase.node.inode == Random(i))
    requires HoldsFile(w1.led, user, filename, i)
    ensures LoadFile(w1.st, user, filename).Success?
    ensures var before, after :=
            LoadFile(w1.st, user, filename).value, LoadFile(Alone(w1.st, task, phase).0, user, filename);
            after == Success(before) || after == Success(before + ContentOf(task))
  {
    if phase.Writing? {
      WritingSurvives(w.led, w.st, w1.led, w1.st, i, task, phase, view.value);
    }
    var bytes := Flatten(w1.led.files[i].chunks);
    var led2 := TaskContinues(w.led, w.st, w1.led, w1.st, task, phase, view, i, bytes);
    ServedLoads(w1.led, w1.st, led2, Alone(w1.st, task, phase).0, user, filename, i, bytes, ContentOf(task));
  }

  /** The append has read the file: whoever holds it under the new key does not get past the inode. */
  lemma CaughtHolders(w: World, w1: World, task: Task, phase: Phase, view: Option<Sighting>, i: nat, user: UserData,
                      filename: string)
    requires Inv(w) && WellFormed(w1.led) && Represents(w1.led, w1.st) && Rekeyed(w.led, w.st, w1.led, w1.st, i)
    requires PhaseOK(w.led, w.st, task, phase, view) && phase.Writing? && phase.node.inode == Random(i)
    requires forall u | u in phase.ids :: u !in w.led.files[i].blocks
    requires HoldsFile(w1.led, user, filename, i)
    ensures LoadFile(w1.st, user, filename).Success? && LoadFile(Alone(w1.st, task, phase).0, user, filename).Failure?
  {
    LoadFileReads(w1.led, w1.st, user, filename);
    LiveHolderOpens(w1.led, w1.st, user, filename);
    CaughtLoads(w.led, w.st, w1.led, w1.st, task, phase, view.value, i, user, filename,
                MailboxNode(w1.led.files[i].key, Random(i)), Alone(w1.st, task, phase).0);
  }

  lemma HolderOpened(led: Ledger, st: State, user: UserData, filename: string, inode: UUID)
    requires WellFormed(led) && Represents(led, st) && Opened(st, user, filename) == Some(inode)
    ensures inode.Random? && HoldsFile(led, user, filename, inode.n)
  {
    OpenedAgrees(led, st, user, filename);
  }

  /**
   Who keeps the file.  Take everybody whom the revocation left with access.  When the unfinished append or load
   has gone on to its end they can load the file, with what was appended or without it, if and only if this was
   not an append that had read this very inode and not yet written it.
   */
  lemma HoldersKeepIff(o: Overlap, inode: UUID, user: UserData, filename: string)
    requires o.Revokes(inode) && Opened(o.After().st, user, filename) == Some(inode)
    ensures LoadFile(o.After().st, user, filename).Success?
    ensures LoadFile(o.End().0, user, filename).Success? <==> !o.HasRead(inode)
    ensures LoadFile(o.End().0, user, filename).Success? ==>
              var before := LoadFile(o.After().st, user, filename).value;
              || LoadFile(o.End().0, user, filename) == Success(before)
              || LoadFile(o.End().0, user, filename) == Success(before + ContentOf(o.tasks[o.k]))
  {
    Situation(o, inode);
    HolderOpened(o.After().led, o.After().st, user, filename, inode);
    if o.HasRead(inode) {
      CaughtHolders(o.Before(), o.After(), o.tasks[o.k], o.Reached(), o.Seen(), inode.n, user, filename);
    } else {
      OthersServed(o.Before(), o.After(), o.tasks[o.k], o.Reached(), o.Seen(), inode.n, user, filename);
    }
  }

  /**
   Who can load what such an append leaves.  It reports success.  Of all whose mailbox leads to the inode,
   exactly those can load it that hold the key the append had read, which the revocation took from everybody
   it kept; and only if no block that the append had read was sealed again.  They load the text the append had
   read, and the appended content.
   */
  lemma StaleLoadIff(o: Overlap, inode: UUID, user: UserData, filename: string)
    requires o.Revokes(inode) && o.HasRead(inode) && InodeNamed(o.After().st, user, filename) == Some(inode)
    ensures o.End().1 == Success([])
    ensures LoadFile(o.End().0, user, filename).Success?
       <==> && OpenNode(o.After().st, user, filename).value.fileKey == o.Reached().node.fileKey
            && forall u | u in o.Reached().base.blocks :: u !in BlocksNow(o.Before(), o.revocation)
    ensures LoadFile(o.End().0, user, filename).Success? ==>
              var text := LoadBlocks(o.Before().st, o.Reached().base.blocks, o.Reached().node.fileKey);
              text.Success? && LoadFile(o.End().0, user, filename) == Success(text.value + ContentOf(o.tasks[o.k]))
  {
    Situation(o, inode);
    CaughtLoads(o.Before().led, o.Before().st, o.After().led, o.After().st, o.tasks[o.k], o.Reached(), o.Seen().value,
                inode.n, user, filename, OpenNode(o.After().st, user, filename).value, o.End().0);
  }

  /** The append notices nothing. */
  lemma ReportsSuccess(o: Overlap, inode: UUID)
    requires o.Revokes(inode) && o.HasRead(inode)
    ensures o.End().1 == Success([])
  {
    Situation(o, inode);
    WritingReports(o.After().st, o.tasks[o.k], o.Reached());
  }

  lemma WritingReports(st: State, task: Task, phase: Phase)
    requires phase.Writing? && task.AppendTask? && task.content.Some?
    ensures Alone(st, task, phase).1 == Success([])
  {
    WritingAlone(st, task, task.content.value, phase.node, phase.base, phase.todo, phase.ids);
  }
}
