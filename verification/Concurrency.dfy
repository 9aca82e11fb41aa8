/**
 Any number of appends and loads, interleaved at every read and write of the store.

 The ledger records the inodes as they are committed; `versions` records, for each file, which appends its
 current inode contains, in order.  Neither is ever read by a task.
 */
module Concurrency {
  import opened Wrappers
  import opened Blocks
  import opened Records
  import opened Protocol
  import opened Ledgers
  import opened LedgerSteps
  import opened Refinement
  import opened Stepwise

  /** What a task saw when it read an inode: the file, its layout and the appends in it. */
  datatype Sighting = Sighting(file: nat, info: FileInfo, version: seq<nat>)

  datatype Config = Config(
    st: State,
    led: Ledger,
    tasks: seq<Task>,
    phases: seq<Phase>,
    views: seq<Option<Sighting>>,
    versions: map<nat, seq<nat>>,
    origin: map<nat, seq<byte>>)

  /** All tasks are about to begin. */
  ghost function Launch(st: State, led: Ledger, tasks: seq<Task>): Config {
    Config(st, led, tasks, seq(|tasks|, _ => Begin), seq(|tasks|, _ => None), map i | i in led.files :: [],
           map i | i in led.files :: Flatten(led.files[i].chunks))
  }

  // ---------- one move ----------

  function ContentOf(task: Task): seq<byte> {
    if task.AppendTask? && task.content.Some? then task.content.value else []
  }

  function BlockLedger(led: Ledger, i: nat, index: nat): Ledger {
    led.(next := led.next + 1, roles := led.roles[led.next := BlockRole(i, index)])
  }

  function CommitLedger(led: Ledger, i: nat, info: FileInfo): Ledger {
    led.(files := led.files[i := info])
  }

  function Extended(info: FileInfo, ids: seq<UUID>, content: seq<byte>): FileInfo {
    FileInfo(info.key, info.blocks + ids, info.chunks + Chunks(content))
  }

  predicate IsMove(c: Config, k: nat) {
    k < |c.tasks| && k < |c.phases| && k < |c.views|
  }

  function NextPhase(c: Config, k: nat): Phase
    requires IsMove(c, k)
  {
    Advance(c.st, c.tasks[k], c.phases[k]).1
  }

  /** The move that reads the inode. */
  predicate Sees(c: Config, k: nat)
    requires IsMove(c, k)
  {
    c.phases[k].HasNode? && (NextPhase(c, k).Writing? || NextPhase(c, k).Reading?)
  }

  /** The move that writes the inode. */
  predicate Commits(c: Config, k: nat)
    requires IsMove(c, k)
  {
    c.phases[k].Writing? && c.phases[k].todo == [] && c.views[k].Some?
  }

  predicate WritesBlock(c: Config, k: nat)
    requires IsMove(c, k)
  {
    c.phases[k].Writing? && c.phases[k].todo != [] && c.views[k].Some?
  }

  function SightingAfter(c: Config, k: nat): Option<Sighting>
    requires IsMove(c, k)
  {
    if Sees(c, k) && c.phases[k].node.inode.Random? && c.phases[k].node.inode.n in c.led.files
       && c.phases[k].node.inode.n in c.versions then
      var i := c.phases[k].node.inode.n;
      Some(Sighting(i, c.led.files[i], c.versions[i]))
    else c.views[k]
  }

  function LedgerMoved(c: Config, k: nat): Ledger
    requires IsMove(c, k)
  {
    if WritesBlock(c, k) then
      BlockLedger(c.led, c.views[k].value.file, |c.phases[k].base.blocks| + |c.phases[k].ids|)
    else if Commits(c, k) then
      CommitLedger(c.led, c.views[k].value.file,
                   Extended(c.views[k].value.info, c.phases[k].ids, ContentOf(c.tasks[k])))
    else c.led
  }

  function VersionsMoved(c: Config, k: nat): map<nat, seq<nat>>
    requires IsMove(c, k)
  {
    if Commits(c, k) then c.versions[c.views[k].value.file := c.views[k].value.version + [k]] else c.versions
  }

  /** Task `k` does its next storage operation. */
  function Move(c: Config, k: nat): Config {
    if !IsMove(c, k) then c
    else Config(Advance(c.st, c.tasks[k], c.phases[k]).0, LedgerMoved(c, k), c.tasks, c.phases[k := NextPhase(c, k)],
                c.views[k := SightingAfter(c, k)], VersionsMoved(c, k), c.origin)
  }

  function Moves(c: Config, schedule: seq<nat>): Config
    decreases |schedule|
  {
    if schedule == [] then c else Moves(Move(c, schedule[0]), schedule[1..])
  }

  // ---------- the invariant ----------

  /** The bytes the appends of a version contribute, in order. */
  function Contributions(tasks: seq<Task>, version: seq<nat>): seq<byte>
    decreases |version|
  {
    if version == [] then []
    else
      var last := version[|version| - 1];
      Contributions(tasks, version[..|version| - 1]) + if last < |tasks| then ContentOf(tasks[last]) else []
  }

  /** The appends that the file behind an inode contains, in order. */
  function VersionAt(c: Config, inode: Option<UUID>): seq<nat> {
    if inode.Some? && inode.value.Random? && inode.value.n in c.versions then c.versions[inode.value.n] else []
  }

  ghost predicate ViewOK(led: Ledger, st: State, view: Sighting) {
    && view.file in led.files && view.info.key == led.files[view.file].key
    && FileOK(led, view.file, view.info) && FileBlocksStored(st, view.info)
  }

  /** The blocks written so far are stored under fresh names of their own. */
  ghost predicate Written(led: Ledger, st: State, view: Sighting, chunks: seq<seq<byte>>, todo: seq<seq<byte>>,
                          ids: seq<UUID>)
  {
    && |ids| <= |chunks| && todo == chunks[|ids|..]
    && forall j :: 0 <= j < |ids| ==>
         && ids[j].Random? && Has(led, ids[j].n, BlockRole(view.file, |view.info.blocks| + j))
         && StoredAs(st, ids[j], Sealed(FileKey(view.info.key), BlockRec(chunks[j])))
  }

  ghost predicate ReadSoFar(info: FileInfo, left: seq<UUID>, data: seq<byte>) {
    && |info.blocks| == |info.chunks| && |left| <= |info.blocks|
    && left == info.blocks[|info.blocks| - |left|..]
    && data == Flatten(info.chunks[..|info.blocks| - |left|])
  }

  ghost predicate PhaseOK(led: Ledger, st: State, task: Task, phase: Phase, view: Option<Sighting>) {
    match phase
    case Begin => view.None?
    case HasAccess(access) => view.None? && OpenAccess(st, task.user, task.filename) == Success(access)
    case HasNode(node) => view.None? && OpenNode(st, task.user, task.filename) == Success(node)
    case Writing(node, base, todo, ids) =>
      && view.Some? && ViewOK(led, st, view.value)
      && task.AppendTask? && task.content.Some?
      && node == MailboxNode(view.value.info.key, Random(view.value.file))
      && base == Inode(|Flatten(view.value.info.chunks)|, view.value.info.blocks)
      && Written(led, st, view.value, Chunks(task.content.value), todo, ids)
    case Reading(key, left, data) =>
      && view.Some? && ViewOK(led, st, view.value)
      && task.LoadTask? && key == view.value.info.key && ReadSoFar(view.value.info, left, data)
    case Finished(res) =>
      task.AppendTask? && res.Success? ==> view.Some? && task.content.Some?
  }

  ghost predicate PhasesOK(c: Config) {
    && |c.phases| == |c.tasks| && |c.views| == |c.tasks|
    && forall k :: 0 <= k < |c.phases| ==> PhaseOK(c.led, c.st, c.tasks[k], c.phases[k], c.views[k])
  }

  /** A file's bytes are its original bytes followed by whole appended contents. */
  ghost predicate TextsOK(c: Config) {
    && c.versions.Keys == c.led.files.Keys && c.origin.Keys == c.led.files.Keys
    && (forall i | i in c.led.files ::
          Flatten(c.led.files[i].chunks) == c.origin[i] + Contributions(c.tasks, c.versions[i]))
    && forall k :: 0 <= k < |c.views| ==> (c.views[k].Some? ==> ViewText(c, c.views[k].value))
  }

  ghost predicate ViewText(c: Config, view: Sighting) {
    view.file in c.origin && Flatten(view.info.chunks) == c.origin[view.file] + Contributions(c.tasks, view.version)
  }

  ghost predicate StoreOK(c: Config) {
    WellFormed(c.led) && Represents(c.led, c.st)
  }

  ghost predicate Sound(c: Config) {
    StoreOK(c) && PhasesOK(c) && TextsOK(c)
  }

  // ---------- what no move disturbs ----------

  /** Everything in the store stays, except that inodes may be rewritten; file keys stay. */
  ghost predicate Undisturbed(led: Ledger, led': Ledger, st: State, st': State) {
    && Grows(led, led')
    && (forall i | i in led.files :: i in led'.files && led'.files[i].key == led.files[i].key)
    && forall u | u in st.store && !(u.Random? && (u.n in led.files || u.n >= led.next)) :: Same(st, st', u)
  }

  lemma FilesHaveRoles(led: Ledger)
    requires FilesOK(led)
    ensures forall i | i in led.files :: Has(led, i, FileRole)
  {
    forall i | i in led.files
      ensures Has(led, i, FileRole)
    {
      assert FileOK(led, i, led.files[i]);
    }
  }

  lemma ViewKept(led: Ledger, led': Ledger, st: State, st': State, view: Sighting)
    requires RolesOK(led) && FilesOK(led) && Undisturbed(led, led', st, st') && ViewOK(led, st, view)
    ensures ViewOK(led', st', view)
  {
    FileKeeps(led, led', view.file, view.info);
    forall j | 0 <= j < |view.info.blocks|
      ensures StoredAs(st', view.info.blocks[j], Sealed(FileKey(view.info.key), BlockRec(view.info.chunks[j])))
    {
      BlockKept(led, led', st, st', view.info.blocks[j], BlockRole(view.file, j));
    }
  }

  lemma BlockKept(led: Ledger, led': Ledger, st: State, st': State, u: UUID, role: Role)
    requires RolesOK(led) && FilesOK(led) && Undisturbed(led, led', st, st')
    requires u.Random? && role.BlockRole? && Has(led, u.n, role) && u in st.store
    ensures Same(st, st', u)
  {
    FilesHaveRoles(led);
  }

  lemma WrittenKept(led: Ledger, led': Ledger, st: State, st': State, view: Sighting, chunks: seq<seq<byte>>,
                    todo: seq<seq<byte>>, ids: seq<UUID>)
    requires RolesOK(led) && FilesOK(led) && Undisturbed(led, led', st, st')
    requires Written(led, st, view, chunks, todo, ids)
    ensures Written(led', st', view, chunks, todo, ids)
  {
    forall j | 0 <= j < |ids|
      ensures ids[j].Random? && Has(led', ids[j].n, BlockRole(view.file, |view.info.blocks| + j))
      ensures StoredAs(st', ids[j], Sealed(FileKey(view.info.key), BlockRec(chunks[j])))
    {
      BlockKept(led, led', st, st', ids[j], BlockRole(view.file, |view.info.blocks| + j));
    }
  }

  lemma RecordsKept(led: Ledger, led': Ledger, st: State, st': State, user: UserData, filename: string)
    requires Undisturbed(led, led', st, st') && OpenAccess(st, user, filename).Success?
    ensures OpenAccess(st', user, filename) == OpenAccess(st, user, filename)
  {
    assert Same(st, st', AccessUUID(user.username, filename));
  }

  /** A mailbox that a record points to is not an inode. */
  lemma RecordMailbox(led: Ledger, st: State, user: UserData, filename: string) returns (m: nat)
    requires RecsOK(led) && RecsStored(led, st) && NamedStored(led, st) && MailsStored(led, st)
    requires OpenAccess(st, user, filename).Success?
    ensures m in led.mails && OpenAccess(st, user, filename).value.mailbox == Random(m) && Random(m) in st.store
  {
    if !Holds(led, user, filename) {
      NonHolderFails(led, st, user, filename);
    }
    HolderOpensAccess(led, st, user, filename);
    m := led.recs[AccessUUID(user.username, filename)].mailbox;
    assert StoredAs(st, Random(m), NodeOf(led.mails[m]));
  }

  lemma MailboxKept(led: Ledger, led': Ledger, st: State, st': State, m: nat)
    requires RolesOK(led) && FilesOK(led) && MailsOK(led) && Undisturbed(led, led', st, st')
    requires m in led.mails && Random(m) in st.store
    ensures Same(st, st', Random(m))
  {
    FilesHaveRoles(led);
    assert MailOK(led, m, led.mails[m]);
  }

  lemma NodeKept(st: State, st': State, user: UserData, filename: string)
    requires OpenAccess(st, user, filename).Success?
    requires OpenAccess(st', user, filename) == OpenAccess(st, user, filename)
    requires Same(st, st', OpenAccess(st, user, filename).value.mailbox)
    ensures OpenNode(st', user, filename) == OpenNode(st, user, filename)
  {
  }

  lemma RecordMailboxKept(led: Ledger, led': Ledger, st: State, st': State, user: UserData, filename: string)
    requires RolesOK(led) && FilesOK(led) && MailsOK(led) && RecsOK(led)
    requires RecsStored(led, st) && NamedStored(led, st) && MailsStored(led, st)
    requires Undisturbed(led, led', st, st') && OpenAccess(st, user, filename).Success?
    ensures OpenAccess(st', user, filename) == OpenAccess(st, user, filename)
    ensures OpenNode(st', user, filename) == OpenNode(st, user, filename)
  {
    RecordsKept(led, led', st, st', user, filename);
    var m := RecordMailbox(led, st, user, filename);
    MailboxKept(led, led', st, st', m);
    NodeKept(st, st', user, filename);
  }

  lemma PhaseKept(led: Ledger, led': Ledger, st: State, st': State, task: Task, phase: Phase, view: Option<Sighting>)
    requires RolesOK(led) && FilesOK(led) && MailsOK(led) && RecsOK(led) && RecsStored(led, st)
    requires NamedStored(led, st) && MailsStored(led, st)
    requires Undisturbed(led, led', st, st') && PhaseOK(led, st, task, phase, view)
    ensures PhaseOK(led', st', task, phase, view)
  {
    match phase
    case HasAccess(_) => RecordMailboxKept(led, led', st, st', task.user, task.filename);
    case HasNode(_) => RecordMailboxKept(led, led', st, st', task.user, task.filename);
    case Writing(_, _, todo, ids) =>
      ViewKept(led, led', st, st', view.value);
      WrittenKept(led, led', st, st', view.value, Chunks(task.content.value), todo, ids);
    case Reading(_, _, _) => ViewKept(led, led', st, st', view.value);
    case _ =>
  }

  lemma OtherPhasesKept(c: Config, k: nat, c': Config)
    requires StoreOK(c) && PhasesOK(c) && IsMove(c, k) && Undisturbed(c.led, c'.led, c.st, c'.st) && c'.tasks == c.tasks
    requires |c'.phases| == |c.phases| && |c'.views| == |c.views|
    requires forall j :: 0 <= j < |c.phases| && j != k ==> c'.phases[j] == c.phases[j] && c'.views[j] == c.views[j]
    requires PhaseOK(c'.led, c'.st, c.tasks[k], c'.phases[k], c'.views[k])
    ensures PhasesOK(c')
  {
    forall j | 0 <= j < |c'.phases| && j != k
      ensures PhaseOK(c'.led, c'.st, c'.tasks[j], c'.phases[j], c'.views[j])
    {
      PhaseKept(c.led, c'.led, c.st, c'.st, c.tasks[j], c.phases[j], c.views[j]);
    }
  }

  // ---------- writes under one name ----------

  /** Mailboxes, records, invitations and users do not notice a write under any other name. */
  lemma OthersStored(led: Ledger, led': Ledger, st: State, st': State, n: nat)
    requires RecsOK(led) && InvsOK(led) && Grows(led, led') && n !in led.mails && n !in led.invs
    requires MailsStored(led, st) && RecsStored(led, st) && InvsStored(led, st) && NamedStored(led, st)
    requires led'.mails == led.mails && led'.recs == led.recs && led'.invs == led.invs && led'.accounts == led.accounts
    requires forall u: UUID | u != Random(n) :: Same(st, st', u)
    requires Random(n) in st'.store && st'.store[Random(n)].Sealed?
    ensures MailsStored(led', st') && RecsStored(led', st') && InvsStored(led', st') && NamedStored(led', st')
  {
    MailsStoredSame(led, led', st, st');
    RecsAreNamed(led);
    RecsStoredSame(led, led', st, st');
    InvsStoredWith(led, led', st, st');
    NamedStoredSame(led, led', st, st', Random(n));
  }

  // ---------- writing one block ----------

  function BlockState(st: State, key: nat, data: seq<byte>): State {
    st.Draw(1).Put(Random(st.next), Sealed(FileKey(key), BlockRec(data)))
  }

  lemma BlockUndisturbed(led: Ledger, st: State, key: nat, data: seq<byte>, i: nat, index: nat)
    requires RolesOK(led) && led.next == st.next
    ensures Undisturbed(led, BlockLedger(led, i, index), st, BlockState(st, key, data))
    ensures forall u: UUID | u != Random(led.next) :: Same(st, BlockState(st, key, data), u)
  {
  }

  lemma BlockKeeps(led: Ledger, i: nat, index: nat)
    requires WellFormed(led)
    ensures WellFormed(BlockLedger(led, i, index)) && Grows(led, BlockLedger(led, i, index))
  {
    UntouchedKeep(led, BlockLedger(led, i, index));
  }

  lemma BlockFilesStored(led: Ledger, led': Ledger, st: State, st': State)
    requires RolesOK(led) && FilesOK(led) && FilesStored(led, st) && BlocksStored(led, st) && led'.files == led.files
    requires forall u: UUID | u != Random(led.next) :: Same(st, st', u)
    ensures FilesStored(led', st') && BlocksStored(led', st')
  {
    FilesHaveRoles(led);
    forall k, j | k in led.files && 0 <= j < |led.files[k].blocks|
      ensures Same(st, st', led.files[k].blocks[j])
    {
      assert FileOK(led, k, led.files[k]);
      assert Has(led, led.files[k].blocks[j].n, BlockRole(k, j));
    }
    FilesStoredSame(led, led', st, st');
  }

  /** Writing a block under a fresh name leaves a represented store, whatever becomes of the block. */
  lemma BlockRepresents(led: Ledger, st: State, key: nat, data: seq<byte>, i: nat, index: nat)
    requires WellFormed(led) && Represents(led, st)
    ensures WellFormed(BlockLedger(led, i, index)) && Represents(BlockLedger(led, i, index), BlockState(st, key, data))
    ensures Undisturbed(led, BlockLedger(led, i, index), st, BlockState(st, key, data))
  {
    BlockUndisturbed(led, st, key, data, i, index);
    BlockKeeps(led, i, index);
    BlockFilesStored(led, BlockLedger(led, i, index), st, BlockState(st, key, data));
    NextIsFresh(led);
    OthersStored(led, BlockLedger(led, i, index), st, BlockState(st, key, data), led.next);
  }

  // ---------- writing the inode ----------

  function CommitState(st: State, i: nat, info: FileInfo): State {
    st.Put(Random(i), InodeOf(info))
  }

  lemma CommitKeeps(led: Ledger, i: nat, info: FileInfo)
    requires WellFormed(led) && i in led.files && FileOK(led, i, info)
    ensures WellFormed(CommitLedger(led, i, info)) && Grows(led, CommitLedger(led, i, info))
  {
    var led' := CommitLedger(led, i, info);
    FileKeeps(led, led', i, info);
    FilesWith(led, led', i, info);
    UntouchedKeep(led, led');
  }

  /** Blocks have roles of their own, so writing an inode leaves them alone. */
  lemma BlockIsNoInode(led: Ledger, st: State, st': State, i: nat, k: nat, file: FileInfo, j: nat)
    requires FilesOK(led) && i in led.files && FileOK(led, k, file) && j < |file.blocks|
    requires forall u: UUID | u != Random(i) :: Same(st, st', u)
    ensures Same(st, st', file.blocks[j])
  {
    FilesHaveRoles(led);
    assert Has(led, file.blocks[j].n, BlockRole(k, j));
  }

  lemma CommitBlocksStored(led: Ledger, led': Ledger, st: State, st': State, i: nat, info: FileInfo)
    requires FilesOK(led) && BlocksStored(led, st) && i in led.files && FileOK(led, i, info)
    requires FileBlocksStored(st, info)
    requires led'.files == led.files[i := info] && forall u: UUID | u != Random(i) :: Same(st, st', u)
    ensures BlocksStored(led', st')
  {
    forall k, j | k in led.files && 0 <= j < |led.files[k].blocks|
      ensures Same(st, st', led.files[k].blocks[j])
    {
      assert FileOK(led, k, led.files[k]);
      BlockIsNoInode(led, st, st', i, k, led.files[k], j);
    }
    forall j | 0 <= j < |info.blocks|
      ensures StoredAs(st', info.blocks[j], Sealed(FileKey(info.key), BlockRec(info.chunks[j])))
    {
      BlockIsNoInode(led, st, st', i, i, info, j);
    }
    BlocksStoredWith(led, led', st, st', i, info);
  }

  /** Only the inode `i` is rewritten. */
  ghost predicate Rewrites(st: State, st': State, i: nat, info: FileInfo) {
    && st'.next == st.next && st'.keys == st.keys && StoredAs(st', Random(i), InodeOf(info))
    && forall u: UUID | u != Random(i) :: Same(st, st', u)
  }

  lemma CommitRewrites(st: State, i: nat, info: FileInfo)
    ensures Rewrites(st, CommitState(st, i, info), i, info)
  {
  }

  lemma CommitFilesStored(led: Ledger, led': Ledger, st: State, st': State, i: nat, info: FileInfo)
    requires FilesOK(led) && FilesStored(led, st) && BlocksStored(led, st) && i in led.files && FileOK(led, i, info)
    requires led'.files == led.files[i := info] && Rewrites(st, st', i, info) && FileBlocksStored(st, info)
    ensures FilesStored(led', st') && BlocksStored(led', st')
  {
    FilesStoredWith(led, led', st, st', i, info);
    CommitBlocksStored(led, led', st, st', i, info);
  }

  lemma InodeIsNoMailbox(led: Ledger, i: nat)
    requires FilesOK(led) && MailsOK(led) && InvsOK(led) && i in led.files
    ensures i !in led.mails && i !in led.invs
  {
    FilesHaveRoles(led);
    assert forall m | m in led.mails :: MailOK(led, m, led.mails[m]);
    assert forall n | n in led.invs :: InvOK(led, n, led.invs[n]);
  }

  lemma CommitOthers(led: Ledger, led': Ledger, st: State, st': State, i: nat, info: FileInfo)
    requires WellFormed(led) && Represents(led, st) && i in led.files && Rewrites(st, st', i, info)
    requires led' == CommitLedger(led, i, info) && Grows(led, led')
    ensures MailsStored(led', st') && RecsStored(led', st') && InvsStored(led', st') && NamedStored(led', st')
  {
    InodeIsNoMailbox(led, i);
    OthersStored(led, led', st, st', i);
  }

  lemma CommitUndisturbed(led: Ledger, led': Ledger, st: State, st': State, i: nat, info: FileInfo)
    requires i in led.files && info.key == led.files[i].key && Rewrites(st, st', i, info)
    requires led' == CommitLedger(led, i, info) && Grows(led, led')
    ensures Undisturbed(led, led', st, st')
  {
  }

  /** One Set of the inode switches the file from one whole layout to another. */
  lemma CommitRepresents(led: Ledger, st: State, i: nat, info: FileInfo)
    requires WellFormed(led) && Represents(led, st) && i in led.files && FileOK(led, i, info)
    requires FileBlocksStored(st, info)
    requires info.key == led.files[i].key
    ensures WellFormed(CommitLedger(led, i, info)) && Represents(CommitLedger(led, i, info), CommitState(st, i, info))
    ensures Undisturbed(led, CommitLedger(led, i, info), st, CommitState(st, i, info))
  {
    var led', st' := CommitLedger(led, i, info), CommitState(st, i, info);
    CommitKeeps(led, i, info);
    CommitRewrites(st, i, info);
    CommitFilesStored(led, led', st, st', i, info);
    CommitOthers(led, led', st, st', i, info);
    CommitUndisturbed(led, led', st, st', i, info);
  }
}
