/**
 Finishing what was left unfinished.  A task that has read its inode can go on in any store that still holds
 what it read, and leaves a store that represents a ledger with the same sharing.  And what it has written
 so far is in nobody's file until it commits.
 */
module Continuations {
  import opened Wrappers
  import opened Blocks
  import opened Records
  import opened Protocol
  import opened Ledgers
  import opened LedgerSteps
  import opened Stepwise
  import opened Concurrency
  import opened Interleaving
  import opened Guarantees

  // ---------- finishing an append ----------

  /** The store after the append of a file under its current key: one file rewritten, the sharing as it was. */
  ghost predicate Continued(led: Ledger, led2: Ledger, st2: State, i: nat, bytes: seq<byte>) {
    && WellFormed(led2) && Represents(led2, st2) && SameSharing(led, led2) && HasBytes(led2, i, bytes)
    && forall j | j in led.files && j != i :: led2.files[j] == led.files[j]
  }

  lemma SharingJoins(a: Ledger, b: Ledger, c: Ledger)
    requires SameSharing(a, b) && SameSharing(b, c)
    ensures SameSharing(a, c)
  {
  }

  lemma BlockSharing(led: Ledger, i: nat, index: nat)
    ensures SameSharing(led, BlockLedger(led, i, index)) && BlockLedger(led, i, index).files == led.files
  {
  }

  lemma CommitSharing(led: Ledger, i: nat, info: FileInfo)
    requires i in led.files && info.key == led.files[i].key
    ensures SameSharing(led, CommitLedger(led, i, info))
    ensures forall j | j in led.files && j != i :: CommitLedger(led, i, info).files[j] == led.files[j]
  {
  }

  lemma CommitIsLast(st: State, task: Task, phase: Phase, i: nat, info: FileInfo)
    requires phase.Writing? && phase.todo == [] && task.AppendTask? && task.content.Some?
    requires phase.node == MailboxNode(info.key, Random(i)) && info.blocks == phase.base.blocks + phase.ids
    requires phase.base.size + |task.content.value| == |Flatten(info.chunks)|
    ensures Alone(st, task, phase) == (CommitState(st, i, info), Success([]))
  {
  }

  lemma CommitContinues(led: Ledger, st: State, task: Task, phase: Phase, view: Sighting) returns (led2: Ledger)
    requires WellFormed(led) && Represents(led, st) && phase.Writing? && phase.todo == []
    requires PhaseOK(led, st, task, phase, Some(view))
    ensures Continued(led, led2, Alone(st, task, phase).0, view.file, Flatten(view.info.chunks) + task.content.value)
    ensures Alone(st, task, phase).1 == Success([])
  {
    var content := task.content.value;
    var info := Extended(view.info, phase.ids, content);
    ExtendedOK(led, st, view, content, phase.ids);
    CommitIsLast(st, task, phase, view.file, info);
    led2 := CommitLedger(led, view.file, info);
    Committed(led, st, view.file, info, led2, CommitState(st, view.file, info));
  }

  lemma Committed(led: Ledger, st: State, i: nat, info: FileInfo, led2: Ledger, st2: State)
    requires WellFormed(led) && Represents(led, st) && i in led.files && FileOK(led, i, info)
    requires FileBlocksStored(st, info)
    requires info.key == led.files[i].key && led2 == CommitLedger(led, i, info) && st2 == CommitState(st, i, info)
    ensures Continued(led, led2, st2, i, Flatten(info.chunks))
  {
    CommitRepresents(led, st, i, info);
    CommitSharing(led, i, info);
  }

  /** An append that is about to write goes on to its commit. */
  lemma {:induction false} WritingContinues(led: Ledger, st: State, task: Task, phase: Phase, view: Sighting)
      returns (led2: Ledger)
    requires WellFormed(led) && Represents(led, st) && phase.Writing? && PhaseOK(led, st, task, phase, Some(view))
    ensures Continued(led, led2, Alone(st, task, phase).0, view.file, Flatten(view.info.chunks) + task.content.value)
    ensures Alone(st, task, phase).1 == Success([])
    decreases |phase.todo|
  {
    if phase.todo == [] {
      led2 := CommitContinues(led, st, task, phase, view);
    } else {
      var index := |phase.base.blocks| + |phase.ids|;
      var led1, st1 := BlockLedger(led, view.file, index), BlockState(st, view.info.key, phase.todo[0]);
      var phase1 := Writing(phase.node, phase.base, phase.todo[1..], phase.ids + [Random(st.next)]);
      BlockRepresents(led, st, view.info.key, phase.todo[0], view.file, index);
      BlockPhase(led, led1, st, st1, task, phase, view, index);
      led2 := WritingContinues(led1, st1, task, phase1, view);
      BlockSharing(led, view.file, index);
      SharingJoins(led, led1, led2);
      assert Advance(st, task, phase) == (st1, phase1);
    }
  }

  // ---------- finishing any task ----------

  /** File `i` has the bytes it had, or they and the whole content that was appended. */
  ghost predicate StillServes(led: Ledger, led2: Ledger, st2: State, i: nat, bytes: seq<byte>, content: seq<byte>) {
    && WellFormed(led2) && Represents(led2, st2) && SameSharing(led, led2)
    && (HasBytes(led2, i, bytes) || HasBytes(led2, i, bytes + content))
  }

  lemma NothingServes(led: Ledger, st: State, i: nat, bytes: seq<byte>, content: seq<byte>)
    requires WellFormed(led) && Represents(led, st) && HasBytes(led, i, bytes)
    ensures StillServes(led, led, st, i, bytes, content)
  {
  }

  /** A load writes nothing, however far it got. */
  lemma {:induction false} LoadIsQuiet(st: State, task: Task, phase: Phase)
    requires task.LoadTask? && !phase.Writing?
    ensures Alone(st, task, phase).0 == st
    decreases Stage(phase), Left(phase)
  {
    if !phase.Finished? {
      LoadIsQuiet(st, task, Advance(st, task, phase).1);
    }
  }

  /** An inode that opens is the file's, under the current key. */
  lemma InodeIsCurrent(led: Ledger, st: State, node: MailboxNode, j: nat)
    requires FilesStored(led, st) && j in led.files && node.inode == Random(j) && OpenInode(st, node).Success?
    ensures node == MailboxNode(led.files[j].key, Random(j))
    ensures OpenInode(st, node) == Success(Inode(|Flatten(led.files[j].chunks)|, led.files[j].blocks))
  {
    assert StoredAs(st, Random(j), InodeOf(led.files[j]));
  }

  lemma ReadyToWrite(led: Ledger, st: State, task: Task, node: MailboxNode, j: nat, phase: Phase, view: Sighting)
    requires WellFormed(led) && Represents(led, st) && task.AppendTask? && task.content.Some?
    requires j in led.files && node.inode == Random(j) && OpenInode(st, node).Success?
    requires phase == Advance(st, task, HasNode(node)).1 && view == Sighting(j, led.files[j], [])
    ensures phase.Writing? && PhaseOK(led, st, task, phase, Some(view))
  {
    InodeIsCurrent(led, st, node, j);
    SeesPhase(led, st, task, node, j, [], phase);
  }

  lemma NodeAdvances(st: State, task: Task, node: MailboxNode)
    requires task.AppendTask?
    ensures OpenInode(st, node).Failure? || task.content.None? ==> Alone(st, task, HasNode(node)).0 == st
    ensures Alone(st, task, HasNode(node)) == Alone(st, task, Advance(st, task, HasNode(node)).1)
  {
  }

  lemma WrittenServes(led: Ledger, led2: Ledger, st2: State, j: nat, text: seq<byte>, i: nat, bytes: seq<byte>,
                      content: seq<byte>)
    requires HasBytes(led, i, bytes) && Continued(led, led2, st2, j, text) && (j == i ==> text == bytes + content)
    ensures StillServes(led, led2, st2, i, bytes, content)
  {
  }

  lemma NodeContinues(led: Ledger, st: State, task: Task, node: MailboxNode, j: nat, i: nat, bytes: seq<byte>)
      returns (led2: Ledger)
    requires WellFormed(led) && Represents(led, st) && task.AppendTask? && j in led.files && node.inode == Random(j)
    requires HasBytes(led, i, bytes)
    ensures StillServes(led, led2, Alone(st, task, HasNode(node)).0, i, bytes, ContentOf(task))
  {
    NodeAdvances(st, task, node);
    if OpenInode(st, node).Failure? || task.content.None? {
      led2 := led;
      NothingServes(led, st, i, bytes, ContentOf(task));
    } else {
      var phase, view := Advance(st, task, HasNode(node)).1, Sighting(j, led.files[j], []);
      ReadyToWrite(led, st, task, node, j, phase, view);
      led2 := WritingContinues(led, st, task, phase, view);
      WrittenServes(led, led2, Alone(st, task, phase).0, j, Flatten(view.info.chunks) + task.content.value, i, bytes,
                    ContentOf(task));
    }
  }

  /** A mailbox of the ledger opens to an inode of the ledger, whatever key it is opened with. */
  lemma MailboxLeads(led: Ledger, st: State, access: Access, m: nat)
    requires MailsOK(led) && MailsStored(led, st) && m in led.mails && access.mailbox == Random(m)
    requires OpenMailbox(st, access).Success?
    ensures OpenMailbox(st, access).value.inode.Random? && OpenMailbox(st, access).value.inode.n in led.files
  {
    assert MailOK(led, m, led.mails[m]) && StoredAs(st, Random(m), NodeOf(led.mails[m]));
  }

  lemma AccessAdvances(st: State, task: Task, access: Access)
    ensures OpenMailbox(st, access).Failure? ==> Alone(st, task, HasAccess(access)).0 == st
    ensures OpenMailbox(st, access).Success? ==>
              Alone(st, task, HasAccess(access)) == Alone(st, task, HasNode(OpenMailbox(st, access).value))
  {
  }

  lemma AccessContinues(led: Ledger, st: State, task: Task, access: Access, m: nat, i: nat, bytes: seq<byte>)
      returns (led2: Ledger)
    requires WellFormed(led) && Represents(led, st) && task.AppendTask? && m in led.mails && access.mailbox == Random(m)
    requires HasBytes(led, i, bytes)
    ensures StillServes(led, led2, Alone(st, task, HasAccess(access)).0, i, bytes, ContentOf(task))
  {
    AccessAdvances(st, task, access);
    if OpenMailbox(st, access).Failure? {
      led2 := led;
      NothingServes(led, st, i, bytes, ContentOf(task));
    } else {
      MailboxLeads(led, st, access, m);
      var node := OpenMailbox(st, access).value;
      led2 := NodeContinues(led, st, task, node, node.inode.n, i, bytes);
    }
  }

  lemma BeginAdvances(st: State, task: Task)
    requires task.AppendTask?
    ensures task.content.None? || OpenAccess(st, task.user, task.filename).Failure? ==> Alone(st, task, Begin).0 == st
    ensures task.content.Some? && OpenAccess(st, task.user, task.filename).Success? ==>
              Alone(st, task, Begin) == Alone(st, task, HasAccess(OpenAccess(st, task.user, task.filename).value))
  {
  }

  lemma BeginContinues(led: Ledger, st: State, task: Task, i: nat, bytes: seq<byte>) returns (led2: Ledger)
    requires WellFormed(led) && Represents(led, st) && task.AppendTask? && HasBytes(led, i, bytes)
    ensures StillServes(led, led2, Alone(st, task, Begin).0, i, bytes, ContentOf(task))
  {
    BeginAdvances(st, task);
    if task.content.None? || OpenAccess(st, task.user, task.filename).Failure? {
      led2 := led;
      NothingServes(led, st, i, bytes, ContentOf(task));
    } else {
      var m := RecordMailbox(led, st, task.user, task.filename);
      led2 := AccessContinues(led, st, task, OpenAccess(st, task.user, task.filename).value, m, i, bytes);
    }
  }

  /**
   A task that was begun in one store and goes on in a later one serves the readers of file `i`, unless it
   has already read that file's inode.
   */
  lemma TaskContinues(led: Ledger, st: State, led1: Ledger, st1: State, task: Task, phase: Phase,
                      view: Option<Sighting>, i: nat, bytes: seq<byte>) returns (led2: Ledger)
    requires WellFormed(led) && Represents(led, st) && Grows(led, led1) && WellFormed(led1) && Represents(led1, st1)
    requires PhaseOK(led, st, task, phase, view) && HasBytes(led1, i, bytes)
    requires phase.Writing? ==> view.value.file != i && PhaseOK(led1, st1, task, phase, view)
    ensures StillServes(led1, led2, Alone(st1, task, phase).0, i, bytes, ContentOf(task))
  {
    if task.LoadTask? || phase.Finished? || phase.Reading? {
      led2 := led1;
      if task.LoadTask? {
        LoadIsQuiet(st1, task, phase);
      }
      NothingServes(led1, st1, i, bytes, ContentOf(task));
    } else if phase.Begin? {
      led2 := BeginContinues(led1, st1, task, i, bytes);
    } else if phase.HasAccess? {
      var m := RecordMailbox(led, st, task.user, task.filename);
      led2 := AccessContinues(led1, st1, task, phase.access, m, i, bytes);
    } else if phase.HasNode? {
      NodeIsFile(led, st, task.user, task.filename, phase.node);
      led2 := NodeContinues(led1, st1, task, phase.node, phase.node.inode.n, i, bytes);
    } else {
      led2 := WritingContinues(led1, st1, task, phase, view.value);
      WrittenServes(led1, led2, Alone(st1, task, phase).0, view.value.file,
                    Flatten(view.value.info.chunks) + task.content.value, i, bytes, ContentOf(task));
    }
  }

  // ---------- what was written is in no file yet ----------

  predicate WritingAt(phases: seq<Phase>, k: nat) {
    k < |phases| && phases[k].Writing?
  }

  /** A block that is in no file, and that no append but `k` has read or written. */
  ghost predicate Uncommitted(files: map<nat, FileInfo>, phases: seq<Phase>, k: nat, u: UUID) {
    && (forall i | i in files :: u !in files[i].blocks)
    && forall q: nat | WritingAt(phases, q) :: u !in phases[q].base.blocks && (q != k ==> u !in phases[q].ids)
  }

  /** What an append has written so far is its own. */
  ghost predicate IdsApart(files: map<nat, FileInfo>, phases: seq<Phase>) {
    forall k: nat, u | WritingAt(phases, k) && u in phases[k].ids :: Uncommitted(files, phases, k, u)
  }

  ghost predicate Unused(files: map<nat, FileInfo>, phases: seq<Phase>, u: UUID) {
    && (forall i | i in files :: u !in files[i].blocks)
    && forall q: nat | WritingAt(phases, q) :: u !in phases[q].base.blocks && u !in phases[q].ids
  }

  /** A task reads: if it gets to write, it has written nothing yet and read the layout of a file. */
  lemma ReadApart(files: map<nat, FileInfo>, phases: seq<Phase>, k: nat, phase': Phase, phases': seq<Phase>)
    requires IdsApart(files, phases) && k < |phases| && !phases[k].Writing? && phases' == phases[k := phase']
    requires phase'.Writing? ==> phase'.ids == [] && exists i :: i in files && phase'.base.blocks == files[i].blocks
    ensures IdsApart(files, phases')
  {
    forall q: nat, u | WritingAt(phases', q) && u in phases'[q].ids
      ensures Uncommitted(files, phases', q, u)
    {
      assert WritingAt(phases, q) && Uncommitted(files, phases, q, u);
    }
  }

  /** A task writes one more block, under an unused name. */
  lemma BlockApart(files: map<nat, FileInfo>, phases: seq<Phase>, k: nat, phase': Phase, phases': seq<Phase>, n: UUID)
    requires IdsApart(files, phases) && WritingAt(phases, k) && phases' == phases[k := phase']
    requires Unused(files, phases, n)
    requires phase'.Writing? && phase'.base == phases[k].base && phase'.ids == phases[k].ids + [n]
    ensures IdsApart(files, phases')
  {
    forall q: nat, u | WritingAt(phases', q) && u in phases'[q].ids
      ensures Uncommitted(files, phases', q, u)
    {
      assert WritingAt(phases, q);
      if u != n {
        assert Uncommitted(files, phases, q, u);
      }
    }
  }

  /** A task commits what it read and wrote, and is done. */
  lemma CommitApart(files: map<nat, FileInfo>, phases: seq<Phase>, k: nat, phase': Phase, phases': seq<Phase>, i: nat,
                    info: FileInfo)
    requires IdsApart(files, phases) && WritingAt(phases, k) && phases' == phases[k := phase'] && !phase'.Writing?
    requires info.blocks == phases[k].base.blocks + phases[k].ids
    ensures IdsApart(files[i := info], phases')
  {
    forall q: nat, u | WritingAt(phases', q) && u in phases'[q].ids
      ensures Uncommitted(files[i := info], phases', q, u)
    {
      assert WritingAt(phases, q) && Uncommitted(files, phases, q, u);
    }
  }

  lemma LayoutDrawn(led: Ledger, i: nat, file: FileInfo)
    requires RolesOK(led) && FileOK(led, i, file)
    ensures Random(led.next) !in file.blocks
  {
  }

  lemma IdsDrawn(led: Ledger, st: State, view: Sighting, chunks: seq<seq<byte>>, todo: seq<seq<byte>>, ids: seq<UUID>)
    requires RolesOK(led) && Written(led, st, view, chunks, todo, ids)
    ensures Random(led.next) !in ids
  {
  }

  /** Every block in a file, or read or written by an append, has a name that was drawn. */
  lemma NextIsUnused(c: Config)
    requires Sound(c)
    ensures Unused(c.led.files, c.phases, Random(c.st.next))
  {
    forall i | i in c.led.files
      ensures Random(c.st.next) !in c.led.files[i].blocks
    {
      LayoutDrawn(c.led, i, c.led.files[i]);
    }
    forall q: nat | WritingAt(c.phases, q)
      ensures Random(c.st.next) !in c.phases[q].base.blocks && Random(c.st.next) !in c.phases[q].ids
    {
      assert PhaseOK(c.led, c.st, c.tasks[q], c.phases[q], c.views[q]);
      LayoutDrawn(c.led, c.views[q].value.file, c.views[q].value.info);
      IdsDrawn(c.led, c.st, c.views[q].value, Chunks(c.tasks[q].content.value), c.phases[q].todo, c.phases[q].ids);
    }
  }

  /** A task that gets to write has just read the layout of a file. */
  lemma NextReads(c: Config, k: nat)
    requires Sound(c) && IsMove(c, k) && !c.phases[k].Writing? && NextPhase(c, k).Writing?
    ensures NextPhase(c, k).ids == []
    ensures exists i :: i in c.led.files && NextPhase(c, k).base.blocks == c.led.files[i].blocks
  {
    assert PhaseOK(c.led, c.st, c.tasks[k], c.phases[k], c.views[k]);
    NodeIsFile(c.led, c.st, c.tasks[k].user, c.tasks[k].filename, c.phases[k].node);
    assert c.phases[k].node.inode.n in c.led.files;
  }

  lemma MoveReads(c: Config, k: nat, c': Config)
    requires Sound(c) && IdsApart(c.led.files, c.phases) && IsMove(c, k) && !c.phases[k].Writing? && c' == Move(c, k)
    ensures IdsApart(c'.led.files, c'.phases)
  {
    QuietFields(c, k, c');
    if NextPhase(c, k).Writing? {
      NextReads(c, k);
    }
    ReadApart(c.led.files, c.phases, k, NextPhase(c, k), c'.phases);
  }

  lemma MoveWrites(c: Config, k: nat, c': Config)
    requires Sound(c) && IdsApart(c.led.files, c.phases) && IsMove(c, k) && WritesBlock(c, k) && c' == Move(c, k)
    ensures IdsApart(c'.led.files, c'.phases)
  {
    NextIsUnused(c);
    var phase := c.phases[k];
    BlockFields(c, k, c', c.views[k].value, phase, |phase.base.blocks| + |phase.ids|);
    BlockApart(c.led.files, c.phases, k, c'.phases[k], c'.phases, Random(c.st.next));
  }

  lemma MoveCommits(c: Config, k: nat, c': Config)
    requires Sound(c) && IdsApart(c.led.files, c.phases) && IsMove(c, k) && Commits(c, k) && c' == Move(c, k)
    ensures IdsApart(c'.led.files, c'.phases)
  {
    var view := c.views[k].value;
    assert PhaseOK(c.led, c.st, c.tasks[k], c.phases[k], Some(view));
    var info := Extended(view.info, c.phases[k].ids, ContentOf(c.tasks[k]));
    CommitApart(c.led.files, c.phases, k, c'.phases[k], c'.phases, view.file, info);
  }

  lemma MoveApart(c: Config, k: nat)
    requires Sound(c) && IdsApart(c.led.files, c.phases)
    ensures IdsApart(Move(c, k).led.files, Move(c, k).phases)
  {
    if IsMove(c, k) {
      if !c.phases[k].Writing? {
        MoveReads(c, k, Move(c, k));
      } else {
        assert PhaseOK(c.led, c.st, c.tasks[k], c.phases[k], c.views[k]);
        if c.phases[k].todo != [] {
          MoveWrites(c, k, Move(c, k));
        } else {
          MoveCommits(c, k, Move(c, k));
        }
      }
    }
  }

  /** In every configuration the blocks an append has written so far are in no file. */
  lemma {:induction false} MovesApart(c: Config, schedule: seq<nat>)
    requires Sound(c) && IdsApart(c.led.files, c.phases)
    ensures IdsApart(Moves(c, schedule).led.files, Moves(c, schedule).phases)
    decreases |schedule|
  {
    if schedule != [] {
      MoveApart(c, schedule[0]);
      MoveSound(c, schedule[0]);
      MovesApart(Move(c, schedule[0]), schedule[1..]);
    }
  }

  lemma LaunchApart(st: State, led: Ledger, tasks: seq<Task>)
    ensures var c := Launch(st, led, tasks); IdsApart(c.led.files, c.phases)
  {
  }
}
