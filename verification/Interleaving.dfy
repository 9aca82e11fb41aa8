/** What holds in every configuration of interleaved appends and loads, whatever the schedule. */
module Interleaving {
  import opened Wrappers
  import opened Blocks
  import opened Records
  import opened Protocol
  import opened Ledgers
  import opened LedgerSteps
  import opened Stepwise
  import opened Concurrency

  // ---------- the reading moves ----------

  /** A record's mailbox leads to an inode of the ledger, and opens it only with the inode's key. */
  lemma MailboxOpens(led: Ledger, st: State, user: UserData, filename: string, m: nat)
    requires MailsStored(led, st) && m in led.mails && OpenAccess(st, user, filename).Success?
    requires OpenAccess(st, user, filename).value.mailbox == Random(m) && OpenNode(st, user, filename).Success?
    ensures OpenNode(st, user, filename).value == MailboxNode(led.mails[m].fileKey, Random(led.mails[m].file))
  {
    assert StoredAs(st, Random(m), NodeOf(led.mails[m]));
  }

  lemma NodeOpensFile(led: Ledger, st: State, m: nat, node: MailboxNode)
    requires MailsOK(led) && FilesStored(led, st) && m in led.mails
    requires node == MailboxNode(led.mails[m].fileKey, Random(led.mails[m].file))
    ensures node.inode.Random? && node.inode.n in led.files
    ensures OpenInode(st, node).Success? ==> node.fileKey == led.files[node.inode.n].key
    ensures OpenInode(st, node).Success? ==>
              OpenInode(st, node).value
                == Inode(|Flatten(led.files[node.inode.n].chunks)|, led.files[node.inode.n].blocks)
  {
    assert MailOK(led, m, led.mails[m]);
    assert StoredAs(st, node.inode, InodeOf(led.files[node.inode.n]));
  }

  lemma NodeIsFile(led: Ledger, st: State, user: UserData, filename: string, node: MailboxNode)
    requires RecsOK(led) && MailsOK(led) && RecsStored(led, st) && NamedStored(led, st) && MailsStored(led, st)
    requires FilesStored(led, st) && OpenNode(st, user, filename) == Success(node)
    ensures node.inode.Random? && node.inode.n in led.files
    ensures OpenInode(st, node).Success? ==> node.fileKey == led.files[node.inode.n].key
    ensures OpenInode(st, node).Success? ==>
              OpenInode(st, node).value
                == Inode(|Flatten(led.files[node.inode.n].chunks)|, led.files[node.inode.n].blocks)
  {
    var m := RecordMailbox(led, st, user, filename);
    MailboxOpens(led, st, user, filename, m);
    NodeOpensFile(led, st, m, node);
  }

  lemma SeenView(led: Ledger, st: State, i: nat, version: seq<nat>)
    requires FilesOK(led) && BlocksStored(led, st) && i in led.files
    ensures ViewOK(led, st, Sighting(i, led.files[i], version))
  {
    assert FileOK(led, i, led.files[i]) && FileBlocksStored(st, led.files[i]);
  }

  /** One more block read: it is there, it opens, and it is the next chunk of the layout seen. */
  lemma ReadsNext(st: State, info: FileInfo, left: seq<UUID>, data: seq<byte>)
    requires FileBlocksStored(st, info) && ReadSoFar(info, left, data) && left != []
    ensures st.Open(left[0], FileKey(info.key), BlockKind).Success?
    ensures ReadSoFar(info, left[1..], data + st.Open(left[0], FileKey(info.key), BlockKind).value.data)
  {
    var d := |info.blocks| - |left|;
    assert left[0] == info.blocks[d];
    assert StoredAs(st, info.blocks[d], Sealed(FileKey(info.key), BlockRec(info.chunks[d])));
    assert info.chunks[..d + 1] == info.chunks[..d] + [info.chunks[d]];
    FlattenAppend(info.chunks[..d], [info.chunks[d]]);
    assert Flatten([info.chunks[d]]) == info.chunks[d];
  }

  lemma SeesPhase(led: Ledger, st: State, task: Task, node: MailboxNode, i: nat, version: seq<nat>, phase': Phase)
    requires FilesOK(led) && BlocksStored(led, st) && i in led.files && node == MailboxNode(led.files[i].key, Random(i))
    requires OpenInode(st, node) == Success(Inode(|Flatten(led.files[i].chunks)|, led.files[i].blocks))
    requires phase' == Advance(st, task, HasNode(node)).1
    ensures PhaseOK(led, st, task, phase', Some(Sighting(i, led.files[i], version)))
  {
    var info := led.files[i];
    SeenView(led, st, i, version);
    assert info.blocks[|info.blocks| - |info.blocks|..] == info.blocks;
    assert FileBlocksStored(st, info);
  }

  lemma HasNodePhase(led: Ledger, st: State, task: Task, node: MailboxNode, view: Option<Sighting>, version: seq<nat>,
                     phase': Phase)
    requires RecsOK(led) && MailsOK(led) && FilesOK(led) && RecsStored(led, st) && NamedStored(led, st)
    requires MailsStored(led, st)
    requires FilesStored(led, st) && BlocksStored(led, st) && OpenNode(st, task.user, task.filename) == Success(node)
    requires phase' == Advance(st, task, HasNode(node)).1
    ensures node.inode.Random? && node.inode.n in led.files
    ensures PhaseOK(led, st, task, phase', if phase'.Finished? then view
                    else Some(Sighting(node.inode.n, led.files[node.inode.n], version)))
  {
    NodeIsFile(led, st, task.user, task.filename, node);
    if OpenInode(st, node).Success? {
      SeesPhase(led, st, task, node, node.inode.n, version, phase');
    }
  }

  lemma ReadingPhase(led: Ledger, st: State, task: Task, phase: Phase, view: Option<Sighting>, phase': Phase)
    requires phase.Reading? && PhaseOK(led, st, task, phase, view) && phase' == Advance(st, task, phase).1
    ensures PhaseOK(led, st, task, phase', view)
  {
    if phase.left != [] {
      ReadsNext(st, view.value.info, phase.left, phase.data);
    }
  }

  lemma EarlyPhase(led: Ledger, st: State, task: Task, phase: Phase, view: Option<Sighting>, phase': Phase)
    requires phase.Begin? || phase.HasAccess? || phase.Finished?
    requires PhaseOK(led, st, task, phase, view) && phase' == Advance(st, task, phase).1
    ensures PhaseOK(led, st, task, phase', view)
  {
  }

  lemma SeenOrNot(c: Config, k: nat, node: MailboxNode)
    requires IsMove(c, k) && c.phases[k] == HasNode(node)
    requires node.inode.Random? && node.inode.n in c.led.files && node.inode.n in c.versions
    ensures !NextPhase(c, k).HasNode? && !NextPhase(c, k).Begin? && !NextPhase(c, k).HasAccess?
    ensures SightingAfter(c, k) == if NextPhase(c, k).Finished? then c.views[k]
                            else Some(Sighting(node.inode.n, c.led.files[node.inode.n], c.versions[node.inode.n]))
  {
  }

  ghost predicate FreshView(c: Config, view: Option<Sighting>) {
    exists i | i in c.led.files && i in c.versions :: view == Some(Sighting(i, c.led.files[i], c.versions[i]))
  }

  lemma QuietNode(c: Config, k: nat, task: Task, node: MailboxNode, phase': Phase, version: seq<nat>)
    requires StoreOK(c) && c.versions.Keys == c.led.files.Keys && IsMove(c, k) && c.phases[k] == HasNode(node)
    requires task == c.tasks[k] && OpenNode(c.st, task.user, task.filename) == Success(node)
    requires phase' == NextPhase(c, k)
    requires version == if node.inode.Random? && node.inode.n in c.versions then c.versions[node.inode.n] else []
    ensures PhaseOK(c.led, c.st, task, phase', SightingAfter(c, k))
    ensures SightingAfter(c, k) == c.views[k] || FreshView(c, SightingAfter(c, k))
  {
    HasNodePhase(c.led, c.st, task, node, c.views[k], version, phase');
    SeenOrNot(c, k, node);
  }

  lemma QuietPhase(c: Config, k: nat)
    requires StoreOK(c) && c.versions.Keys == c.led.files.Keys && IsMove(c, k) && !c.phases[k].Writing?
    requires PhaseOK(c.led, c.st, c.tasks[k], c.phases[k], c.views[k])
    ensures PhaseOK(c.led, c.st, c.tasks[k], NextPhase(c, k), SightingAfter(c, k))
    ensures SightingAfter(c, k) == c.views[k] || FreshView(c, SightingAfter(c, k))
  {
    var task, phase, view, phase' := c.tasks[k], c.phases[k], c.views[k], NextPhase(c, k);
    if phase.HasNode? {
      var node := phase.node;
      QuietNode(c, k, task, node, phase',
                if node.inode.Random? && node.inode.n in c.versions then c.versions[node.inode.n] else []);
    } else if phase.Reading? {
      ReadingPhase(c.led, c.st, task, phase, view, phase');
    } else {
      EarlyPhase(c.led, c.st, task, phase, view, phase');
    }
  }

  lemma QuietFields(c: Config, k: nat, c': Config)
    requires IsMove(c, k) && !c.phases[k].Writing? && c' == Move(c, k)
    ensures c'.st == c.st && c'.led == c.led && c'.versions == c.versions && c'.tasks == c.tasks
    ensures c'.origin == c.origin
    ensures c'.phases == c.phases[k := NextPhase(c, k)] && c'.views == c.views[k := SightingAfter(c, k)]
  {
  }

  lemma QuietTexts(c: Config, k: nat, c': Config, view: Option<Sighting>)
    requires TextsOK(c) && IsMove(c, k)
    requires c'.led.files == c.led.files && c'.versions == c.versions && c'.tasks == c.tasks && c'.origin == c.origin
    requires c'.views == c.views[k := view]
    requires view == c.views[k] || FreshView(c, view)
    ensures TextsOK(c')
  {
  }

  lemma QuietMove(c: Config, k: nat, c': Config)
    requires Sound(c) && IsMove(c, k) && !c.phases[k].Writing? && c' == Move(c, k)
    ensures Sound(c') && Undisturbed(c.led, c'.led, c.st, c'.st)
  {
    QuietPhase(c, k);
    QuietFields(c, k, c');
    OtherPhasesKept(c, k, c');
    QuietTexts(c, k, c', SightingAfter(c, k));
  }

  // ---------- the writing moves ----------

  /** One more block written, under the next name. */
  lemma WritesNext(led: Ledger, led': Ledger, st: State, st': State, view: Sighting, chunks: seq<seq<byte>>,
                   todo: seq<seq<byte>>, ids: seq<UUID>, n: nat)
    requires Written(led', st', view, chunks, todo, ids) && todo != []
    requires Has(led', n, BlockRole(view.file, |view.info.blocks| + |ids|))
    requires StoredAs(st', Random(n), Sealed(FileKey(view.info.key), BlockRec(todo[0])))
    ensures Written(led', st', view, chunks, todo[1..], ids + [Random(n)])
  {
  }

  lemma BlockPhase(led: Ledger, led': Ledger, st: State, st': State, task: Task, phase: Phase, view: Sighting,
                   index: nat)
    requires RolesOK(led) && FilesOK(led) && PhaseOK(led, st, task, phase, Some(view)) && phase.Writing?
    requires phase.todo != []
    requires led.next == st.next && led' == BlockLedger(led, view.file, index)
    requires index == |phase.base.blocks| + |phase.ids|
    requires st' == BlockState(st, view.info.key, phase.todo[0]) && Undisturbed(led, led', st, st')
    ensures PhaseOK(led', st', task, Writing(phase.node, phase.base, phase.todo[1..], phase.ids + [Random(st.next)]),
                    Some(view))
  {
    var chunks := Chunks(task.content.value);
    ViewKept(led, led', st, st', view);
    WrittenKept(led, led', st, st', view, chunks, phase.todo, phase.ids);
    WritesNext(led, led', st, st', view, chunks, phase.todo, phase.ids, led.next);
  }

  lemma BlockFields(c: Config, k: nat, c': Config, view: Sighting, phase: Phase, index: nat)
    requires IsMove(c, k) && WritesBlock(c, k) && c' == Move(c, k) && phase == c.phases[k] && view == c.views[k].value
    requires index == |phase.base.blocks| + |phase.ids|
    ensures c'.versions == c.versions && c'.tasks == c.tasks && c'.origin == c.origin
    ensures c'.led == BlockLedger(c.led, view.file, index)
    ensures c'.st == BlockState(c.st, phase.node.fileKey, phase.todo[0])
    ensures c'.phases == c.phases[k :=
                                  Writing(phase.node, phase.base, phase.todo[1..], phase.ids + [Random(c.st.next)])]
    ensures c'.views == c.views[k := Some(view)]
  {
  }

  lemma BlockStoreMoves(c: Config, c': Config, file: nat, key: nat, data: seq<byte>, index: nat)
    requires StoreOK(c) && c'.led == BlockLedger(c.led, file, index) && c'.st == BlockState(c.st, key, data)
    ensures StoreOK(c') && Undisturbed(c.led, c'.led, c.st, c'.st)
  {
    BlockRepresents(c.led, c.st, key, data, file, index);
  }

  lemma BlockPhaseMoves(c: Config, c': Config, task: Task, phase: Phase, view: Sighting, key: nat, phase': Phase,
                        index: nat)
    requires StoreOK(c) && PhaseOK(c.led, c.st, task, phase, Some(view)) && phase.Writing? && phase.todo != []
    requires index == |phase.base.blocks| + |phase.ids| && Undisturbed(c.led, c'.led, c.st, c'.st)
    requires c'.led == BlockLedger(c.led, view.file, index) && c'.st == BlockState(c.st, key, phase.todo[0])
    requires key == view.info.key
    requires phase' == Writing(phase.node, phase.base, phase.todo[1..], phase.ids + [Random(c.st.next)])
    ensures PhaseOK(c'.led, c'.st, task, phase', Some(view))
  {
    BlockPhase(c.led, c'.led, c.st, c'.st, task, phase, view, index);
  }

  lemma BlockMovesStore(c: Config, k: nat, c': Config, view: Sighting, phase: Phase, index: nat)
    requires StoreOK(c) && IsMove(c, k) && WritesBlock(c, k) && c' == Move(c, k)
    requires phase == c.phases[k] && c.views[k] == Some(view) && index == |phase.base.blocks| + |phase.ids|
    ensures StoreOK(c') && Undisturbed(c.led, c'.led, c.st, c'.st)
  {
    BlockFields(c, k, c', view, phase, index);
    BlockStoreMoves(c, c', view.file, phase.node.fileKey, phase.todo[0], index);
  }

  lemma BlockMovesPhase(c: Config, k: nat, c': Config, view: Sighting, phase: Phase, phase': Phase, index: nat)
    requires StoreOK(c) && IsMove(c, k) && WritesBlock(c, k) && c' == Move(c, k)
    requires Undisturbed(c.led, c'.led, c.st, c'.st)
    requires phase == c.phases[k] && c.views[k] == Some(view) && index == |phase.base.blocks| + |phase.ids|
    requires PhaseOK(c.led, c.st, c.tasks[k], phase, Some(view)) && phase.node.fileKey == view.info.key
    requires phase' == Writing(phase.node, phase.base, phase.todo[1..], phase.ids + [Random(c.st.next)])
    ensures PhaseOK(c'.led, c'.st, c.tasks[k], phase', Some(view))
  {
    BlockFields(c, k, c', view, phase, index);
    BlockPhaseMoves(c, c', c.tasks[k], phase, view, phase.node.fileKey, phase', index);
  }

  lemma BlockMove(c: Config, k: nat, c': Config)
    requires Sound(c) && IsMove(c, k) && WritesBlock(c, k) && c' == Move(c, k)
    ensures Sound(c') && Undisturbed(c.led, c'.led, c.st, c'.st)
  {
    var phase, view := c.phases[k], c.views[k].value;
    assert PhaseOK(c.led, c.st, c.tasks[k], phase, Some(view));
    BlockMovesStore(c, k, c', view, phase, |phase.base.blocks| + |phase.ids|);
    BlockMovesPhase(c, k, c', view, phase,
                    Writing(phase.node, phase.base, phase.todo[1..], phase.ids + [Random(c.st.next)]),
                    |phase.base.blocks| + |phase.ids|);
    BlockMovesRest(c, k, c', view, phase);
  }

  lemma BlockMovesRest(c: Config, k: nat, c': Config, view: Sighting, phase: Phase)
    requires StoreOK(c) && PhasesOK(c) && TextsOK(c) && IsMove(c, k) && WritesBlock(c, k) && c' == Move(c, k)
    requires phase == c.phases[k] && c.views[k] == Some(view) && Undisturbed(c.led, c'.led, c.st, c'.st)
    requires PhaseOK(c'.led, c'.st, c.tasks[k],
                     Writing(phase.node, phase.base, phase.todo[1..], phase.ids + [Random(c.st.next)]), Some(view))
    ensures PhasesOK(c') && TextsOK(c')
  {
    BlockFields(c, k, c', view, phase, |phase.base.blocks| + |phase.ids|);
    OtherPhasesKept(c, k, c');
    QuietTexts(c, k, c', Some(view));
  }

  lemma AllWritten(led: Ledger, st: State, view: Sighting, content: seq<byte>, ids: seq<UUID>)
    requires Written(led, st, view, Chunks(content), [], ids)
    ensures |ids| == |Chunks(content)|
  {
    assert |Chunks(content)[|ids|..]| == 0;
  }

  lemma ExtendedBlock(led: Ledger, st: State, view: Sighting, content: seq<byte>, ids: seq<UUID>, info: FileInfo,
                      j: nat)
    requires ViewOK(led, st, view) && Written(led, st, view, Chunks(content), [], ids) && |ids| == |Chunks(content)|
    requires info == Extended(view.info, ids, content) && j < |info.blocks|
    ensures info.blocks[j].Random? && Has(led, info.blocks[j].n, BlockRole(view.file, j))
    ensures StoredAs(st, info.blocks[j], Sealed(FileKey(info.key), BlockRec(info.chunks[j])))
  {
    var d := |view.info.blocks|;
    if j < d {
      assert Has(led, view.info.blocks[j].n, BlockRole(view.file, j));
      assert StoredAs(st, view.info.blocks[j], Sealed(FileKey(info.key), BlockRec(view.info.chunks[j])));
    } else {
      assert info.blocks[j] == ids[j - d] && info.chunks[j] == Chunks(content)[j - d];
      assert Has(led, ids[j - d].n, BlockRole(view.file, d + (j - d)));
    }
  }

  lemma ExtendedSized(info: FileInfo, ids: seq<UUID>, content: seq<byte>)
    requires WellSized(info.chunks)
    ensures WellSized(Extended(info, ids, content).chunks)
    ensures Flatten(Extended(info, ids, content).chunks) == Flatten(info.chunks) + content
  {
    FlattenChunks(content);
    FlattenAppend(info.chunks, Chunks(content));
  }

  /** The layout a commit installs: what was read, then the blocks it wrote itself. */
  lemma ExtendedOK(led: Ledger, st: State, view: Sighting, content: seq<byte>, ids: seq<UUID>)
    requires ViewOK(led, st, view) && Written(led, st, view, Chunks(content), [], ids)
    ensures FileOK(led, view.file, Extended(view.info, ids, content))
    ensures FileBlocksStored(st, Extended(view.info, ids, content))
    ensures Flatten(Extended(view.info, ids, content).chunks) == Flatten(view.info.chunks) + content
  {
    var info := Extended(view.info, ids, content);
    AllWritten(led, st, view, content, ids);
    ExtendedSized(view.info, ids, content);
    forall j | 0 <= j < |info.blocks|
      ensures info.blocks[j].Random? && Has(led, info.blocks[j].n, BlockRole(view.file, j))
      ensures StoredAs(st, info.blocks[j], Sealed(FileKey(info.key), BlockRec(info.chunks[j])))
    {
      ExtendedBlock(led, st, view, content, ids, info, j);
    }
  }

  lemma TextGrows(tasks: seq<Task>, version: seq<nat>, k: nat, before: seq<byte>)
    requires k < |tasks|
    ensures before + Contributions(tasks, version + [k]) == (before + Contributions(tasks, version))
            + ContentOf(tasks[k])
  {
    assert (version + [k])[..|version|] == version;
  }

  lemma CommitFields(c: Config, k: nat, c': Config, view: Sighting, info: FileInfo)
    requires IsMove(c, k) && Commits(c, k) && c' == Move(c, k) && view == c.views[k].value
    requires c.tasks[k].AppendTask? && c.tasks[k].content.Some?
    requires c.phases[k].node == MailboxNode(view.info.key, Random(view.file))
    requires c.phases[k].base == Inode(|Flatten(view.info.chunks)|, view.info.blocks)
    requires info == Extended(view.info, c.phases[k].ids, c.tasks[k].content.value)
    requires |Flatten(info.chunks)| == |Flatten(view.info.chunks)| + |c.tasks[k].content.value|
    ensures c'.tasks == c.tasks && c'.origin == c.origin
    ensures c'.led == CommitLedger(c.led, view.file, info) && c'.st == CommitState(c.st, view.file, info)
    ensures c'.phases == c.phases[k := Finished(Success([]))] && c'.views == c.views[k := Some(view)]
    ensures c'.versions == c.versions[view.file := view.version + [k]]
  {
  }

  lemma CommitText(c: Config, k: nat, view: Sighting, info: FileInfo)
    requires TextsOK(c) && IsMove(c, k) && c.views[k] == Some(view)
    requires Flatten(info.chunks) == Flatten(view.info.chunks) + ContentOf(c.tasks[k])
    ensures view.file in c.origin
    ensures Flatten(info.chunks) == c.origin[view.file] + Contributions(c.tasks, view.version + [k])
  {
    assert ViewText(c, view);
    TextGrows(c.tasks, view.version, k, c.origin[view.file]);
  }

  lemma CommitTexts(c: Config, k: nat, c': Config, view: Sighting, info: FileInfo)
    requires TextsOK(c) && IsMove(c, k) && c.views[k] == Some(view) && view.file in c.led.files
    requires c'.tasks == c.tasks && c'.origin == c.origin && c'.views == c.views[k := Some(view)]
    requires c'.led.files == c.led.files[view.file := info]
    requires c'.versions == c.versions[view.file := view.version + [k]]
    requires Flatten(info.chunks) == Flatten(view.info.chunks) + ContentOf(c.tasks[k])
    ensures TextsOK(c')
  {
    CommitText(c, k, view, info);
    assert c'.views == c.views;
    forall q | 0 <= q < |c'.views| && c'.views[q].Some?
      ensures ViewText(c', c'.views[q].value)
    {
      assert ViewText(c, c.views[q].value);
    }
  }

  lemma CommitMove(c: Config, k: nat, c': Config)
    requires Sound(c) && IsMove(c, k) && Commits(c, k) && c' == Move(c, k)
    ensures Sound(c') && Undisturbed(c.led, c'.led, c.st, c'.st)
    ensures c'.versions == c.versions[c.views[k].value.file := c.views[k].value.version + [k]]
  {
    var view := c.views[k].value;
    assert PhaseOK(c.led, c.st, c.tasks[k], c.phases[k], Some(view));
    var content := c.tasks[k].content.value;
    var info := Extended(view.info, c.phases[k].ids, content);
    ExtendedOK(c.led, c.st, view, content, c.phases[k].ids);
    CommitFields(c, k, c', view, info);
    CommitRepresents(c.led, c.st, view.file, info);
    OtherPhasesKept(c, k, c');
    CommitTexts(c, k, c', view, info);
  }

  // ---------- every schedule ----------

  lemma MoveSound(c: Config, k: nat)
    requires Sound(c)
    ensures Sound(Move(c, k)) && Undisturbed(c.led, Move(c, k).led, c.st, Move(c, k).st)
  {
    if IsMove(c, k) {
      if !c.phases[k].Writing? {
        QuietMove(c, k, Move(c, k));
      } else {
        assert PhaseOK(c.led, c.st, c.tasks[k], c.phases[k], c.views[k]);
        if c.phases[k].todo != [] {
          BlockMove(c, k, Move(c, k));
        } else {
          CommitMove(c, k, Move(c, k));
        }
      }
    }
  }

  lemma {:induction false} MovesSound(c: Config, schedule: seq<nat>)
    requires Sound(c)
    ensures Sound(Moves(c, schedule))
    decreases |schedule|
  {
    if schedule != [] {
      MoveSound(c, schedule[0]);
      MovesSound(Move(c, schedule[0]), schedule[1..]);
    }
  }

  lemma LaunchTexts(st: State, led: Ledger, tasks: seq<Task>)
    ensures TextsOK(Launch(st, led, tasks))
  {
    var c := Launch(st, led, tasks);
    forall i | i in led.files
      ensures Flatten(led.files[i].chunks) == c.origin[i] + Contributions(tasks, [])
    {
      assert c.origin[i] + [] == c.origin[i];
    }
  }

  lemma LaunchSound(st: State, led: Ledger, tasks: seq<Task>)
    requires WellFormed(led) && Represents(led, st)
    ensures Sound(Launch(st, led, tasks))
  {
    LaunchTexts(st, led, tasks);
  }

  // ---------- what no schedule changes ----------

  /** Appends and loads change nothing about who shares what. */
  ghost predicate SameSharing(led: Ledger, led': Ledger) {
    && led'.mails == led.mails && led'.recs == led.recs && led'.invs == led.invs && led'.accounts == led.accounts
    && led'.files.Keys == led.files.Keys && led.next <= led'.next
    && forall i | i in led.files :: led'.files[i].key == led.files[i].key
  }

  lemma CommitIsKnown(c: Config, k: nat)
    requires PhasesOK(c) && IsMove(c, k) && Commits(c, k)
    ensures c.views[k].value.file in c.led.files
  {
    assert PhaseOK(c.led, c.st, c.tasks[k], c.phases[k], c.views[k]);
  }

  lemma MovedLedger(c: Config, k: nat, led': Ledger)
    requires IsMove(c, k) && led' == LedgerMoved(c, k) && (Commits(c, k) ==> c.views[k].value.file in c.led.files)
    ensures led'.mails == c.led.mails && led'.recs == c.led.recs && led'.invs == c.led.invs
    ensures led'.accounts == c.led.accounts
    ensures led'.files.Keys == c.led.files.Keys
  {
  }

  lemma MoveSharing(c: Config, k: nat)
    requires Sound(c)
    ensures SameSharing(c.led, Move(c, k).led)
  {
    MoveSound(c, k);
    if IsMove(c, k) {
      if Commits(c, k) {
        CommitIsKnown(c, k);
      }
      MovedLedger(c, k, Move(c, k).led);
    }
  }

  lemma {:induction false} MovesSharing(c: Config, schedule: seq<nat>)
    requires Sound(c)
    ensures SameSharing(c.led, Moves(c, schedule).led)
    ensures Moves(c, schedule).tasks == c.tasks && Moves(c, schedule).origin == c.origin
    decreases |schedule|
  {
    if schedule != [] {
      MoveSharing(c, schedule[0]);
      MoveSound(c, schedule[0]);
      MovesSharing(Move(c, schedule[0]), schedule[1..]);
    }
  }

  lemma {:induction false} MovesGrow(c: Config, schedule: seq<nat>)
    requires Sound(c)
    ensures Grows(c.led, Moves(c, schedule).led)
    decreases |schedule|
  {
    if schedule != [] {
      MoveSound(c, schedule[0]);
      MovesGrow(Move(c, schedule[0]), schedule[1..]);
      GrowsTransitive(c.led, Move(c, schedule[0]).led, Moves(c, schedule).led);
    }
  }

  /** Only blocks and inodes are ever written. */
  ghost predicate OnlyFilePayloads(log: set<Payload>, log': set<Payload>) {
    && log <= log'
    && forall p | p in log' :: p in log || (p.Sealed? && p.lock.FileKey? && (p.plain.BlockRec? || p.plain.InodeRec?))
  }

  lemma MoveLog(c: Config, k: nat)
    ensures OnlyFilePayloads(c.st.log, Move(c, k).st.log)
  {
  }

  lemma {:induction false} MovesLog(c: Config, schedule: seq<nat>)
    ensures OnlyFilePayloads(c.st.log, Moves(c, schedule).st.log)
    decreases |schedule|
  {
    if schedule != [] {
      MoveLog(c, schedule[0]);
      MovesLog(Move(c, schedule[0]), schedule[1..]);
    }
  }
}
