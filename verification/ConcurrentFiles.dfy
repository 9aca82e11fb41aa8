/**
 What users see of interleaved appends and loads: loads are atomic, and an append is lost exactly when
 another append that had read the inode before it commits after it.
 */
module ConcurrentFiles {
  import opened Wrappers
  import opened Blocks
  import opened Records
  import opened Protocol
  import opened Ledgers
  import opened Refinement
  import opened Simulation
  import opened Runs
  import opened Guarantees
  import opened Knowledge
  import opened Stepwise
  import opened Concurrency
  import opened Interleaving

  // ---------- every intermediate state ----------

  lemma RunOne(w: World, op: Op)
    ensures Run(w, [op]) == Step(w, op)
  {
    assert Run(w, [op]) == Run(Step(w, op), []);
  }

  /**
   An interleaving is a step of a run: however far it got, the world it leaves is reached by a run that goes
   on with it, so every theorem about runs applies before it, after it and across it.
   */
  lemma InterleavingIsAStep(w: World, tasks: seq<Task>, schedule: seq<nat>, c: Config)
    requires Confidential(w) && c == Interleaved(w, tasks, schedule)
    ensures Run(w, [Interleave(tasks, schedule)]) == World(c.st, w.sessions, c.led)
    ensures Confidential(World(c.st, w.sessions, c.led))
  {
    RunOne(w, Interleave(tasks, schedule));
    StepConfidential(w, Interleave(tasks, schedule));
    InterleaveStep(w, Interleave(tasks, schedule), c);
  }

  lemma SharingOpens(led: Ledger, led': Ledger, user: UserData, filename: string)
    requires SameSharing(led, led')
    ensures CanOpen(led', user, filename) <==> CanOpen(led, user, filename)
    ensures CanOpen(led, user, filename) ==> FileOf(led', user, filename) == FileOf(led, user, filename)
  {
  }

  lemma TextSince(c: Config, before: Ledger, i: nat)
    requires TextsOK(c) && c.origin == BytesOf(before) && i in before.files && i in c.led.files
    ensures Flatten(c.led.files[i].chunks)
         == Flatten(before.files[i].chunks) + Contributions(c.tasks, VersionAt(c, Some(Random(i))))
  {
    TextsAt(c, i);
  }

  lemma ConfigLoads(c: Config, user: UserData, filename: string, before: Ledger, st: State)
    requires Sound(c) && WellFormed(before) && Represents(before, st) && SameSharing(before, c.led)
    requires c.origin == BytesOf(before)
    ensures Opened(c.st, user, filename) == Opened(st, user, filename)
    ensures LoadFile(c.st, user, filename).Success? <==> LoadFile(st, user, filename).Success?
    ensures forall bytes | LoadFile(st, user, filename) == Success(bytes) ::
              LoadFile(c.st, user, filename)
                == Success(bytes + Contributions(c.tasks, VersionAt(c, Opened(st, user, filename))))
  {
    SharingOpens(before, c.led, user, filename);
    OpenedAgrees(before, st, user, filename);
    OpenedAgrees(c.led, c.st, user, filename);
    LoadFileReads(before, st, user, filename);
    LoadFileReads(c.led, c.st, user, filename);
    if CanOpen(before, user, filename) {
      TextSince(c, before, FileOf(before, user, filename));
    }
  }

  /**
   Every intermediate state is a good state.  From any reachable world, let any appends and loads of any
   users be interleaved in any way and stopped anywhere.  A user can load a file then if and only if the
   user could before, and gets the bytes from before followed by whole appended contents.
   */
  lemma EveryStateLoads(w: World, tasks: seq<Task>, schedule: seq<nat>, user: UserData, filename: string)
    requires Inv(w)
    ensures Opened(Interleaved(w, tasks, schedule).st, user, filename) == Opened(w.st, user, filename)
    ensures LoadFile(Interleaved(w, tasks, schedule).st, user, filename).Success?
       <==> LoadFile(w.st, user, filename).Success?
    ensures forall bytes | LoadFile(w.st, user, filename) == Success(bytes) ::
              LoadFile(Interleaved(w, tasks, schedule).st, user, filename)
              == Success(bytes
                         + Contributions(tasks,
                                         VersionAt(Interleaved(w, tasks, schedule), Opened(w.st, user, filename))))
  {
    InterleavedSound(w, tasks, schedule);
    ConfigLoads(Interleaved(w, tasks, schedule), user, filename, w.led, w.st);
  }

  // ---------- loads are atomic ----------

  lemma {:induction false} MovesOneMore(c: Config, schedule: seq<nat>, k: nat)
    ensures Moves(c, schedule + [k]) == Move(Moves(c, schedule), k)
    decreases |schedule|
  {
    if schedule == [] {
      assert [] + [k] == [k];
    } else {
      assert (schedule + [k])[1..] == schedule[1..] + [k];
      MovesOneMore(Move(c, schedule[0]), schedule[1..], k);
    }
  }

  /** At configuration `c` the whole load of task `k` would return `r`. */
  predicate WouldLoad(c: Config, k: nat, r: Result<seq<byte>, Error>) {
    k < |c.tasks| && LoadFile(c.st, c.tasks[k].user, c.tasks[k].filename) == r
  }

  predicate Ended(c: Config, k: nat, r: Result<seq<byte>, Error>) {
    IsMove(c, k) && c.phases[k] == Finished(r)
  }

  /** What a load that has got this far returns when it finishes. */
  ghost predicate Returns(c: Config, k: nat, r: Result<seq<byte>, Error>) {
    && IsMove(c, k)
    && match c.phases[k]
       case Reading(_, _, _) => c.views[k].Some? && r == Success(Flatten(c.views[k].value.info.chunks))
       case Finished(res) => r == res
       case _ => false
  }

  lemma WouldLoadFile(led: Ledger, st: State, user: UserData, filename: string, node: MailboxNode)
    requires RecsOK(led) && MailsOK(led) && RecsStored(led, st) && NamedStored(led, st) && MailsStored(led, st)
    requires FilesStored(led, st) && BlocksStored(led, st) && OpenNode(st, user, filename) == Success(node)
    ensures node.inode.Random? && node.inode.n in led.files
    ensures OpenInode(st, node).Failure? ==> LoadFile(st, user, filename) == Failure(OpenInode(st, node).error)
    ensures OpenInode(st, node).Success? ==>
              LoadFile(st, user, filename) == Success(Flatten(led.files[node.inode.n].chunks))
  {
    NodeIsFile(led, st, user, filename, node);
    if OpenInode(st, node).Success? {
      var file := led.files[node.inode.n];
      assert FileBlocksStored(st, file);
      LoadBlocksReads(st, file.blocks, file.chunks, file.key);
    }
  }

  lemma EarlyDecides(st: State, task: Task, phase: Phase)
    requires task.LoadTask?
    requires (phase.Begin? || (phase.HasAccess? && OpenAccess(st, task.user, task.filename) == Success(phase.access)))
    ensures !Advance(st, task, phase).1.Reading?
    ensures forall r | Advance(st, task, phase).1 == Finished(r) :: LoadFile(st, task.user, task.filename) == r
  {
  }

  lemma NodeAdvance(st: State, task: Task, node: MailboxNode, phase': Phase)
    requires task.LoadTask? && phase' == Advance(st, task, HasNode(node)).1
    ensures phase'.Finished? || phase'.Reading?
    ensures OpenInode(st, node).Success? <==> phase'.Reading?
    ensures phase'.Finished? ==> OpenInode(st, node).Failure? && phase'.res == Failure(OpenInode(st, node).error)
  {
  }

  lemma SeesFile(c: Config, k: nat, node: MailboxNode)
    requires IsMove(c, k) && c.phases[k] == HasNode(node) && NextPhase(c, k).Reading?
    requires node.inode.Random? && node.inode.n in c.led.files && node.inode.n in c.versions
    ensures SightingAfter(c, k) == Some(Sighting(node.inode.n, c.led.files[node.inode.n], c.versions[node.inode.n]))
  {
  }

  lemma NodeDecides(c: Config, k: nat, task: Task, node: MailboxNode, phase': Phase, seen: Option<Sighting>)
    requires StoreOK(c) && c.versions.Keys == c.led.files.Keys && IsMove(c, k)
    requires task == c.tasks[k] && task.LoadTask? && c.phases[k] == HasNode(node)
    requires OpenNode(c.st, task.user, task.filename) == Success(node)
    requires phase' == NextPhase(c, k) && seen == SightingAfter(c, k)
    ensures phase'.Finished? ==> LoadFile(c.st, task.user, task.filename) == phase'.res
    ensures phase'.Reading? ==>
              seen.Some? && LoadFile(c.st, task.user, task.filename) == Success(Flatten(seen.value.info.chunks))
  {
    WouldLoadFile(c.led, c.st, task.user, task.filename, node);
    NodeAdvance(c.st, task, node, phase');
    if phase'.Reading? {
      SeesFile(c, k, node);
    }
  }

  /** A task that fails to get to the inode, or sees it, does so as the whole operation would. */
  lemma Decides(c: Config, k: nat, phase: Phase)
    requires StoreOK(c) && c.versions.Keys == c.led.files.Keys && IsMove(c, k) && c.tasks[k].LoadTask?
    requires phase == c.phases[k]
    requires PhaseOK(c.led, c.st, c.tasks[k], phase, c.views[k])
    requires phase.Begin? || phase.HasAccess? || phase.HasNode?
    ensures NextPhase(c, k).Finished? ==> WouldLoad(c, k, NextPhase(c, k).res)
    ensures NextPhase(c, k).Reading? ==>
              SightingAfter(c, k).Some? && WouldLoad(c, k, Success(Flatten(SightingAfter(c, k).value.info.chunks)))
  {
    if phase.HasNode? {
      NodeDecides(c, k, c.tasks[k], phase.node, NextPhase(c, k), SightingAfter(c, k));
    } else {
      EarlyDecides(c.st, c.tasks[k], phase);
    }
  }

  lemma LastRead(info: FileInfo, data: seq<byte>)
    requires ReadSoFar(info, [], data)
    ensures data == Flatten(info.chunks)
  {
    assert info.chunks[..|info.blocks|] == info.chunks;
  }

  lemma ReturnsKept(c: Config, k: nat, j: nat, r: Result<seq<byte>, Error>)
    requires Sound(c) && k < |c.tasks| && c.tasks[k].LoadTask? && Returns(c, k, r)
    ensures Returns(Move(c, j), k, r)
  {
    if j == k && c.phases[k].Reading? {
      assert PhaseOK(c.led, c.st, c.tasks[k], c.phases[k], c.views[k]);
      if c.phases[k].left == [] {
        LastRead(c.views[k].value.info, c.phases[k].data);
      } else {
        ReadsNext(c.st, c.views[k].value.info, c.phases[k].left, c.phases[k].data);
      }
    }
  }

  /** The load of task `k` is explained by one of its own moves. */
  ghost predicate Explained(c: Config, schedule: seq<nat>, k: nat, r: Result<seq<byte>, Error>) {
    exists n :: 0 <= n < |schedule| && schedule[n] == k && WouldLoad(Moves(c, schedule[..n]), k, r)
  }

  lemma ExplainedLonger(c: Config, schedule: seq<nat>, k: nat, r: Result<seq<byte>, Error>, j: nat)
    requires Explained(c, schedule, k, r)
    ensures Explained(c, schedule + [j], k, r)
  {
    var n :| 0 <= n < |schedule| && schedule[n] == k && WouldLoad(Moves(c, schedule[..n]), k, r);
    assert (schedule + [j])[..n] == schedule[..n];
  }

  lemma ExplainedNow(c: Config, schedule: seq<nat>, k: nat, r: Result<seq<byte>, Error>)
    requires WouldLoad(Moves(c, schedule), k, r)
    ensures Explained(c, schedule + [k], k, r)
  {
    assert (schedule + [k])[..|schedule|] == schedule && (schedule + [k])[|schedule|] == k;
  }

  lemma {:induction false} LoadsExplained(c: Config, schedule: seq<nat>, k: nat, r: Result<seq<byte>, Error>)
    requires Sound(c) && k < |c.tasks| && c.tasks[k].LoadTask? && c.phases[k].Begin?
    requires Returns(Moves(c, schedule), k, r)
    ensures Explained(c, schedule, k, r)
    decreases |schedule|
  {
    if schedule != [] {
      var most, j := schedule[..|schedule| - 1], schedule[|schedule| - 1];
      var c1 := Moves(c, most);
      assert schedule == most + [j];
      MovesOneMore(c, most, j);
      MovesSound(c, most);
      MovesSharing(c, most);
      if c1.phases[k].Begin? || c1.phases[k].HasAccess? || c1.phases[k].HasNode? {
        assert j == k;
        Decides(c1, k, c1.phases[k]);
        ExplainedNow(c, most, k, r);
      } else {
        assert PhaseOK(c1.led, c1.st, c1.tasks[k], c1.phases[k], c1.views[k]);
        var r1 := if c1.phases[k].Finished? then c1.phases[k].res else Success(Flatten(c1.views[k].value.info.chunks));
        ReturnsKept(c1, k, j, r1);
        LoadsExplained(c, most, k, r);
        ExplainedLonger(c, most, k, r, j);
      }
    }
  }

  /**
   No torn reads.  A load that runs interleaved with any appends and loads of any users returns exactly
   what the uninterrupted LoadFile returns at the moment of one of the load's own moves.
   */
  lemma LoadIsAtomic(w: World, tasks: seq<Task>, schedule: seq<nat>, k: nat, r: Result<seq<byte>, Error>)
    requires Inv(w)
    requires k < |tasks| && tasks[k].LoadTask? && Ended(Interleaved(w, tasks, schedule), k, r)
    ensures exists n :: 0 <= n < |schedule| && schedule[n] == k
                     && LoadFile(Interleaved(w, tasks, schedule[..n]).st, tasks[k].user, tasks[k].filename) == r
  {
    var c := Launch(w.st, w.led, tasks);
    InterleavedSound(w, tasks, schedule);
    LoadsExplained(c, schedule, k, r);
    var n :| 0 <= n < |schedule| && schedule[n] == k && WouldLoad(Moves(c, schedule[..n]), k, r);
    InterleavedSound(w, tasks, schedule[..n]);
    assert Interleaved(w, tasks, schedule[..n]) == Moves(c, schedule[..n]);
  }
}
