/** Which appends a file contains after any interleaving: what a commit keeps, and when nothing is lost. */
module ConcurrentAppends {
  import opened Wrappers
  import opened Blocks
  import opened Records
  import opened Protocol
  import opened Ledgers
  import opened Refinement
  import opened Runs
  import opened Guarantees
  import opened Stepwise
  import opened Concurrency
  import opened Interleaving
  import opened ConcurrentFiles

  /** Task `p` is an append to file `i` that has reported success. */
  ghost predicate HasAppended(c: Config, p: nat, i: nat) {
    IsMove(c, p) && c.tasks[p].AppendTask? && c.phases[p] == Finished(Success([])) && c.views[p].Some?
      && c.views[p].value.file == i
  }

  ghost predicate NoRepeats(version: seq<nat>) {
    forall a, b :: 0 <= a < b < |version| ==> version[a] != version[b]
  }

  ghost predicate VersionOK(c: Config, i: nat, version: seq<nat>) {
    NoRepeats(version) && forall p | p in version :: HasAppended(c, p, i)
  }

  /** A version lists finished appends to that file, each once. */
  ghost predicate TagsOK(c: Config) {
    && |c.phases| == |c.tasks| && |c.views| == |c.tasks|
    && (forall i | i in c.versions :: VersionOK(c, i, c.versions[i]))
    && forall q :: 0 <= q < |c.views| ==>
         (c.views[q].Some? ==> VersionOK(c, c.views[q].value.file, c.views[q].value.version))
  }

  /** A task between its read of inode `i` and its write of it. */
  predicate WriterOn(c: Config, q: nat, i: nat) {
    IsMove(c, q) && c.phases[q].Writing? && c.views[q].Some? && c.views[q].value.file == i
  }

  // ---------- what a commit keeps ----------

  lemma AppendedKept(c: Config, k: nat, p: nat, i: nat)
    requires HasAppended(c, p, i)
    ensures HasAppended(Move(c, k), p, i)
  {
  }

  lemma VersionKept(c: Config, k: nat, i: nat, version: seq<nat>)
    requires VersionOK(c, i, version)
    ensures VersionOK(Move(c, k), i, version)
  {
    forall p | p in version
      ensures HasAppended(Move(c, k), p, i)
    {
      AppendedKept(c, k, p, i);
    }
  }

  lemma CommitEnds(c: Config, k: nat, view: Sighting)
    requires IsMove(c, k) && Commits(c, k) && c.views[k] == Some(view) && c.tasks[k].AppendTask?
    ensures HasAppended(Move(c, k), k, view.file)
    ensures forall version, i | VersionOK(c, i, version) :: k !in version
  {
  }

  lemma CommitVersion(c: Config, k: nat, view: Sighting)
    requires IsMove(c, k) && Commits(c, k) && c.views[k] == Some(view) && c.tasks[k].AppendTask?
    requires VersionOK(c, view.file, view.version)
    ensures VersionOK(Move(c, k), view.file, view.version + [k])
  {
    CommitEnds(c, k, view);
    VersionKept(c, k, view.file, view.version);
  }

  lemma MoveVersions(c: Config, k: nat, c': Config)
    requires TagsOK(c) && IsMove(c, k) && c' == Move(c, k)
    requires Commits(c, k) ==> VersionOK(c', c.views[k].value.file, c.views[k].value.version + [k])
    ensures forall i | i in c'.versions :: VersionOK(c', i, c'.versions[i])
  {
    forall i | i in c.versions
      ensures VersionOK(c', i, c.versions[i])
    {
      VersionKept(c, k, i, c.versions[i]);
    }
  }

  lemma MoveViews(c: Config, k: nat, c': Config)
    requires TagsOK(c) && IsMove(c, k) && c' == Move(c, k)
    ensures forall q :: 0 <= q < |c'.views| ==>
              (c'.views[q].Some? ==> VersionOK(c', c'.views[q].value.file, c'.views[q].value.version))
  {
    forall i | i in c.versions
      ensures VersionOK(c', i, c.versions[i])
    {
      VersionKept(c, k, i, c.versions[i]);
    }
    forall q | 0 <= q < |c.views| && c.views[q].Some?
      ensures VersionOK(c', c.views[q].value.file, c.views[q].value.version)
    {
      VersionKept(c, k, c.views[q].value.file, c.views[q].value.version);
    }
  }

  lemma CommitTask(c: Config, k: nat)
    requires PhasesOK(c) && IsMove(c, k) && Commits(c, k)
    ensures c.tasks[k].AppendTask?
  {
    assert PhaseOK(c.led, c.st, c.tasks[k], c.phases[k], c.views[k]);
  }

  lemma MoveTags(c: Config, k: nat)
    requires PhasesOK(c) && TagsOK(c)
    ensures TagsOK(Move(c, k))
  {
    if IsMove(c, k) {
      if Commits(c, k) {
        CommitTask(c, k);
        CommitVersion(c, k, c.views[k].value);
      }
      MoveVersions(c, k, Move(c, k));
      MoveViews(c, k, Move(c, k));
    }
  }

  lemma {:induction false} MovesTags(c: Config, schedule: seq<nat>)
    requires Sound(c) && TagsOK(c)
    ensures TagsOK(Moves(c, schedule))
    decreases |schedule|
  {
    if schedule != [] {
      MoveTags(c, schedule[0]);
      MoveSound(c, schedule[0]);
      MovesTags(Move(c, schedule[0]), schedule[1..]);
    }
  }

  lemma LaunchTags(st: State, led: Ledger, tasks: seq<Task>)
    ensures TagsOK(Launch(st, led, tasks))
  {
  }

  lemma InLonger(version: seq<nat>, k: nat, p: nat)
    ensures p in version + [k] <==> p == k || p in version
  {
  }

  lemma CommitVersions(c: Config, k: nat, view: Sighting, c': Config, p: nat)
    requires IsMove(c, k) && Commits(c, k) && c.views[k] == Some(view) && c' == Move(c, k)
    ensures view.file in c'.versions && (p in c'.versions[view.file] <==> p == k || p in view.version)
    ensures forall i | i in c.versions && i != view.file :: i in c'.versions && c'.versions[i] == c.versions[i]
  {
    assert c'.versions == c.versions[view.file := view.version + [k]];
    InLonger(view.version, k, p);
  }

  /**
   Exactly what a commit keeps.  When append `k` writes the inode, another append is in the file afterwards
   if and only if it was in the version `k` had read; whatever was committed in between is gone.
   */
  lemma CommitKeepsExactly(w: World, tasks: seq<Task>, schedule: seq<nat>, k: nat, c: Config, view: Sighting, p: nat)
    requires Inv(w)
    requires c == Interleaved(w, tasks, schedule) && IsMove(c, k) && Commits(c, k) && c.views[k] == Some(view)
    ensures view.file in c.versions && view.file in Move(c, k).versions
    ensures p in Move(c, k).versions[view.file] <==> p == k || p in view.version
    ensures forall i | i in c.versions && i != view.file ::
              i in Move(c, k).versions && Move(c, k).versions[i] == c.versions[i]
    ensures forall user: UserData, filename | Opened(c.st, user, filename) == Some(Random(view.file)) ::
              LoadFile(Move(c, k).st, user, filename) == Success(Flatten(view.info.chunks) + ContentOf(c.tasks[k]))
  {
    InterleavedSound(w, tasks, schedule);
    CommitIsKnown(c, k);
    CommitVersions(c, k, view, Move(c, k), p);
    forall user: UserData, filename | Opened(c.st, user, filename) == Some(Random(view.file))
      ensures LoadFile(Move(c, k).st, user, filename) == Success(Flatten(view.info.chunks) + ContentOf(c.tasks[k]))
    {
      CommitLoads(c, k, view, Move(c, k), user, filename);
    }
  }

  lemma CommitLoads(c: Config, k: nat, view: Sighting, c': Config, user: UserData, filename: string)
    requires Sound(c) && IsMove(c, k) && Commits(c, k) && c.views[k] == Some(view) && c' == Move(c, k)
    requires Opened(c.st, user, filename) == Some(Random(view.file))
    ensures LoadFile(c'.st, user, filename) == Success(Flatten(view.info.chunks) + ContentOf(c.tasks[k]))
  {
    CommitMove(c, k, c');
    MoveSharing(c, k);
    CommittedBytes(c, k, view, c');
    OpenerLoads(c.led, c.st, c'.led, c'.st, user, filename, view.file);
  }

  lemma CommittedBytes(c: Config, k: nat, view: Sighting, c': Config)
    requires TextsOK(c) && TextsOK(c') && IsMove(c, k) && c.views[k] == Some(view) && k < |c.tasks|
    requires c'.versions == c.versions[view.file := view.version + [k]] && c'.tasks == c.tasks && c'.origin == c.origin
    ensures view.file in c'.led.files
    ensures Flatten(c'.led.files[view.file].chunks) == Flatten(view.info.chunks) + ContentOf(c.tasks[k])
  {
    assert ViewText(c, view);
    TextGrows(c.tasks, view.version, k, c.origin[view.file]);
  }

  lemma OpenerLoads(led: Ledger, st: State, led': Ledger, st': State, user: UserData, filename: string, i: nat)
    requires WellFormed(led) && Represents(led, st) && WellFormed(led') && Represents(led', st')
    requires SameSharing(led, led')
    requires Opened(st, user, filename) == Some(Random(i)) && i in led'.files
    ensures LoadFile(st', user, filename) == Success(Flatten(led'.files[i].chunks))
  {
    OpenedAgrees(led, st, user, filename);
    SharingOpens(led, led', user, filename);
    LoadFileReads(led', st', user, filename);
  }

  // ---------- when an append survives ----------

  /** Append `p` is in file `i`, and every append under way on `i` has read it. */
  ghost predicate Settled(c: Config, p: nat, i: nat) {
    && i in c.versions && p in c.versions[i]
    && forall q: nat | WriterOn(c, q, i) :: p in c.views[q].value.version
  }

  /** A task that starts to write has just read the current inode. */
  lemma NewWriter(c: Config, k: nat)
    requires Sound(c) && IsMove(c, k) && Sees(c, k) && NextPhase(c, k).Writing?
    ensures SightingAfter(c, k).Some?
    ensures SightingAfter(c, k).value.file in c.versions
    ensures SightingAfter(c, k).value.version == c.versions[SightingAfter(c, k).value.file]
  {
    assert PhaseOK(c.led, c.st, c.tasks[k], c.phases[k], c.views[k]);
    QuietPhase(c, k);
  }

  lemma SettledMove(c: Config, k: nat, p: nat, i: nat, c': Config)
    requires IsMove(c, k) && Settled(c, p, i) && c' == Move(c, k)
    requires Sees(c, k) && NextPhase(c, k).Writing? ==>
               SightingAfter(c, k).Some? && SightingAfter(c, k).value.file in c.versions
               && SightingAfter(c, k).value.version == c.versions[SightingAfter(c, k).value.file]
    ensures Settled(c', p, i)
  {
    assert Commits(c, k) && c.views[k].value.file == i ==> WriterOn(c, k, i);
    forall q: nat | WriterOn(c', q, i)
      ensures p in c'.views[q].value.version
    {
      assert q != k || !Sees(c, k) ==> WriterOn(c, q, i);
    }
  }

  lemma SettledKept(c: Config, k: nat, p: nat, i: nat)
    requires Sound(c) && Settled(c, p, i)
    ensures Settled(Move(c, k), p, i)
  {
    if IsMove(c, k) {
      if Sees(c, k) && NextPhase(c, k).Writing? {
        NewWriter(c, k);
      }
      SettledMove(c, k, p, i, Move(c, k));
    }
  }

  lemma {:induction false} SettledStays(c: Config, schedule: seq<nat>, p: nat, i: nat)
    requires Sound(c) && Settled(c, p, i)
    ensures Settled(Moves(c, schedule), p, i)
    decreases |schedule|
  {
    if schedule != [] {
      SettledKept(c, schedule[0], p, i);
      MoveSound(c, schedule[0]);
      SettledStays(Move(c, schedule[0]), schedule[1..], p, i);
    }
  }

  lemma CommitSettles(c: Config, k: nat, i: nat, c': Config)
    requires WriterOn(c, k, i) && Commits(c, k) && c' == Move(c, k)
    requires forall q: nat | WriterOn(c, q, i) :: q == k
    ensures Settled(c', k, i)
  {
    forall q: nat
      ensures !WriterOn(c', q, i)
    {
      assert q != k ==> (WriterOn(c', q, i) <==> WriterOn(c, q, i));
    }
  }

  /**
   An append whose window is closed by no one else is never lost.  If no other append is between its read
   and its write of the inode when `k` commits, then `k` is in the file in every later configuration.
   */
  lemma QuietCommitSurvives(w: World, tasks: seq<Task>, schedule: seq<nat>, k: nat, i: nat, later: seq<nat>, c: Config)
    requires Inv(w)
    requires c == Interleaved(w, tasks, schedule) && WriterOn(c, k, i) && Commits(c, k)
    requires forall q: nat | WriterOn(c, q, i) :: q == k
    ensures i in Moves(Move(c, k), later).versions && k in Moves(Move(c, k), later).versions[i]
  {
    InterleavedSound(w, tasks, schedule);
    MoveSound(c, k);
    CommitSettles(c, k, i, Move(c, k));
    SettledStays(Move(c, k), later, k, i);
  }

  // ---------- windows that never overlap ----------

  /** At most one append per file is between its read and its write of the inode. */
  ghost predicate OneWriter(c: Config) {
    forall p: nat, q: nat, i: nat | WriterOn(c, p, i) && WriterOn(c, q, i) :: p == q
  }

  ghost predicate NeverOverlap(c: Config, schedule: seq<nat>)
    decreases |schedule|
  {
    OneWriter(c) && (schedule != [] ==> NeverOverlap(Move(c, schedule[0]), schedule[1..]))
  }

  /** Every append under way has read the current inode. */
  ghost predicate UpToDate(c: Config) {
    forall q: nat, i: nat | WriterOn(c, q, i) :: i in c.versions && c.views[q].value.version == c.versions[i]
  }

  ghost predicate NoneLost(c: Config) {
    forall p: nat, i: nat | HasAppended(c, p, i) :: i in c.versions && p in c.versions[i]
  }

  /** A writer that does not move has still read the current inode: nobody else can commit to its file. */
  lemma WaitingWriter(c: Config, k: nat, c': Config, q: nat, i: nat)
    requires IsMove(c, k) && UpToDate(c) && OneWriter(c) && c' == Move(c, k) && q != k && WriterOn(c', q, i)
    ensures i in c'.versions && c'.views[q].value.version == c'.versions[i]
  {
    assert WriterOn(c, q, i);
    if Commits(c, k) {
      assert WriterOn(c, k, c.views[k].value.file);
    }
  }

  lemma MovingWriter(c: Config, k: nat, c': Config, i: nat)
    requires IsMove(c, k) && UpToDate(c) && c' == Move(c, k) && WriterOn(c', k, i)
    requires Sees(c, k) && NextPhase(c, k).Writing? ==>
               SightingAfter(c, k).Some? && SightingAfter(c, k).value.file in c.versions
               && SightingAfter(c, k).value.version == c.versions[SightingAfter(c, k).value.file]
    ensures i in c'.versions && c'.views[k].value.version == c'.versions[i]
  {
    if !Sees(c, k) {
      assert WriterOn(c, k, i);
    }
  }

  lemma UpToDateKept(c: Config, k: nat, c': Config)
    requires Sound(c) && UpToDate(c) && OneWriter(c) && c' == Move(c, k)
    ensures UpToDate(c')
  {
    if IsMove(c, k) {
      if Sees(c, k) && NextPhase(c, k).Writing? {
        NewWriter(c, k);
      }
      forall q: nat, i: nat | WriterOn(c', q, i)
        ensures i in c'.versions && c'.views[q].value.version == c'.versions[i]
      {
        if q != k {
          WaitingWriter(c, k, c', q, i);
        } else {
          MovingWriter(c, k, c', i);
        }
      }
    }
  }

  /** Commits by tasks that are up to date only add to a version. */
  lemma VersionsGrow(c: Config, k: nat, c': Config)
    requires IsMove(c, k) && UpToDate(c) && c' == Move(c, k)
    ensures forall i, p | i in c.versions && p in c.versions[i] :: i in c'.versions && p in c'.versions[i]
    ensures Commits(c, k) ==> c.views[k].value.file in c'.versions && k in c'.versions[c.views[k].value.file]
  {
    if Commits(c, k) {
      assert WriterOn(c, k, c.views[k].value.file);
    }
  }

  lemma StillAppended(c: Config, k: nat, c': Config, p: nat, i: nat)
    requires PhasesOK(c) && IsMove(c, k) && c' == Move(c, k) && HasAppended(c', p, i)
    ensures HasAppended(c, p, i) || (p == k && Commits(c, k) && c.views[k].value.file == i)
  {
    if p == k {
      FinishedHow(c, k, i);
    }
  }

  lemma NoneLostKept(c: Config, k: nat, c': Config)
    requires PhasesOK(c) && UpToDate(c) && NoneLost(c) && c' == Move(c, k)
    ensures NoneLost(c')
  {
    if IsMove(c, k) {
      VersionsGrow(c, k, c');
      forall p: nat, i: nat | HasAppended(c', p, i)
        ensures i in c'.versions && p in c'.versions[i]
      {
        StillAppended(c, k, c', p, i);
      }
    }
  }

  /** An append is finished because it was already, or because it commits now. */
  lemma FinishedHow(c: Config, k: nat, i: nat)
    requires PhasesOK(c) && IsMove(c, k) && HasAppended(Move(c, k), k, i)
    ensures HasAppended(c, k, i) || (Commits(c, k) && c.views[k].value.file == i)
  {
    assert PhaseOK(c.led, c.st, c.tasks[k], c.phases[k], c.views[k]);
  }

  lemma {:induction false} MovesLoseNone(c: Config, schedule: seq<nat>)
    requires Sound(c) && UpToDate(c) && NoneLost(c) && NeverOverlap(c, schedule)
    ensures NoneLost(Moves(c, schedule))
    decreases |schedule|
  {
    if schedule != [] {
      UpToDateKept(c, schedule[0], Move(c, schedule[0]));
      NoneLostKept(c, schedule[0], Move(c, schedule[0]));
      MoveSound(c, schedule[0]);
      MovesLoseNone(Move(c, schedule[0]), schedule[1..]);
    }
  }

  lemma NothingYet(st: State, led: Ledger, tasks: seq<Task>)
    ensures UpToDate(Launch(st, led, tasks)) && NoneLost(Launch(st, led, tasks))
  {
  }

  /**
   Appends whose windows never overlap are never lost: after any such schedule, each file contains every
   append to it that has reported success, once, and nothing else.
   */
  lemma NoOverlapNoLoss(w: World, tasks: seq<Task>, schedule: seq<nat>, i: nat, c: Config)
    requires Inv(w)
    requires NeverOverlap(Interleaved(w, tasks, []), schedule) && c == Interleaved(w, tasks, schedule)
    requires i in c.versions
    ensures NoRepeats(c.versions[i]) && forall p: nat :: p in c.versions[i] <==> HasAppended(c, p, i)
  {
    var c0 := Launch(w.st, w.led, tasks);
    InterleavedSound(w, tasks, schedule);
    LaunchTags(w.st, w.led, tasks);
    MovesTags(c0, schedule);
    NothingYet(w.st, w.led, tasks);
    MovesLoseNone(c0, schedule);
  }

  // ---------- windows that do overlap ----------

  function Repeat(k: nat, count: nat): seq<nat> {
    if count == 0 then [] else [k] + Repeat(k, count - 1)
  }

  lemma {:induction false} MovesJoin(c: Config, first: seq<nat>, second: seq<nat>)
    ensures Moves(c, first + second) == Moves(Moves(c, first), second)
    decreases |first|
  {
    if first == [] {
      assert first + second == second;
    } else {
      assert (first + second)[1..] == first[1..] + second;
      MovesJoin(Move(c, first[0]), first[1..], second);
    }
  }

  /** A task that has its inode open runs on to its commit. */
  lemma {:induction false} RunsOut(c: Config, k: nat, view: Sighting)
    requires IsMove(c, k) && c.phases[k].Writing? && c.views[k] == Some(view)
    ensures var c' := Moves(c, Repeat(k, |c.phases[k].todo| + 1));
            && c'.phases == c.phases[k := Finished(Success([]))] && c'.views == c.views && c'.tasks == c.tasks
            && c'.versions == c.versions[view.file := view.version + [k]]
    decreases |c.phases[k].todo|
  {
    var c1, todo := Move(c, k), c.phases[k].todo;
    assert Repeat(k, |todo| + 1)[1..] == Repeat(k, |todo|) && Repeat(k, |todo| + 1)[0] == k;
    assert Moves(c, Repeat(k, |todo| + 1)) == Moves(c1, Repeat(k, |todo|));
    if todo != [] {
      RunsOut(c1, k, view);
    }
  }

  /** Three reads bring an append to its inode. */
  lemma ReadsIn(c: Config, k: nat, user: UserData, filename: string, content: seq<byte>, node: MailboxNode, base: Inode)
    requires IsMove(c, k) && c.phases[k].Begin? && c.tasks[k] == AppendTask(user, filename, Some(content))
    requires OpenNode(c.st, user, filename) == Success(node) && OpenInode(c.st, node) == Success(base)
    requires node.inode.Random? && node.inode.n in c.led.files && node.inode.n in c.versions
    ensures Moves(c, [k, k, k])
         == c.(phases := c.phases[k := Writing(node, base, Chunks(content), [])],
               views := c.views[k := Some(Sighting(node.inode.n, c.led.files[node.inode.n], c.versions[node.inode.n]))])
  {
    var c1 := Move(c, k);
    assert c1 == c.(phases := c.phases[k := HasAccess(OpenAccess(c.st, user, filename).value)]);
    var c2 := Move(c1, k);
    assert c2 == c.(phases := c.phases[k := HasNode(node)]);
    assert [k, k, k][1..] == [k, k] && [k, k][1..] == [k];
    assert Moves(c, [k, k, k]) == Moves(c1, [k, k]) == Moves(c2, [k]) == Move(c2, k);
  }

  function TwoAppends(user: UserData, filename: string, a: seq<byte>, b: seq<byte>): seq<Task> {
    [AppendTask(user, filename, Some(a)), AppendTask(user, filename, Some(b))]
  }

  /** Both read the inode, then the first one writes, then the second. */
  function Race(a: seq<byte>, b: seq<byte>): seq<nat> {
    [0, 0, 0] + ([1, 1, 1] + (Repeat(0, |Chunks(a)| + 1) + Repeat(1, |Chunks(b)| + 1)))
  }

  /** Both have read the inode. */
  lemma RaceReads(c0: Config, user: UserData, filename: string, a: seq<byte>, b: seq<byte>, node: MailboxNode,
                  base: Inode)
      returns (c2: Config)
    requires c0.tasks == TwoAppends(user, filename, a, b) && c0.phases == [Begin, Begin] && c0.views == [None, None]
    requires OpenNode(c0.st, user, filename) == Success(node) && OpenInode(c0.st, node) == Success(base)
    requires node.inode.Random? && node.inode.n in c0.led.files && node.inode.n in c0.versions
    ensures c2 == Moves(Moves(c0, [0, 0, 0]), [1, 1, 1]) && c2.tasks == c0.tasks && c2.versions == c0.versions
    ensures c2.phases == [Writing(node, base, Chunks(a), []), Writing(node, base, Chunks(b), [])]
    ensures var view := Sighting(node.inode.n, c0.led.files[node.inode.n], c0.versions[node.inode.n]);
            c2.views == [Some(view), Some(view)]
  {
    ReadsIn(c0, 0, user, filename, a, node, base);
    var c1 := Moves(c0, [0, 0, 0]);
    ReadsIn(c1, 1, user, filename, b, node, base);
    c2 := Moves(c1, [1, 1, 1]);
  }

  /** Then both write. */
  lemma RaceWrites(c2: Config, user: UserData, filename: string, a: seq<byte>, b: seq<byte>, node: MailboxNode,
                   base: Inode, view: Sighting)
      returns (c: Config)
    requires c2.tasks == TwoAppends(user, filename, a, b) && c2.views == [Some(view), Some(view)]
    requires c2.phases == [Writing(node, base, Chunks(a), []), Writing(node, base, Chunks(b), [])]
    ensures c == Moves(Moves(c2, Repeat(0, |Chunks(a)| + 1)), Repeat(1, |Chunks(b)| + 1))
    ensures c.versions == c2.versions[view.file := view.version + [1]]
    ensures HasAppended(c, 0, view.file) && HasAppended(c, 1, view.file)
  {
    RunsOut(c2, 0, view);
    var c3 := Moves(c2, Repeat(0, |Chunks(a)| + 1));
    RunsOut(c3, 1, view);
    c := Moves(c3, Repeat(1, |Chunks(b)| + 1));
  }

  lemma RaceJoins(c0: Config, a: seq<byte>, b: seq<byte>)
    ensures Moves(c0, Race(a, b))
         == Moves(Moves(Moves(Moves(c0, [0, 0, 0]), [1, 1, 1]), Repeat(0, |Chunks(a)| + 1)), Repeat(1, |Chunks(b)| + 1))
  {
    var first, second := Repeat(0, |Chunks(a)| + 1), Repeat(1, |Chunks(b)| + 1);
    MovesJoin(c0, [0, 0, 0], [1, 1, 1] + (first + second));
    MovesJoin(Moves(c0, [0, 0, 0]), [1, 1, 1], first + second);
    MovesJoin(Moves(Moves(c0, [0, 0, 0]), [1, 1, 1]), first, second);
  }

  lemma RaceRuns(c0: Config, user: UserData, filename: string, a: seq<byte>, b: seq<byte>, node: MailboxNode,
                 base: Inode)
      returns (c: Config)
    requires c0.tasks == TwoAppends(user, filename, a, b) && c0.phases == [Begin, Begin] && c0.views == [None, None]
    requires OpenNode(c0.st, user, filename) == Success(node) && OpenInode(c0.st, node) == Success(base)
    requires node.inode.Random? && node.inode.n in c0.led.files && node.inode.n in c0.versions
    ensures c == Moves(c0, Race(a, b)) && HasAppended(c, 0, node.inode.n) && HasAppended(c, 1, node.inode.n)
    ensures c.versions == c0.versions[node.inode.n := c0.versions[node.inode.n] + [1]]
  {
    var i := node.inode.n;
    var c2 := RaceReads(c0, user, filename, a, b, node, base);
    c := RaceWrites(c2, user, filename, a, b, node, base, Sighting(i, c0.led.files[i], c0.versions[i]));
    RaceJoins(c0, a, b);
  }

  lemma OnlySecond(tasks: seq<Task>, user: UserData, filename: string, a: seq<byte>, b: seq<byte>)
    requires tasks == TwoAppends(user, filename, a, b)
    ensures Contributions(tasks, [] + [1]) == b
  {
    assert ([] + [1])[..0] == [];
    assert [] + b == b;
  }

  lemma LaunchTwo(st: State, led: Ledger, user: UserData, filename: string, a: seq<byte>, b: seq<byte>, c0: Config)
    requires c0 == Launch(st, led, TwoAppends(user, filename, a, b))
    ensures c0.phases == [Begin, Begin] && c0.views == [None, None]
    ensures c0.st == st && c0.led == led && c0.tasks == TwoAppends(user, filename, a, b)
    ensures forall i | i in led.files :: i in c0.versions && c0.versions[i] == []
  {
  }

  lemma RaceVersions(led: Ledger, st: State, user: UserData, filename: string, a: seq<byte>, b: seq<byte>, i: nat,
                     c0: Config)
      returns (c: Config)
    requires RecsOK(led) && RecsStored(led, st) && MailsStored(led, st) && FilesStored(led, st)
    requires CanOpen(led, user, filename) && i == FileOf(led, user, filename)
    requires c0 == Launch(st, led, TwoAppends(user, filename, a, b))
    ensures c == Moves(c0, Race(a, b)) && i in c.versions && c.versions[i] == [] + [1] && HasAppended(c, 0, i)
    ensures HasAppended(c, 1, i)
  {
    LiveHolderOpens(led, st, user, filename);
    LaunchTwo(st, led, user, filename, a, b, c0);
    c := RaceRuns(c0, user, filename, a, b, MailboxNode(led.files[i].key, Random(i)),
                  Inode(|Flatten(led.files[i].chunks)|, led.files[i].blocks));
  }

  lemma RaceHappens(w: World, user: UserData, filename: string, a: seq<byte>, b: seq<byte>, i: UUID, c0: Config,
                    c: Config)
    requires Inv(w) && Opened(w.st, user, filename) == Some(i)
    requires c0 == Launch(w.st, w.led, TwoAppends(user, filename, a, b)) && c == Moves(c0, Race(a, b))
    ensures i.Random? && HasAppended(c, 0, i.n) && HasAppended(c, 1, i.n) && VersionAt(c, Some(i)) == [] + [1]
  {
    OpenedAgrees(w.led, w.st, user, filename);
    var c' := RaceVersions(w.led, w.st, user, filename, a, b, i.n, c0);
  }

  /**
   A lost update.  In every reachable world, for every user that can load a file and for any two contents,
   there is a schedule of two appends that both report success and leave only the second in the file.
   */
  lemma OverlapLoses(w: World, user: UserData, filename: string, a: seq<byte>, b: seq<byte>, before: seq<byte>,
                     i: UUID, tasks: seq<Task>, c: Config)
    requires Inv(w)
    requires LoadFile(w.st, user, filename) == Success(before)
    requires Opened(w.st, user, filename) == Some(i)
    requires tasks == TwoAppends(user, filename, a, b)
    requires c == Interleaved(w, tasks, Race(a, b))
    ensures i.Random? && HasAppended(c, 0, i.n) && HasAppended(c, 1, i.n)
    ensures LoadFile(c.st, user, filename) == Success(before + b)
  {
    RaceHappens(w, user, filename, a, b, i, Launch(w.st, w.led, tasks), c);
    OnlySecond(tasks, user, filename, a, b);
    EveryStateLoads(w, tasks, Race(a, b), user, filename);
  }
}
