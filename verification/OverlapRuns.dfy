/**
 Unfinished appends that meet a revocation, in every world in which the users are logged in: a file that is not
 empty is lost to everybody, and an empty one ends up with the user who was revoked.
 */
module OverlapRuns {
  import opened Wrappers
  import opened Blocks
  import opened Records
  import opened Protocol
  import opened Ledgers
  import opened LedgerSteps
  import opened Refinement
  import opened RefineRevoke
  import opened Sharing
  import opened Simulation
  import opened Stepwise
  import opened Concurrency
  import opened Runs
  import opened Guarantees
  import opened Stability
  import opened Frames
  import opened Witnesses
  import opened ConcurrentAppends
  import opened Overlaps

  /** User `a` appends to `f`; after the three reads the same user revokes `r`; then the append goes on. */
  function Meeting(w: World, sid: nat, a: UserData, f: string, data: seq<byte>, r: string): Overlap {
    Overlap(w, [AppendTask(a, f, Some(data))], [0, 0, 0], 0, Revoke(sid, f, r))
  }

  // ---------- how it begins ----------

  /** A live holder's append after its three reads. */
  lemma OneReads(w: World, user: UserData, filename: string, data: seq<byte>, i: nat, c: Config)
    requires Inv(w) && CanOpen(w.led, user, filename) && i == FileOf(w.led, user, filename)
    requires c == Interleaved(w, [AppendTask(user, filename, Some(data))], [0, 0, 0])
    ensures IsMove(c, 0) && c.st == w.st && c.led == w.led && c.tasks == [AppendTask(user, filename, Some(data))]
    ensures c.phases[0] == Writing(MailboxNode(w.led.files[i].key, Random(i)),
                                   Inode(|Flatten(w.led.files[i].chunks)|, w.led.files[i].blocks), Chunks(data), [])
  {
    var c0 := Launch(w.st, w.led, [AppendTask(user, filename, Some(data))]);
    LiveHolderOpens(w.led, w.st, user, filename);
    ReadsIn(c0, 0, user, filename, data, MailboxNode(w.led.files[i].key, Random(i)),
            Inode(|Flatten(w.led.files[i].chunks)|, w.led.files[i].blocks));
  }

  /** Reading changes nothing. */
  lemma MeetingBegins(o: Overlap, w: World, sid: nat, a: UserData, f: string, data: seq<byte>, r: string, i: nat)
    requires Inv(w) && sid < |w.sessions| && a == w.sessions[sid] && HoldsFile(w.led, a, f, i)
    requires o == Meeting(w, sid, a, f, data, r)
    ensures Inv(o.Before()) && o.Before() == w
    ensures o.Reached() == Writing(MailboxNode(w.led.files[i].key, Random(i)),
                                   Inode(|Flatten(w.led.files[i].chunks)|, w.led.files[i].blocks), Chunks(data), [])
  {
    OneReads(w, a, f, data, i, o.Between());
    InterleaveStep(w, Interleave(o.tasks, o.schedule), o.Between());
  }

  /** A revoker loads afterwards what it loaded before. */
  lemma RevokerOpens(w: World, op: Op, user: UserData, i: nat, w1: World)
    requires Inv(w) && op.Revoke? && HasSession(w, op) && user == Caller(w, op) && op.filename != "userStruct"
    requires HoldsFile(w.led, user, op.filename, i) && w1 == Step(w, op)
    ensures Succeeds(w, op) && Opened(w.st, user, op.filename) == Some(Random(i))
    ensures Opened(w1.st, user, op.filename) == Some(Random(i))
  {
    var s := AccessUUID(user.username, op.filename);
    CollidesWithSelf(user.username, op.filename);
    RevokeInv(w, op);
    CallStep(w, op);
    RevokerHolds(w.led, w1.led, user, op.filename, op.recipient, i, s, w.led.recs[s]);
    OpenedAgrees(w.led, w.st, user, op.filename);
    OpenedAgrees(w1.led, w1.st, user, op.filename);
  }

  lemma RevokerBlocks(w: World, op: Op, user: UserData, i: nat)
    requires Inv(w) && op.Revoke? && HasSession(w, op) && user == Caller(w, op)
    requires HoldsFile(w.led, user, op.filename, i)
    ensures BlocksNow(w, op) == w.led.files[i].blocks
  {
    LiveHolderOpens(w.led, w.st, user, op.filename);
  }

  lemma MeetingRevokes(o: Overlap, w: World, op: Op, a: UserData, data: seq<byte>, i: nat, w1: World)
    requires Inv(w) && op.Revoke? && HasSession(w, op) && a == Caller(w, op) && HoldsFile(w.led, a, op.filename, i)
    requires o == Meeting(w, op.sid, a, op.filename, data, op.recipient) && op.filename != "userStruct"
    requires w1 == Step(w, op)
    ensures o.Before() == w && o.After() == w1 && o.revocation == op && o.Revokes(Random(i)) && o.HasRead(Random(i))
    ensures Opened(w1.st, a, op.filename) == Some(Random(i)) && BlocksNow(w, op) == w.led.files[i].blocks
    ensures o.Reached().base.blocks == w.led.files[i].blocks && o.Reached().node.fileKey == w.led.files[i].key
  {
    MeetingBegins(o, w, op.sid, a, op.filename, data, op.recipient, i);
    RevokerOpens(w, op, a, i, w1);
    RevokerBlocks(w, op, a, i);
  }

  // ---------- a file that is not empty ----------

  lemma HolderOfText(w: World, user: UserData, filename: string, before: seq<byte>)
    requires Inv(w) && LoadFile(w.st, user, filename) == Success(before)
    ensures CanOpen(w.led, user, filename) && HasBytes(w.led, FileOf(w.led, user, filename), before)
  {
    LoadFileReads(w.led, w.st, user, filename);
  }

  /** A file has blocks exactly when it has bytes. */
  lemma BlocksIffBytes(led: Ledger, i: nat, bytes: seq<byte>)
    requires FilesOK(led) && HasBytes(led, i, bytes)
    ensures led.files[i].blocks == [] <==> bytes == []
  {
    assert FileOK(led, i, led.files[i]);
    if led.files[i].blocks != [] {
      assert |led.files[i].chunks[0]| > 0;
    }
  }

  /**
   It can happen to every file that is not empty.  In every reachable world let a logged-in user who can load the
   file append to it, and after the append's three reads let the same user revoke anybody.  The revocation
   succeeds and the user can still load the file; then the append goes on, reports success, and nobody whose
   mailbox leads to the file can load it.
   */
  lemma OverlapArises(w: World, sid: nat, a: UserData, f: string, data: seq<byte>, r: string, before: seq<byte>,
                      inode: UUID, user: UserData, filename: string)
    requires Inv(w) && sid < |w.sessions| && a == w.sessions[sid] && f != "userStruct" && before != []
    requires LoadFile(w.st, a, f) == Success(before) && Opened(w.st, a, f) == Some(inode)
    ensures var o := Meeting(w, sid, a, f, data, r);
            && o.Revokes(inode) && o.HasRead(inode) && o.End().1 == Success([])
            && LoadFile(o.After().st, a, f).Success? && LoadFile(o.End().0, a, f).Failure?
            && (InodeNamed(o.After().st, user, filename) == Some(inode) ==>
                  LoadFile(o.End().0, user, filename).Failure?)
  {
    HolderOfText(w, a, f, before);
    var i := FileOf(w.led, a, f);
    OpenedAgrees(w.led, w.st, a, f);
    BlocksIffBytes(w.led, i, before);
    MeetingDestroys(Meeting(w, sid, a, f, data, r), w, Revoke(sid, f, r), a, data, i);
    if InodeNamed(Meeting(w, sid, a, f, data, r).After().st, user, filename) == Some(inode) {
      MeetingLeavesNobody(Meeting(w, sid, a, f, data, r), w, Revoke(sid, f, r), a, data, i, w.led.files[i].blocks[0],
                          user, filename);
    }
  }

  lemma MeetingDestroys(o: Overlap, w: World, op: Op, a: UserData, data: seq<byte>, i: nat)
    requires Inv(w) && op.Revoke? && HasSession(w, op) && a == Caller(w, op) && HoldsFile(w.led, a, op.filename, i)
    requires o == Meeting(w, op.sid, a, op.filename, data, op.recipient) && op.filename != "userStruct"
    ensures o.Revokes(Random(i)) && o.HasRead(Random(i)) && o.End().1 == Success([])
    ensures LoadFile(o.After().st, a, op.filename).Success? && LoadFile(o.End().0, a, op.filename).Failure?
  {
    MeetingRevokes(o, w, op, a, data, i, Step(w, op));
    ReportsSuccess(o, Random(i));
    HoldersKeepIff(o, Random(i), a, op.filename);
  }

  lemma MeetingLeavesNobody(o: Overlap, w: World, op: Op, a: UserData, data: seq<byte>, i: nat, u: UUID,
                            user: UserData, filename: string)
    requires Inv(w) && op.Revoke? && HasSession(w, op) && a == Caller(w, op) && HoldsFile(w.led, a, op.filename, i)
    requires o == Meeting(w, op.sid, a, op.filename, data, op.recipient) && op.filename != "userStruct"
    requires u in w.led.files[i].blocks && InodeNamed(o.After().st, user, filename) == Some(Random(i))
    ensures LoadFile(o.End().0, user, filename).Failure?
  {
    MeetingRevokes(o, w, op, a, data, i, Step(w, op));
    NobodyLoads(o, Random(i), u, user, filename);
  }

  lemma NobodyLoads(o: Overlap, inode: UUID, u: UUID, user: UserData, filename: string)
    requires o.Revokes(inode) && o.HasRead(inode) && InodeNamed(o.After().st, user, filename) == Some(inode)
    requires u in o.Reached().base.blocks && u in BlocksNow(o.Before(), o.revocation)
    ensures LoadFile(o.End().0, user, filename).Failure?
  {
    StaleLoadIff(o, inode, user, filename);
  }

  // ---------- an empty file ----------

  lemma ChildOnlyOnce(led: Ledger, s: UUID, c: string)
    requires ChildrenUnique(Alpha(led)) && s in led.recs && c in led.recs[s].children
    ensures !Kept(led.recs[s], c, led.recs[s].children[c])
  {
    forall c' | c' in led.recs[s].children && c' != c
      ensures led.recs[s].children[c'] != led.recs[s].children[c]
    {
      assert Alpha(led).recs == led.recs;
    }
  }

  /** A mailbox that is not kept is as it was, and so is its holder's record. */
  lemma UnkeptStays(led: Ledger, ua: UserData, f: string, r: string, i: nat, ub: UserData, g: string, led1: Ledger)
    requires Below(led) && HoldsFile(led, ua, f, i) && HoldsFile(led, ub, g, i) && led1 == RevokeLedger(led, ua, f, r)
    requires AccessUUID(ub.username, g) != AccessUUID(ua.username, f)
    requires AccessUUID(ub.username, g) != UserUUID(ua.username)
    requires !Kept(led.recs[AccessUUID(ua.username, f)], r, led.recs[AccessUUID(ub.username, g)].mailbox)
    ensures Holds(led1, ub, g) && led1.recs[AccessUUID(ub.username, g)] == led.recs[AccessUUID(ub.username, g)]
    ensures var m := led.recs[AccessUUID(ub.username, g)].mailbox;
            m in led.mails && m in led1.mails && led1.mails[m] == led.mails[m]
  {
    RevokeShape(led, ua, f, r, led1, i, AccessUUID(ua.username, f), led.recs[AccessUUID(ua.username, f)]);
  }

  /** The revoked child's mailbox still names the inode, under the old key. */
  lemma RevokedStillLeads(w: World, sid: nat, ua: UserData, f: string, ub: UserData, g: string, i: nat, w1: World)
    requires Inv(w) && sid < |w.sessions| && ua == w.sessions[sid] && w1 == Step(w, Revoke(sid, f, ub.username))
    requires Gave(w.led, ua, f, ub, g, i) && Distinct2(ua.username, f, ub.username, g)
    ensures OpenNode(w1.st, ub, g) == Success(MailboxNode(w.led.files[i].key, Random(i)))
  {
    InvBelow(w);
    RevokeInv(w, Revoke(sid, f, ub.username));
    CallStep(w, Revoke(sid, f, ub.username));
    ChildOnlyOnce(w.led, AccessUUID(ua.username, f), ub.username);
    UnkeptStays(w.led, ua, f, ub.username, i, ub, g, w1.led);
    HolderOpensNode(w1.led, w1.st, ub, g, w1.led.recs[AccessUUID(ub.username, g)].mailbox);
  }

  lemma NothingRead(st: State, blocks: seq<UUID>, key: nat, content: seq<byte>)
    requires blocks == []
    ensures LoadBlocks(st, blocks, key).Success? && LoadBlocks(st, blocks, key).value + content == content
  {
  }

  lemma StaleHolderLoads(o: Overlap, inode: UUID, user: UserData, filename: string)
    requires o.Revokes(inode) && o.HasRead(inode) && o.Reached().base.blocks == []
    requires OpenNode(o.After().st, user, filename) == Success(MailboxNode(o.Reached().node.fileKey, inode))
    ensures LoadFile(o.End().0, user, filename) == Success(ContentOf(o.tasks[o.k]))
  {
    StaleLoadIff(o, inode, user, filename);
    NothingRead(o.Before().st, o.Reached().base.blocks, o.Reached().node.fileKey, ContentOf(o.tasks[o.k]));
  }

  lemma LoadSame(st: State, u: UserData, v: UserData, filename: string)
    requires SameUser(u, v)
    ensures LoadFile(st, u, filename) == LoadFile(st, v, filename)
  {
  }

  lemma RevokedNodeIsShut(w: World, user: UserData, filename: string, i: nat, key: nat)
    requires Inv(w) && i in w.led.files && key != w.led.files[i].key
    requires OpenNode(w.st, user, filename) == Success(MailboxNode(key, Random(i)))
    ensures LoadFile(w.st, user, filename).Failure?
  {
    assert StoredAs(w.st, Random(i), InodeOf(w.led.files[i]));
  }

  lemma EmptyFileMeets(o: Overlap, w: World, op: Op, a: UserData, data: seq<byte>, i: nat, b: UserData, g: string)
    requires Inv(w) && op.Revoke? && HasSession(w, op) && a == Caller(w, op) && op.filename != "userStruct"
    requires Gave(w.led, a, op.filename, b, g, i) && Distinct2(a.username, op.filename, b.username, g)
    requires op.recipient == b.username
    requires o == Meeting(w, op.sid, a, op.filename, data, op.recipient) && HasBytes(w.led, i, [])
    ensures o.Revokes(Random(i)) && o.HasRead(Random(i)) && o.End().1 == Success([])
    ensures LoadFile(o.After().st, a, op.filename).Success? && LoadFile(o.After().st, b, g).Failure?
    ensures LoadFile(o.End().0, a, op.filename).Failure? && LoadFile(o.End().0, b, g) == Success(data)
  {
    MeetingRevokes(o, w, op, a, data, i, Step(w, op));
    BlocksIffBytes(w.led, i, []);
    HoldersKeepIff(o, Random(i), a, op.filename);
    RevokedStillLeads(w, op.sid, a, op.filename, b, g, i, Step(w, op));
    StaleHolderLoads(o, Random(i), b, g);
    StaleLoadIff(o, Random(i), b, g);
    Situation(o, Random(i));
    StepInv(w, op);
    RevokedNodeIsShut(Step(w, op), b, g, i, w.led.files[i].key);
  }

  /**
   An append to an empty file hands what it appends to the revoked user.  In every reachable world: `a` stores an
   empty file and invites `b`, who accepts.  An append of a's reads the inode; `a` revokes `b`, who cannot load the
   file any more; the append goes on and reports success.  Then `b` loads what was appended, and `a` cannot.
   */
  lemma EmptyFileHandsOn(t: Gift, data: seq<byte>, a: UserData, o: Overlap)
    requires t.Possible() && t.content == [] && t.sa < |t.Given().sessions| && a == t.Given().sessions[t.sa]
    requires o == Meeting(t.Given(), t.sa, a, t.f, data, t.B().username)
    ensures View(t.Given().st, t.B(), t.g) == Some([])
    ensures Succeeds(o.Before(), o.revocation)
    ensures LoadFile(o.After().st, t.A(), t.f).Success? && LoadFile(o.After().st, t.B(), t.g).Failure?
    ensures o.End().1 == Success([])
    ensures LoadFile(o.End().0, t.A(), t.f).Failure? && LoadFile(o.End().0, t.B(), t.g) == Success(data)
  {
    var i := GiftGives(t);
    var w, b := t.Given(), t.Given().sessions[t.sb];
    ReachableIsSound(w);
    CollidesWithSelf(a.username, t.f);
    EmptyFileMeets(o, w, Revoke(t.sa, t.f, t.B().username), a, data, i, b, t.g);
    ViewOfHolder(w, b, t.g, i);
    ViewSame(w.st, b, t.B(), t.g);
    LoadSame(o.After().st, a, t.A(), t.f);
    LoadSame(o.After().st, b, t.B(), t.g);
    LoadSame(o.End().0, a, t.A(), t.f);
    LoadSame(o.End().0, b, t.B(), t.g);
  }
}
