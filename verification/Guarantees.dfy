/** What the program guarantees over whole runs, stated on the sealed store and the operations themselves. */
module Guarantees {
  import opened Wrappers
  import opened Blocks
  import opened Records
  import opened Protocol
  import opened Ledgers
  import opened LedgerSteps
  import opened Refinement
  import opened RefineFiles
  import opened RefineRevoke
  import opened Sharing
  import opened Simulation
  import opened Runs
  import opened Concurrency

  // ---------- revoked users stay out ----------

  /** The number of a random UUID. */
  function IdOf(u: UUID): nat {
    if u.Random? then u.n else 0
  }

  ghost predicate DoomedIn(w: World, a: nat) {
    Doomed(Alpha(w.led), a) && a in MetasOf(w.led)
  }

  lemma RegisterStepDoom(w: World, op: Op, a: nat)
    requires Inv(w) && DoomedIn(w, a) && op.Register? && Succeeds(w, op)
    ensures DoomedIn(Step(w, op), a)
  {
    RegisterForest(w.led, op.username, op.password);
  }

  lemma DoomSame(g: Graph, g': Graph, a: nat)
    requires Doomed(g, a) && a in g.mails && g'.live == g.live && g'.mails == g.mails && g'.recs == g.recs
    ensures Doomed(g', a) && a in g'.mails
  {
  }

  lemma InterleaveStepDoom(w: World, op: Op, a: nat)
    requires Inv(w) && DoomedIn(w, a) && op.Interleave?
    ensures DoomedIn(Step(w, op), a)
  {
    InterleaveInv(w, op);
    SharingAlpha(w.led, Step(w, op).led);
    DoomSame(Alpha(w.led), Alpha(Step(w, op).led), a);
  }

  /** One step of anybody: the dead subtree stays dead, and grows by whatever is handed out from it. */
  lemma StepDoom(w: World, op: Op, a: nat)
    requires Inv(w) && DoomedIn(w, a)
    ensures DoomedIn(Step(w, op), a)
  {
    if HasSession(w, op) {
      var g, g' := Alpha(w.led), Alpha(Step(w, op).led);
      match op
      case Register(_, _) => if Succeeds(w, op) { RegisterStepDoom(w, op, a); }
      case Login(_, _) =>
      case Interleave(_, _) => InterleaveStepDoom(w, op, a);
      case Store(_, f, content) => StoreInv(w, op); StoreDoom(g, a, Caller(w, op), f, content, g');
      case Append(_, f, data) =>
        AppendInv(w, op);
        if data.Some? {
          AppendDoom(g, a, Caller(w, op), f, data.value, g');
        }
      case Invite(_, f, r) => InviteInv(w, op); InviteDoom(g, a, Caller(w, op), f, r, g');
      case Accept(_, sender, ptr, f) => AcceptInv(w, op); AcceptDoom(g, a, Caller(w, op), sender, ptr, f, g');
      case Revoke(_, f, r) => RevokeInv(w, op); RevokeDoom(g, a, Caller(w, op), f, r, g');
    }
  }

  lemma {:induction false} RunDoom(w: World, ops: seq<Op>, a: nat)
    requires Inv(w) && DoomedIn(w, a)
    ensures DoomedIn(Run(w, ops), a)
    decreases |ops|
  {
    if ops != [] {
      StepInv(w, ops[0]);
      StepDoom(w, ops[0], a);
      RunDoom(Step(w, ops[0]), ops[1..], a);
    }
  }

  /** Whoever stands behind mailbox `m` cannot reach its file: not to read, not to append, not to revoke. */
  ghost predicate ShutOut(w: World, m: nat) {
    && (forall key | OpenMailbox(w.st, Access(Random(m), key, map[])).Success? ::
          OpenInode(w.st, OpenMailbox(w.st, Access(Random(m), key, map[])).value).Failure?)
    && forall user: UserData, filename: string | OpenAccess(w.st, user, filename).Success?
       && OpenAccess(w.st, user, filename).value.mailbox == Random(m) ::
         && LoadFile(w.st, user, filename).Failure?
         && (forall content ::
               && AppendToFile(w.st, user, filename, content).res.Failure?
               && AppendToFile(w.st, user, filename, content).st == w.st)
         && forall r ::
              && RevokeAccess(w.st, user, filename, r).res.Failure?
              && RevokeAccess(w.st, user, filename, r).st.store == w.st.store
  }

  lemma MailboxOfRecord(led: Ledger, st: State, user: UserData, filename: string, m: nat)
    requires WellFormed(led) && Represents(led, st)
    requires OpenAccess(st, user, filename).Success? && OpenAccess(st, user, filename).value.mailbox == Random(m)
    ensures Holds(led, user, filename) && led.recs[AccessUUID(user.username, filename)].mailbox == m
  {
    if Holds(led, user, filename) {
      HolderOpensAccess(led, st, user, filename);
    } else {
      NonHolderFails(led, st, user, filename);
    }
  }

  lemma StaleKeyFails(led: Ledger, st: State, m: nat)
    requires MailsOK(led) && MailsStored(led, st) && FilesStored(led, st) && m in led.mails && !Live(led, m)
    ensures forall key | OpenMailbox(st, Access(Random(m), key, map[])).Success? ::
              OpenInode(st, OpenMailbox(st, Access(Random(m), key, map[])).value).Failure?
  {
    StaleMailboxFails(led, st, m);
    assert StoredAs(st, Random(m), NodeOf(led.mails[m]));
  }

  lemma StaleHolderFails(led: Ledger, st: State, user: UserData, filename: string)
    requires WellFormed(led) && Represents(led, st) && Holds(led, user, filename) && !CanOpen(led, user, filename)
    ensures LoadFile(st, user, filename).Failure?
    ensures forall content ::
              && AppendToFile(st, user, filename, content).res.Failure?
              && AppendToFile(st, user, filename, content).st == st
    ensures forall r ::
              && RevokeAccess(st, user, filename, r).res.Failure?
              && RevokeAccess(st, user, filename, r).st.store == st.store
  {
    LoadFileReads(led, st, user, filename);
    forall content
      ensures AppendToFile(st, user, filename, content).res.Failure?
      ensures AppendToFile(st, user, filename, content).st == st
    {
      AppendFails(led, st, user, filename, content);
    }
    forall r
      ensures RevokeAccess(st, user, filename, r).res.Failure?
      ensures RevokeAccess(st, user, filename, r).st.store == st.store
    {
      RevokeStale(led, st, user, filename, r, RevokeAccess(st, user, filename, r));
    }
  }

  lemma StaleIsShutOut(w: World, m: nat)
    requires Inv(w) && m in w.led.mails && !Live(w.led, m)
    ensures ShutOut(w, m)
  {
    StaleKeyFails(w.led, w.st, m);
    forall user: UserData, filename: string | OpenAccess(w.st, user, filename).Success?
      && OpenAccess(w.st, user, filename).value.mailbox == Random(m)
      ensures LoadFile(w.st, user, filename).Failure?
      ensures forall content ::
                && AppendToFile(w.st, user, filename, content).res.Failure?
                && AppendToFile(w.st, user, filename, content).st == w.st
      ensures forall r ::
                && RevokeAccess(w.st, user, filename, r).res.Failure?
                && RevokeAccess(w.st, user, filename, r).st.store == w.st.store
    {
      MailboxOfRecord(w.led, w.st, user, filename, m);
      StaleHolderFails(w.led, w.st, user, filename);
    }
  }

  /** The revocation of a recipient with a Children entry dooms the mailbox recorded there. */
  lemma RevocationDooms(w: World, op: Op, access: Access)
    requires Inv(w) && op.Revoke? && Succeeds(w, op)
    requires OpenAccess(w.st, Caller(w, op), op.filename) == Success(access) && op.recipient in access.children
    ensures DoomedIn(Step(w, op), IdOf(access.children[op.recipient].mailbox))
  {
    var user, s := Caller(w, op), AccessUUID(Caller(w, op).username, op.filename);
    RevokeInv(w, op);
    HolderOpensAccess(w.led, w.st, user, op.filename);
    CanOpenAgrees(w.led, user, op.filename);
    RevokeDooms(Alpha(w.led), user, op.filename, op.recipient, Alpha(Step(w, op).led), s,
                w.led.recs[s].children[op.recipient]);
  }

  /**
   Revocation over whole runs.  Take any reachable world, a successful revocation of a recipient that has a
   Children entry, and any continuation by any users.  The mailbox recorded for the recipient, and every
   mailbox handed out from it or rotated from it, directly or through others, before or after the
   revocation, is shut out of the file for good.
   */
  lemma RevokedStaysOut(w: World, op: Op, access: Access, later: seq<Op>, w': World, m: nat)
    requires Inv(w) && w' == Run(Step(w, op), later)
    requires op.Revoke? && Succeeds(w, op) && OpenAccess(w.st, Caller(w, op), op.filename) == Success(access)
    requires op.recipient in access.children
    requires m in w'.led.mails && Descends(MetasOf(w'.led), IdOf(access.children[op.recipient].mailbox), m)
    ensures ShutOut(w', m)
  {
    RevocationDooms(w, op, access);
    StepInv(w, op);
    RunInv(Step(w, op), later);
    RunDoom(Step(w, op), later, IdOf(access.children[op.recipient].mailbox));
    StaleIsShutOut(w', m);
  }

  // ---------- mailboxes in nobody's list ----------

  ghost predicate OrphanIn(w: World, m: nat) {
    Orphan(Alpha(w.led), m)
  }

  ghost predicate LiveIn(w: World, m: nat) {
    m in Alpha(w.led).live
  }

  lemma OrphanSame(g: Graph, g': Graph, m: nat)
    requires Orphan(g, m) && g'.live == g.live && g'.mails == g.mails && g'.recs == g.recs
    ensures OrphanKept(g, g', m)
  {
  }

  lemma NonCallOrphan(w: World, op: Op, m: nat)
    requires Inv(w) && OrphanIn(w, m) && !IsCall(op)
    ensures OrphanKept(Alpha(w.led), Alpha(Step(w, op).led), m)
  {
    if op.Interleave? {
      InterleaveInv(w, op);
      SharingAlpha(w.led, Step(w, op).led);
      OrphanSame(Alpha(w.led), Alpha(Step(w, op).led), m);
    } else if op.Register? && Succeeds(w, op) {
      RegisterForest(w.led, op.username, op.password);
      OrphanSame(Alpha(w.led), Alpha(Step(w, op).led), m);
    }
  }

  lemma FileCallOrphan(w: World, op: Op, m: nat, g: Graph, g': Graph)
    requires Inv(w) && (op.Store? || op.Append?) && HasSession(w, op) && g == Alpha(w.led)
    requires g' == Alpha(Step(w, op).led) && Orphan(g, m)
    ensures Orphan(g', m) && (m in g'.live ==> m in g.live)
  {
    if op.Store? {
      StoreInv(w, op);
      StoreOrphan(g, m, Caller(w, op), op.filename, op.content, g');
    } else {
      AppendInv(w, op);
      if op.data.Some? {
        AppendOrphan(g, m, Caller(w, op), op.filename, op.data.value, g');
      }
    }
  }

  lemma SharingCallOrphan(w: World, op: Op, m: nat, g: Graph, g': Graph)
    requires Inv(w) && (op.Invite? || op.Accept? || op.Revoke?) && HasSession(w, op)
    requires g == Alpha(w.led) && g' == Alpha(Step(w, op).led) && Orphan(g, m)
    ensures Orphan(g', m) && (m in g'.live ==> m in g.live)
  {
    if op.Invite? {
      InviteInv(w, op);
      InviteOrphan(g, m, Caller(w, op), op.filename, op.recipient, g');
    } else if op.Accept? {
      AcceptInv(w, op);
      AcceptOrphan(g, m, Caller(w, op), op.sender, op.ptr, op.filename, g');
    } else {
      RevokeInv(w, op);
      RevokeOrphan(g, m, Caller(w, op), op.filename, op.recipient, g');
    }
  }

  lemma StepOrphan(w: World, op: Op, m: nat)
    requires Inv(w) && OrphanIn(w, m)
    ensures OrphanIn(Step(w, op), m) && (LiveIn(Step(w, op), m) ==> LiveIn(w, m))
  {
    if !IsCall(op) {
      NonCallOrphan(w, op, m);
    } else if HasSession(w, op) {
      if op.Store? || op.Append? {
        FileCallOrphan(w, op, m, Alpha(w.led), Alpha(Step(w, op).led));
      } else {
        SharingCallOrphan(w, op, m, Alpha(w.led), Alpha(Step(w, op).led));
      }
    }
  }

  lemma {:induction false} RunOrphan(w: World, ops: seq<Op>, m: nat)
    requires Inv(w) && OrphanIn(w, m)
    ensures OrphanIn(Run(w, ops), m) && (LiveIn(Run(w, ops), m) ==> LiveIn(w, m))
    decreases |ops|
  {
    if ops != [] {
      StepInv(w, ops[0]);
      StepOrphan(w, ops[0], m);
      RunOrphan(Step(w, ops[0]), ops[1..], m);
    }
  }

  lemma ReinvitationOrphansMailbox(w: World, op: Op, before: Access)
    requires Inv(w) && op.Invite? && Succeeds(w, op)
    requires OpenAccess(w.st, Caller(w, op), op.filename) == Success(before) && op.recipient in before.children
    ensures before.children[op.recipient].mailbox.Random?
    ensures OrphanIn(Step(w, op), before.children[op.recipient].mailbox.n)
  {
    var user, s := Caller(w, op), AccessUUID(Caller(w, op).username, op.filename);
    InviteInv(w, op);
    HolderOpensAccess(w.led, w.st, user, op.filename);
    CanOpenAgrees(w.led, user, op.filename);
    assert RecOK(w.led, s, w.led.recs[s]);
    ReinviteOrphan(Alpha(w.led), user, op.filename, op.recipient, Alpha(Step(w, op).led), s);
  }

  /** Nobody's record ever names an orphan as a child again. */
  lemma OrphanIsNoChild(w: World, m: nat, user: UserData, filename: string, access: Access, c: string)
    requires Inv(w) && OrphanIn(w, m) && OpenAccess(w.st, user, filename) == Success(access) && c in access.children
    ensures access.children[c].mailbox != Random(m)
  {
    if Holds(w.led, user, filename) {
      HolderOpensAccess(w.led, w.st, user, filename);
    } else {
      NonHolderFails(w.led, w.st, user, filename);
    }
  }

  /**
   Inviting the same name again replaces the Children entry.  The mailbox of the first invitation is then in
   nobody's list, in any continuation, so no revocation will ever hand it a new key.
   */
  lemma ReinvitationOrphans(w: World, op: Op, before: Access, later: seq<Op>, w': World,
                            user: UserData, filename: string, access: Access, c: string)
    requires Inv(w) && op.Invite? && Succeeds(w, op) && w' == Run(Step(w, op), later)
    requires OpenAccess(w.st, Caller(w, op), op.filename) == Success(before) && op.recipient in before.children
    requires OpenAccess(w'.st, user, filename) == Success(access) && c in access.children
    ensures access.children[c].mailbox != before.children[op.recipient].mailbox
  {
    var m := IdOf(before.children[op.recipient].mailbox);
    ReinvitationOrphansMailbox(w, op, before);
    StepInv(w, op);
    RunInv(Step(w, op), later);
    RunOrphan(Step(w, op), later, m);
    OrphanIsNoChild(w', m, user, filename, access, c);
  }

  /** The inode that a Children entry's mailbox names, whether or not its key is current. */
  function InodeBehind(st: State, child: ChildInfo): Option<UUID> {
    var node := OpenMailbox(st, Access(child.mailbox, child.key, map[]));
    if node.Success? then Some(node.value.inode) else None
  }

  lemma InodeBehindAgrees(led: Ledger, st: State, child: ChildInfo, m: nat)
    requires MailsStored(led, st) && m in led.mails && child.mailbox == Random(m) && InodeBehind(st, child).Some?
    ensures InodeBehind(st, child) == Some(Random(led.mails[m].file))
  {
    assert StoredAs(st, Random(m), NodeOf(led.mails[m]));
  }

  lemma OrphanDies(w: World, op: Op, m: nat, inode: UUID)
    requires Inv(w) && OrphanIn(w, m) && op.Revoke? && Succeeds(w, op)
    requires Opened(w.st, Caller(w, op), op.filename) == Some(inode) && m in w.led.mails
    requires Random(w.led.mails[m].file) == inode
    ensures OrphanIn(Step(w, op), m) && !LiveIn(Step(w, op), m)
  {
    var user := Caller(w, op);
    RevokeInv(w, op);
    OpenedAgrees(w.led, w.st, user, op.filename);
    CanOpenAgrees(w.led, user, op.filename);
    RevokeOrphan(Alpha(w.led), m, user, op.filename, op.recipient, Alpha(Step(w, op).led));
  }

  /**
   The next successful revocation on the file, by whomever, shuts the first mailbox out for good: its
   holder was not the one to be revoked, but is in nobody's list.
   */
  lemma ReinvitedIsShutOut(w: World, op: Op, before: Access, later: seq<Op>, w1: World, revocation: Op, inode: UUID,
                           after: seq<Op>, w2: World)
    requires Inv(w) && op.Invite? && Succeeds(w, op)
    requires OpenAccess(w.st, Caller(w, op), op.filename) == Success(before) && op.recipient in before.children
    requires w1 == Run(Step(w, op), later) && revocation.Revoke? && Succeeds(w1, revocation)
    requires Opened(w1.st, Caller(w1, revocation), revocation.filename) == Some(inode)
    requires InodeBehind(w1.st, before.children[op.recipient]) == Some(inode)
    requires w2 == Run(Step(w1, revocation), after)
    ensures ShutOut(w2, IdOf(before.children[op.recipient].mailbox))
  {
    var m := IdOf(before.children[op.recipient].mailbox);
    ReinvitationOrphansMailbox(w, op, before);
    StepInv(w, op);
    RunInv(Step(w, op), later);
    RunOrphan(Step(w, op), later, m);
    InodeBehindAgrees(w1.led, w1.st, before.children[op.recipient], m);
    OrphanDies(w1, revocation, m, inode);
    StepInv(w1, revocation);
    RunInv(Step(w1, revocation), after);
    RunOrphan(Step(w1, revocation), after, m);
    StaleIsShutOut(w2, m);
  }

  // ---------- what an invitation hands on ----------

  /** All Children entries but the recipient's are as they were. */
  ghost predicate OthersStay(before: Access, after: Access, recipient: string) {
    forall c | c != recipient :: (c in after.children <==> c in before.children)
                              && (c in before.children ==> after.children[c] == before.children[c])
  }

  /** An invitation hands on the inviter's mailbox: this is what the lineage of mailboxes records. */
  lemma InvitationHandsOn(w: World, op: Op, before: Access, after: Access)
    requires Inv(w) && op.Invite? && Succeeds(w, op)
    requires OpenAccess(w.st, Caller(w, op), op.filename) == Success(before)
    requires OpenAccess(Step(w, op).st, Caller(w, op), op.filename) == Success(after)
    ensures op.recipient in after.children && IdOf(after.children[op.recipient].mailbox) !in w.led.mails
    ensures Descends(MetasOf(Step(w, op).led), IdOf(before.mailbox), IdOf(after.children[op.recipient].mailbox))
    ensures OthersStay(before, after, op.recipient)
  {
    var user, s := Caller(w, op), AccessUUID(Caller(w, op).username, op.filename);
    InviteInv(w, op);
    HolderOpensAccess(w.led, w.st, user, op.filename);
    HolderOpensAccess(Step(w, op).led, Step(w, op).st, user, op.filename);
    InvBelow(w);
    InviteKeeps(w.led, user, op.filename, op.recipient);
    InviteHandsOn(w.led, user, op.filename, op.recipient, LedgerAfter(w, op), s);
  }

  lemma InviteHandsOn(led: Ledger, user: UserData, filename: string, recipient: string, led': Ledger, s: UUID)
    requires Below(led) && RecsOK(led) && Holds(led, user, filename) && recipient in led.accounts && Grows(led, led')
    requires s == AccessUUID(user.username, filename) && led' == InviteLedger(led, user, filename, recipient)
    ensures s in led'.recs && Random(led.next) == AccessOf(led', led'.recs[s]).children[recipient].mailbox
    ensures led.next !in led.mails
    ensures Descends(MetasOf(led'), led.recs[s].mailbox, led.next)
    ensures OthersStay(AccessOf(led, led.recs[s]), AccessOf(led', led'.recs[s]), recipient)
  {
    assert RecOK(led, s, led.recs[s]);
    InviteLineage(led, user, filename, recipient, led', s);
    AccessKeeps(led, led', s, led.recs[s]);
    InvitedChildren(led, led', led.recs[s], led'.recs[s], recipient);
  }

  lemma InvitedChildren(led: Ledger, led': Ledger, rec: RecInfo, rec': RecInfo, recipient: string)
    requires rec'.children == rec.children[recipient := led.next]
    requires AccessOf(led', rec).children == AccessOf(led, rec).children
    ensures recipient in AccessOf(led', rec').children
    ensures AccessOf(led', rec').children[recipient].mailbox == Random(led.next)
    ensures OthersStay(AccessOf(led, rec), AccessOf(led', rec'), recipient)
  {
    forall c | c in rec.children && c != recipient
      ensures AccessOf(led', rec').children[c] == AccessOf(led', rec).children[c]
    {
    }
  }

  lemma InviteLineage(led: Ledger, user: UserData, filename: string, recipient: string, led': Ledger, s: UUID)
    requires Below(led) && RecsOK(led) && Holds(led, user, filename) && recipient in led.accounts
    requires s == AccessUUID(user.username, filename) && led' == InviteLedger(led, user, filename, recipient)
    ensures led'.recs[s].children == led.recs[s].children[recipient := led.next]
    ensures led'.recs[s].mailbox == led.recs[s].mailbox
    ensures Descends(MetasOf(led'), led.recs[s].mailbox, led.next)
  {
    assert RecOK(led, s, led.recs[s]);
    var m := led.recs[s].mailbox;
    assert HasParent(MetasOf(led'), led.next) && MetasOf(led')[led.next].origin.from == m;
    assert Descends(MetasOf(led'), m, m);
  }

  // ---------- what a file contains ----------

  /** The inode a user currently reaches under a file name, if any. */
  function Opened(st: State, user: UserData, filename: string): Option<UUID> {
    var node := OpenNode(st, user, filename);
    if node.Success? && OpenInode(st, node.value).Success? then Some(node.value.inode) else None
  }

  lemma OpenedAgrees(led: Ledger, st: State, user: UserData, filename: string)
    requires WellFormed(led) && Represents(led, st)
    ensures Opened(st, user, filename)
         == if CanOpen(led, user, filename) then Some(Random(FileOf(led, user, filename))) else None
  {
    if CanOpen(led, user, filename) {
      LiveHolderOpens(led, st, user, filename);
    } else if Holds(led, user, filename) {
      var rec := led.recs[AccessUUID(user.username, filename)];
      HolderOpensAccess(led, st, user, filename);
      RecordOpensMailbox(led, st, rec);
      StaleMailboxFails(led, st, rec.mailbox);
    } else {
      NonHolderFails(led, st, user, filename);
    }
  }

  /** What one step adds to the file behind `inode`. */
  ghost function AddedBy(w: World, op: Op, inode: UUID): seq<byte> {
    if op.Append? && Succeeds(w, op) && op.data.Some? && Opened(w.st, Caller(w, op), op.filename) == Some(inode) then
      op.data.value
    else if op.Interleave? then
      var c := Interleaved(w, op.tasks, op.schedule);
      Contributions(op.tasks, VersionAt(c, Some(inode)))
    else []
  }

  ghost function Added(w: World, ops: seq<Op>, inode: UUID): seq<byte>
    decreases |ops|
  {
    if ops == [] then [] else AddedBy(w, ops[0], inode) + Added(Step(w, ops[0]), ops[1..], inode)
  }

  ghost predicate HasBytes(led: Ledger, i: nat, bytes: seq<byte>) {
    i in led.files && Flatten(led.files[i].chunks) == bytes
  }

  lemma AppendedBytes(led: Ledger, user: UserData, filename: string, content: seq<byte>, i: nat, bytes: seq<byte>)
    requires HasBytes(led, i, bytes)
    ensures HasBytes(AppendLedger(led, user, filename, content), i,
                     if CanOpen(led, user, filename) && FileOf(led, user, filename) == i then bytes + content
                       else bytes)
  {
    if CanOpen(led, user, filename) && FileOf(led, user, filename) == i {
      FlattenAppend(led.files[i].chunks, Chunks(content));
      FlattenChunks(content);
    }
  }

  lemma OthersKeepBytes(w: World, op: Op, i: nat, bytes: seq<byte>)
    requires HasSession(w, op) && !op.Append? && IsCall(op)
    requires Below(w.led) && HasBytes(w.led, i, bytes)
    ensures HasBytes(LedgerAfter(w, op), i, bytes)
  {
  }

  lemma AppendAdds(w: World, op: Op, i: nat)
    requires Inv(w) && op.Append? && HasSession(w, op)
    ensures AddedBy(w, op, Random(i))
         == if op.data.Some? && CanOpen(w.led, Caller(w, op), op.filename)
            && FileOf(w.led, Caller(w, op), op.filename) == i
            then op.data.value else []
  {
    AppendInv(w, op);
    OpenedAgrees(w.led, w.st, Caller(w, op), op.filename);
  }

  lemma InvBelow(w: World)
    requires Inv(w)
    ensures Below(w.led)
  {
    NextIsFresh(w.led);
  }

  lemma InterleavedBytes(w: World, op: Op, i: nat, bytes: seq<byte>)
    requires Inv(w) && op.Interleave? && HasBytes(w.led, i, bytes)
    ensures HasBytes(Step(w, op).led, i, bytes + AddedBy(w, op, Random(i)))
  {
    var c := Interleaved(w, op.tasks, op.schedule);
    InterleavedSound(w, op.tasks, op.schedule);
    InterleaveStep(w, op, c);
    ConfigBytes(w.led, c, i, bytes);
  }

  lemma ConfigBytes(led: Ledger, c: Config, i: nat, bytes: seq<byte>)
    requires TextsOK(c) && HasBytes(led, i, bytes) && c.origin == BytesOf(led) && i in c.led.files
    ensures HasBytes(c.led, i, bytes + Contributions(c.tasks, VersionAt(c, Some(Random(i)))))
  {
    TextsAt(c, i);
  }

  lemma TextsAt(c: Config, i: nat)
    requires TextsOK(c) && i in c.led.files
    ensures i in c.origin && i in c.versions
    ensures Flatten(c.led.files[i].chunks) == c.origin[i] + Contributions(c.tasks, c.versions[i])
  {
  }

  lemma StepBytes(w: World, op: Op, i: nat, bytes: seq<byte>, added: seq<byte>)
    requires !op.Interleave? && Below(w.led) && HasBytes(w.led, i, bytes)
    requires op.Append? && HasSession(w, op) ==>
               added == if op.data.Some? && CanOpen(w.led, Caller(w, op), op.filename)
                 && FileOf(w.led, Caller(w, op), op.filename) == i
                        then op.data.value else []
    requires !(op.Append? && HasSession(w, op)) ==> added == []
    ensures HasBytes(Step(w, op).led, i, bytes + added)
  {
    assert bytes + [] == bytes;
    if HasSession(w, op) && op.Append? && op.data.Some? {
      AppendedBytes(w.led, Caller(w, op), op.filename, op.data.value, i, bytes);
    } else if HasSession(w, op) && !op.Append? && IsCall(op) {
      OthersKeepBytes(w, op, i, bytes);
    }
  }

  lemma JoinAdded(a: seq<byte>, b: seq<byte>, c: seq<byte>)
    ensures (a + b) + c == a + (b + c)
  {
  }

  /** A file's bytes after a run are its bytes before, followed by what live holders appended, in order. */
  lemma {:induction false} RunBytes(w: World, ops: seq<Op>, i: nat, bytes: seq<byte>)
    requires Inv(w) && HasBytes(w.led, i, bytes)
    ensures HasBytes(Run(w, ops).led, i, bytes + Added(w, ops, Random(i)))
    decreases |ops|
  {
    if ops == [] {
      assert bytes + [] == bytes;
    } else {
      var w1, added := Step(w, ops[0]), AddedBy(w, ops[0], Random(i));
      InvBelow(w);
      if ops[0].Interleave? {
        InterleavedBytes(w, ops[0], i, bytes);
      } else {
        if ops[0].Append? && HasSession(w, ops[0]) {
          AppendAdds(w, ops[0], i);
        }
        StepBytes(w, ops[0], i, bytes, added);
      }
      StepInv(w, ops[0]);
      RunBytes(w1, ops[1..], i, bytes + added);
      JoinAdded(bytes, added, Added(w1, ops[1..], Random(i)));
    }
  }

  /** Whoever reaches an inode loads the same bytes. */
  lemma LoadsTheFile(w: World, user: UserData, filename: string)
    requires Inv(w)
    ensures LoadFile(w.st, user, filename).Success? <==> Opened(w.st, user, filename).Some?
    ensures Opened(w.st, user, filename).Some? ==>
              var i := Opened(w.st, user, filename).value;
              i.Random? && LoadFile(w.st, user, filename).Success?
                && HasBytes(w.led, i.n, LoadFile(w.st, user, filename).value)
  {
    OpenedAgrees(w.led, w.st, user, filename);
    LoadFileReads(w.led, w.st, user, filename);
  }

  /**
   The shared-file law.  In any reachable world let one user load `before` through some inode.  After any
   further run, everyone who then reaches that inode loads `before` followed by exactly the contents that
   were appended through it, by whomever, in order; of interleaved appends, those the final inode contains.
   */
  lemma SharedFileLaw(w: World, user: UserData, filename: string, before: seq<byte>, later: seq<Op>,
                      reader: UserData, readerFile: string)
    requires Inv(w)
    requires LoadFile(w.st, user, filename) == Success(before)
    requires Opened(Run(w, later).st, reader, readerFile) == Opened(w.st, user, filename)
    ensures Opened(w.st, user, filename).Some?
    ensures LoadFile(Run(w, later).st, reader, readerFile)
         == Success(before + Added(w, later, Opened(w.st, user, filename).value))
  {
    LoadsTheFile(w, user, filename);
    RunInv(w, later);
    RunBytes(w, later, Opened(w.st, user, filename).value.n, before);
    LoadsTheFile(Run(w, later), reader, readerFile);
  }
}
