/**
 A session's list of files: which names are in it after any run, and what the next login finds of it.
 The list is part of the user record, which a session saves as a whole.
 */
module Sessions {
  import opened Wrappers
  import opened Blocks
  import opened Records
  import opened Protocol
  import opened Ledgers
  import opened RefineUsers
  import opened Runs
  import opened Guarantees
  import opened Stability
  import opened Witnesses

  /** The operations that put a name into the list and save the user record. */
  predicate Saves(op: Op) {
    op.Store? || op.Accept? || op.Revoke?
  }

  /** The user, with one more name in the list. */
  function Listing(user: UserData, filename: string): UserData {
    UserData(user.username, user.pke, user.ds, user.master, user.files[filename := Named(user.username + filename)])
  }

  ghost predicate SavedAs(st: State, user: UserData) {
    StoredAs(st, UserUUID(user.username), Sealed(UserKey(user.master), UserRec(user)))
  }

  // ---------- one operation ----------

  lemma StoreSaves(st: State, user: UserData, filename: string, content: seq<byte>)
    ensures var out := StoreFile(st, user, filename, content);
            out.user == Listing(user, filename) && SavedAs(out.st, out.user)
  {
  }

  lemma AcceptSaves(st: State, user: UserData, sender: string, ptr: UUID, filename: string)
    ensures var out := AcceptInvitation(st, user, sender, ptr, filename);
            if out.res.Success? then out.user == Listing(user, filename) && SavedAs(out.st, out.user)
            else out.user == user
  {
  }

  lemma ReissueSaves(st: State, user: UserData, filename: string, recipient: string, access: Access, inodeUUID: UUID,
                     inode: Inode, newKey: nat)
    ensures var out := Reissue(st, user, filename, recipient, access, inodeUUID, inode, newKey);
            out.user == Listing(user, filename) && SavedAs(out.st, out.user) && out.res.Success?
  {
  }

  lemma RevokeSaves(st: State, user: UserData, filename: string, recipient: string, out: Outcome<()>)
    requires out == RevokeAccess(st, user, filename, recipient)
    ensures out.res.Success? ==> out.user == Listing(user, filename) && SavedAs(out.st, out.user)
    ensures out.res.Failure? ==> out.user == user
  {
    if OpenAccess(st, user, filename).Success? {
      var access := OpenAccess(st, user, filename).value;
      if OpenMailbox(st, access).Success? {
        var node := OpenMailbox(st, access).value;
        if OpenInode(st.Draw(1), node).Success? {
          var inode := OpenInode(st.Draw(1), node).value;
          ReissueSaves(RekeyBlocks(st.Draw(1), inode.blocks, node.fileKey, st.next).0, user, filename, recipient,
                       access, node.inode, inode, st.next);
        }
      }
    }
  }

  lemma OthersKeep(w: World, op: Op)
    requires HasSession(w, op) && (op.Append? || op.Invite?)
    ensures Performed(w, op).1 == Caller(w, op)
  {
  }

  lemma CallLists(w: World, op: Op)
    requires HasSession(w, op) && IsCall(op)
    ensures Performed(w, op).1
         == if Saves(op) && Performed(w, op).2 then Listing(Caller(w, op), op.filename) else Caller(w, op)
    ensures Saves(op) && Performed(w, op).2 ==> SavedAs(Performed(w, op).0, Performed(w, op).1)
  {
    if op.Store? {
      StoreSaves(w.st, Caller(w, op), op.filename, op.content);
    } else if op.Accept? {
      AcceptSaves(w.st, Caller(w, op), op.sender, op.ptr, op.filename);
    } else if op.Revoke? {
      RevokeSaves(w.st, Caller(w, op), op.filename, op.recipient,
                  RevokeAccess(w.st, Caller(w, op), op.filename, op.recipient));
    } else {
      OthersKeep(w, op);
    }
  }

  /** A step leaves the sessions as they are, but for the caller's list and for sessions that begin. */
  lemma StepLists(w: World, op: Op, sid: nat)
    requires sid < |w.sessions|
    ensures sid < |Step(w, op).sessions|
    ensures Step(w, op).sessions[sid]
         == if Saves(op) && op.sid == sid && Succeeds(w, op) then Listing(w.sessions[sid], op.filename)
            else w.sessions[sid]
  {
    if IsCall(op) && HasSession(w, op) {
      CallLists(w, op);
    }
  }

  lemma StepSaves(w: World, op: Op, user: UserData)
    requires Saves(op) && Succeeds(w, op) && user == Step(w, op).sessions[op.sid]
    ensures user == Listing(Caller(w, op), op.filename) && SavedAs(Step(w, op).st, user)
  {
    CallLists(w, op);
    CallStep(w, op);
  }

  // ---------- the list over a run ----------

  /** Some step of the run is a successful operation of the session under this name that saves. */
  ghost predicate SavedIn(w: World, ops: seq<Op>, sid: nat, filename: string)
    decreases |ops|
  {
    ops != [] &&
    (|| (Saves(ops[0]) && ops[0].sid == sid && ops[0].filename == filename && Succeeds(w, ops[0]))
     || SavedIn(Step(w, ops[0]), ops[1..], sid, filename))
  }

  /**
   What a session lists: what it listed before, and exactly the names it has since stored, accepted or revoked
   under.  Nothing ever leaves the list, whatever becomes of the file.
   */
  lemma {:induction false} SessionLists(w: World, ops: seq<Op>, sid: nat, filename: string)
    requires sid < |w.sessions|
    ensures sid < |Run(w, ops).sessions|
    ensures filename in Run(w, ops).sessions[sid].files
       <==> filename in w.sessions[sid].files || SavedIn(w, ops, sid, filename)
    decreases |ops|
  {
    if ops != [] {
      StepLists(w, ops[0], sid);
      SessionLists(Step(w, ops[0]), ops[1..], sid, filename);
    }
  }

  lemma ListedAfter(w: World, first: Op, second: Op, third: Op, last: Op, sid: nat, filename: string)
    requires sid < |w.sessions| && first.Store? && first.sid == sid && first.filename == filename
    ensures var w4 := Step(Step(Step(Step(w, first), second), third), last);
            sid < |w4.sessions| && filename in w4.sessions[sid].files
  {
    CallLists(w, first);
    StepLists(w, first, sid);
    StepLists(Step(w, first), second, sid);
    StepLists(Step(Step(w, first), second), third, sid);
    StepLists(Step(Step(Step(w, first), second), third), last, sid);
  }

  /**
   A listed file need not be one the user has access to.  In every reachable world: `a` stores a file and invites
   `b`, who accepts and revokes anybody.  Then `a` cannot load the file and its session lists it still.
   */
  lemma ListedButLost(t: Gift, d: string)
    requires t.Possible()
    ensures var lost := Step(t.Given(), Revoke(t.sb, t.g, d));
            View(lost.st, t.A(), t.f) == None && t.sa < |lost.sessions| && t.f in lost.sessions[t.sa].files
  {
    StorerLoses(t, d);
    ListedAfter(t.start, Store(t.sa, t.f, t.content), Invite(t.sa, t.f, t.B().username),
                Accept(t.sb, t.A().username, PointerOf(t.Stored()), t.g), Revoke(t.sb, t.g, d), t.sa, t.f);
  }

  // ---------- the next login ----------

  /** Whoever registers and logs in finds an empty list and the same keys. */
  lemma RegisterThenLogin(st: State, username: string, password: string, st': State, user: UserData)
    requires InitUser(st, username, password) == (st', Success(user))
    ensures GetUser(st', username, password) == Success(user) && user.files == map[]
    ensures user.username == username && user.master == Master(username, password)
  {
    HomeOpens(st', username, password, user.master, user);
  }

  /** The round trip of the user record: after a saving operation a login gives the very session that saved it. */
  lemma SaveThenLogin(w: World, op: Op, user: UserData)
    requires Inv(w) && Saves(op) && Succeeds(w, op) && user == Step(w, op).sessions[op.sid]
    ensures GetUser(Step(w, op).st, user.username, user.master.password) == Success(user)
    ensures user == Listing(Caller(w, op), op.filename)
  {
    StepSaves(w, op, user);
    assert Registered(w.led, Caller(w, op));
    HomeOpens(Step(w, op).st, user.username, user.master.password, user.master, user);
  }

  lemma NamesDiffer(username: string, f: string, g: string)
    requires f != g
    ensures AccessUUID(username, f) != AccessUUID(username, g)
  {
    assert (username + f)[|username|..] == f && (username + g)[|username|..] == g;
  }

  lemma OtherStoreSpares(w: World, op: Op, user: UserData, f: string, inode: UUID)
    requires op.Store? && HasSession(w, op) && Caller(w, op).username == user.username && f != op.filename
    requires f != "userStruct"
    ensures Spares(w, op, user, f, inode)
  {
    NamesDiffer(user.username, f, op.filename);
    CollidesWithSelf(user.username, f);
  }

  lemma NothingAdded(st: State, user: UserData, f: string, content: seq<byte>, added: seq<byte>)
    requires LoadFile(st, user, f) == Success(content + added) && added == []
    ensures LoadFile(st, user, f) == Success(content)
  {
    assert content + [] == content;
  }

  lemma StillLoads(w: World, op: Op, user: UserData, f: string, content: seq<byte>)
    requires Inv(w) && op.Store? && HasSession(w, op) && Caller(w, op).username == user.username && f != op.filename
    requires f != "userStruct" && LoadFile(w.st, user, f) == Success(content)
    ensures LoadFile(Step(w, op).st, user, f) == Success(content)
  {
    LoadsOpened(w, user, f);
    var inode := Opened(w.st, user, f).value;
    OtherStoreSpares(w, op, user, f, inode);
    AddedByStore(w, op, inode);
    OneStep(w, op, user, f, inode);
    HolderKeepsAccess(w, user, f, content, inode, [op]);
    NothingAdded(Step(w, op).st, user, f, content, Added(w, [op], inode));
  }

  lemma LoadsOpened(w: World, user: UserData, f: string)
    requires Inv(w) && LoadFile(w.st, user, f).Success?
    ensures Opened(w.st, user, f).Some?
  {
    OpenedAgrees(w.led, w.st, user, f);
  }

  lemma AddedByStore(w: World, op: Op, inode: UUID)
    requires op.Store?
    ensures Added(w, [op], inode) == []
  {
    assert [op][1..] == [];
  }

  lemma OneStep(w: World, op: Op, user: UserData, f: string, inode: UUID)
    requires Spares(w, op, user, f, inode)
    ensures AllSpare(w, [op], user, f, inode) && Run(w, [op]) == Step(w, op)
  {
    assert [op][1..] == [];
  }

  /**
   Two sessions of one user save over each other.  One stores `f`, the other, which does not list `f`, stores `g`;
   the next login does not list `f`, although the user can still load it.
   */
  lemma SessionsOverwrite(w: World, j: nat, f: string, a: seq<byte>, k: nat, g: string, b: seq<byte>, user: UserData)
    requires Inv(w) && j < |w.sessions| && k < |w.sessions| && j != k && f != g && f != "userStruct"
    requires w.sessions[j].username == w.sessions[k].username && f !in w.sessions[k].files
    requires user == Listing(w.sessions[k], g)
    ensures var w2 := Step(Step(w, Store(j, f, a)), Store(k, g, b));
            && GetUser(w2.st, user.username, user.master.password) == Success(user)
            && f !in user.files && g in user.files && LoadFile(w2.st, w.sessions[j], f) == Success(a)
  {
    var first, second := Store(j, f, a), Store(k, g, b);
    var w1 := Step(w, first);
    StoreInv(w, first);
    StepLists(w, first, k);
    StoreInv(w1, second);
    StepLists(w1, second, k);
    SaveThenLogin(w1, second, user);
    StoreThenLoad(w, first);
    StillLoads(w1, second, w.sessions[j], f, a);
  }
}
