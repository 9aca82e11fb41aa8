/** Which error each operation answers with, in every reachable world, and what a refused operation leaves behind. */
module Refusals {
  import opened Wrappers
  import opened Blocks
  import opened Records
  import opened Protocol
  import opened Ledgers
  import opened Refinement
  import opened RefineSharing
  import opened RefineRevoke
  import opened RefineUsers
  import opened Runs

  function ErrorOf<T>(r: Result<T, Error>): Option<Error> {
    if r.Success? then None else Some(r.error)
  }

  // ---------- what the answers should be ----------

  /** Opening a file: nothing there, a record that is not the user's own, or a mailbox with an old key. */
  ghost function OpenRefusal(w: World, user: UserData, filename: string): Option<Error> {
    if AccessUUID(user.username, filename) !in w.st.store then Some(Missing(AccessKind))
    else if !Holds(w.led, user, filename) then Some(Unreadable(AccessKind))
    else if !CanOpen(w.led, user, filename) then Some(Unreadable(InodeKind))
    else None
  }

  ghost predicate MadeBy(led: Ledger, sender: string, ptr: UUID) {
    ptr.Random? && ptr.n in led.invs && led.invs[ptr.n].maker == sender
  }

  /** Accepting: the payload, then the sender, then the signature, then whom it is for. */
  ghost function AcceptRefusal(w: World, user: UserData, sender: string, ptr: UUID): Option<Error> {
    if ptr !in w.st.store then Some(Missing(InvitationKind))
    else if sender !in w.led.accounts then Some(NoSender)
    else if !MadeBy(w.led, sender, ptr) then Some(BadSignature)
    else if w.led.invs[ptr.n].to != user.username then Some(Unreadable(InvitationKind))
    else None
  }

  /** Inviting does not look at the file: a holder with an old key is not refused. */
  ghost function InviteRefusal(w: World, user: UserData, filename: string, recipient: string): Option<Error> {
    if AccessUUID(user.username, filename) !in w.st.store then Some(Missing(AccessKind))
    else if !Holds(w.led, user, filename) then Some(Unreadable(AccessKind))
    else if recipient !in w.led.accounts then Some(NoRecipient)
    else None
  }

  /** Logging in: nobody there; or a wrong password, or somebody's access record over the user record. */
  ghost function LoginRefusal(w: World, username: string, password: string): Option<Error> {
    var home := UserUUID(username);
    if home !in w.st.store then Some(Missing(UserKind))
    else if home !in w.led.recs && username in w.led.accounts
            && w.led.accounts[username].master.password == password then None
    else Some(Unreadable(UserKind))
  }

  // ---------- opening ----------

  lemma NonHolderError(led: Ledger, st: State, user: UserData, filename: string)
    requires RecsStored(led, st) && NamedStored(led, st) && !Holds(led, user, filename)
    ensures OpenAccess(st, user, filename)
         == Failure(if AccessUUID(user.username, filename) in st.store then Unreadable(AccessKind)
                    else Missing(AccessKind))
  {
    NonHolderFails(led, st, user, filename);
  }

  lemma HolderIsStored(led: Ledger, st: State, user: UserData, filename: string)
    requires RecsStored(led, st) && Holds(led, user, filename)
    ensures AccessUUID(user.username, filename) in st.store
  {
    var s := AccessUUID(user.username, filename);
    assert StoredAs(st, s, Sealed(PersonalKey(led.recs[s].master, led.recs[s].filename),
                                  AccessRec(AccessOf(led, led.recs[s]))));
  }

  /** The chain to the inode: what every operation on a file opens first. */
  lemma ChainError(w: World, user: UserData, filename: string, node: Result<MailboxNode, Error>)
    requires Inv(w) && node == OpenNode(w.st, user, filename)
    ensures OpenRefusal(w, user, filename)
         == if node.Failure? then Some(node.error) else ErrorOf(OpenInode(w.st, node.value))
    ensures Holds(w.led, user, filename) <==> node.Success?
    ensures Holds(w.led, user, filename) <==> OpenAccess(w.st, user, filename).Success?
  {
    if !Holds(w.led, user, filename) {
      NonHolderError(w.led, w.st, user, filename);
    } else {
      var m := w.led.recs[AccessUUID(user.username, filename)].mailbox;
      HolderIsStored(w.led, w.st, user, filename);
      HolderOpensAccess(w.led, w.st, user, filename);
      HolderOpensNode(w.led, w.st, user, filename, m);
      if Live(w.led, m) {
        LiveMailboxOpensInode(w.led, w.st, m);
      } else {
        StaleMailboxFails(w.led, w.st, m);
      }
    }
  }

  /** LoadFile answers with exactly one of three errors, and never with one of a mailbox or a block. */
  lemma LoadAnswers(w: World, user: UserData, filename: string)
    requires Inv(w)
    ensures ErrorOf(LoadFile(w.st, user, filename)) == OpenRefusal(w, user, filename)
  {
    ChainError(w, user, filename, OpenNode(w.st, user, filename));
    LoadFileReads(w.led, w.st, user, filename);
  }

  /** AppendToFile refuses a nil content first; then it answers as LoadFile does, and leaves everything as it was. */
  lemma AppendAnswers(w: World, user: UserData, filename: string, content: Option<seq<byte>>, out: Outcome<()>)
    requires Inv(w) && out == AppendToFile(w.st, user, filename, content)
    ensures ErrorOf(out.res) == if content.None? then Some(NilContent) else OpenRefusal(w, user, filename)
    ensures out.res.Failure? ==> out == Outcome(w.st, user, out.res)
  {
    ChainError(w, user, filename, OpenNode(w.st, user, filename));
  }

  // ---------- sharing ----------

  lemma InviteOpensFirst(st: State, user: UserData, filename: string, recipient: string, e: Error)
    requires OpenAccess(st, user, filename) == Failure(e)
    ensures CreateInvitation(st, user, filename, recipient) == Outcome(st, user, Failure(e))
  {
  }

  lemma UnheldInvites(w: World, user: UserData, filename: string, recipient: string, out: Outcome<UUID>)
    requires Inv(w) && out == CreateInvitation(w.st, user, filename, recipient) && !Holds(w.led, user, filename)
    ensures out.st == w.st && out.user == user && out.res.Failure?
    ensures out.res.error
         == if AccessUUID(user.username, filename) in w.st.store then Unreadable(AccessKind) else Missing(AccessKind)
  {
    NonHolderError(w.led, w.st, user, filename);
    InviteOpensFirst(w.st, user, filename, recipient, OpenAccess(w.st, user, filename).error);
  }

  lemma UnknownRecipient(st: State, user: UserData, filename: string, recipient: string, node: MailboxNode)
    requires OpenNode(st, user, filename) == Success(node) && EncName(recipient) !in st.keys
    ensures CreateInvitation(st, user, filename, recipient)
         == Outcome(st.Draw(2).Put(Random(st.next), Sealed(MailKey(st.next + 1), MailboxRec(node))), user,
                    Failure(NoRecipient))
  {
  }

  /** A refusal for want of a recipient leaves one more copy of the mailbox. */
  lemma UnknownInvites(w: World, user: UserData, filename: string, recipient: string, node: MailboxNode,
                       out: Outcome<UUID>)
    requires Inv(w) && out == CreateInvitation(w.st, user, filename, recipient) && recipient !in w.led.accounts
    requires OpenNode(w.st, user, filename) == Success(node)
    ensures out.res == Failure(NoRecipient) && out.user == user
    ensures out.st == w.st.Draw(2).Put(Random(w.st.next), Sealed(MailKey(w.st.next + 1), MailboxRec(node)))
  {
    UnknownRecipient(w.st, user, filename, recipient, node);
  }

  lemma HeldInvites(w: World, user: UserData, filename: string, recipient: string, out: Outcome<UUID>)
    requires Inv(w) && Registered(w.led, user) && out == CreateInvitation(w.st, user, filename, recipient)
    requires Holds(w.led, user, filename)
    ensures AccessUUID(user.username, filename) in w.st.store && OpenNode(w.st, user, filename).Success?
    ensures recipient in w.led.accounts ==> out.res.Success?
  {
    HolderIsStored(w.led, w.st, user, filename);
    HolderOpensNode(w.led, w.st, user, filename, w.led.recs[AccessUUID(user.username, filename)].mailbox);
    InviteRefines(w.led, w.st, user, filename, recipient);
  }

  /** CreateInvitation: its errors, and what each leaves behind. */
  lemma InviteAnswers(w: World, user: UserData, filename: string, recipient: string, out: Outcome<UUID>)
    requires Inv(w) && Registered(w.led, user) && out == CreateInvitation(w.st, user, filename, recipient)
    ensures ErrorOf(out.res) == InviteRefusal(w, user, filename, recipient)
    ensures out.res.Failure? ==> out.user == user
    ensures out.res.Failure? && out.res.error != NoRecipient ==> out.st == w.st
    ensures out.res == Failure(NoRecipient) ==>
              && OpenNode(w.st, user, filename).Success?
              && out.st == w.st.Draw(2).Put(Random(w.st.next), Sealed(MailKey(w.st.next + 1), MailboxRec(
                             OpenNode(w.st, user, filename).value)))
  {
    if !Holds(w.led, user, filename) {
      UnheldInvites(w, user, filename, recipient, out);
    } else {
      HeldInvites(w, user, filename, recipient, out);
      if recipient !in w.led.accounts {
        UnknownInvites(w, user, filename, recipient, OpenNode(w.st, user, filename).value, out);
      }
    }
  }

  lemma StoredInvitation(led: Ledger, st: State, ptr: UUID)
    requires InvsStored(led, st) && ptr in st.store && st.store[ptr].Signed?
    ensures ptr.Random? && ptr.n in led.invs
    ensures led.invs[ptr.n].maker in led.accounts && led.invs[ptr.n].to in led.accounts
    ensures st.store[ptr] == InvitationOf(led, led.invs[ptr.n])
  {
    assert StoredAs(st, Random(ptr.n), InvitationOf(led, led.invs[ptr.n]));
  }

  lemma MadeIsSigned(led: Ledger, st: State, sender: string, ptr: UUID)
    requires InvsStored(led, st) && MadeBy(led, sender, ptr)
    ensures ptr in st.store && st.store[ptr].Signed?
  {
    assert StoredAs(st, Random(ptr.n), InvitationOf(led, led.invs[ptr.n]));
  }

  /** A signature verifies under the sender's published key exactly on the sender's invitations. */
  lemma VerifiesIffMade(led: Ledger, st: State, sender: string, ptr: UUID)
    requires AccountsOK(led) && InvsStored(led, st) && KeysPublished(led, st)
    requires ptr in st.store && sender in led.accounts
    ensures SigName(sender) in st.keys
    ensures st.store[ptr].Signed? && st.keys[SigName(sender)] == DSPublic(st.store[ptr].signer)
       <==> MadeBy(led, sender, ptr)
  {
    if MadeBy(led, sender, ptr) {
      MadeIsSigned(led, st, sender, ptr);
    }
    if st.store[ptr].Signed? {
      StoredInvitation(led, st, ptr);
      SameSigner(led, led.invs[ptr.n].maker, sender);
    }
  }

  lemma DecryptsIffFor(led: Ledger, st: State, user: UserData, sender: string, ptr: UUID)
    requires AccountsOK(led) && InvsStored(led, st) && Registered(led, user) && MadeBy(led, sender, ptr)
    ensures ptr in st.store && st.store[ptr].Signed?
    ensures st.store[ptr].to == user.pke <==> led.invs[ptr.n].to == user.username
  {
    MadeIsSigned(led, st, sender, ptr);
    StoredInvitation(led, st, ptr);
    SameSigner(led, led.invs[ptr.n].to, user.username);
  }

  /** AcceptInvitation checks in this order, and a refusal leaves everything as it was. */
  lemma AcceptAnswers(w: World, user: UserData, sender: string, ptr: UUID, filename: string)
    requires Inv(w) && Registered(w.led, user)
    ensures var out := AcceptInvitation(w.st, user, sender, ptr, filename);
            && ErrorOf(out.res) == AcceptRefusal(w, user, sender, ptr)
            && (out.res.Failure? ==> out.st == w.st && out.user == user)
  {
    if ptr in w.st.store && sender in w.led.accounts {
      VerifiesIffMade(w.led, w.st, sender, ptr);
      if MadeBy(w.led, sender, ptr) {
        DecryptsIffFor(w.led, w.st, user, sender, ptr);
      }
    }
  }

  /** RevokeAccess answers as LoadFile does; a refusal has drawn at most a key and written nothing. */
  lemma RevokeAnswers(w: World, user: UserData, filename: string, recipient: string)
    requires Inv(w) && Registered(w.led, user)
    ensures var out := RevokeAccess(w.st, user, filename, recipient);
            && ErrorOf(out.res) == OpenRefusal(w, user, filename)
            && (out.res.Failure? ==> out.user == user)
            && (out.res.Failure? && Holds(w.led, user, filename) ==> out.st == w.st.Draw(1))
            && (out.res.Failure? && !Holds(w.led, user, filename) ==> out.st == w.st)
  {
    var out := RevokeAccess(w.st, user, filename, recipient);
    if !Holds(w.led, user, filename) {
      NonHolderError(w.led, w.st, user, filename);
    } else {
      HolderIsStored(w.led, w.st, user, filename);
      if CanOpen(w.led, user, filename) {
        RevokeRefines(w.led, w.st, user, filename, recipient);
      } else {
        RevokeStale(w.led, w.st, user, filename, recipient, out);
      }
    }
  }

  // ---------- users ----------

  /** Registering is refused exactly when something lies under the user's UUID, and then changes nothing. */
  lemma RegisterAnswers(w: World, username: string, password: string)
    requires Inv(w)
    ensures var (st', res) := InitUser(w.st, username, password);
            && ErrorOf(res) == (if UserUUID(username) in w.st.store then Some(UserExists) else None)
            && (res.Failure? ==> st' == w.st)
  {
    InitUserRefines(w.led, w.st, username, password);
  }

  lemma SomebodyIsHome(led: Ledger, st: State, username: string)
    requires NamedStored(led, st) && RecsStored(led, st)
    requires UserUUID(username) in st.store && UserUUID(username) !in led.recs
    ensures username in led.accounts
  {
    var p := st.store[UserUUID(username)];
    assert UserStored(led, UserUUID(username), p);
    if p.plain.user.username != username {
      HomesApart(p.plain.user.username, username);
    }
  }

  /** GetUser reports a missing user exactly when the UUID is free, and anything else it cannot open alike. */
  lemma LoginAnswers(w: World, username: string, password: string)
    requires Inv(w)
    ensures UserUUID(username) in w.st.store && UserUUID(username) !in w.led.recs ==> username in w.led.accounts
    ensures ErrorOf(GetUser(w.st, username, password)) == LoginRefusal(w, username, password)
  {
    GetUserRefines(w.led, w.st, username, password);
    if UserUUID(username) in w.st.store && UserUUID(username) !in w.led.recs {
      SomebodyIsHome(w.led, w.st, username);
    }
  }
}
