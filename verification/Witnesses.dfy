/**
 What happens when a file is shared, passed on and revoked, in every world three users are logged in to.

 These runs show that an accepted invitation gives the recipient the file, that a direct child keeps it
 through the storer's revocations, and that both a child of a child and a storer who does not revoke itself
 lose it.
 */
module Witnesses {
  import opened Wrappers
  import opened Blocks
  import opened Records
  import opened Protocol
  import opened Ledgers
  import opened LedgerSteps
  import opened RefineRevoke
  import opened RefineUsers
  import opened Sharing
  import opened Simulation
  import opened Runs
  import opened Guarantees
  import opened Stability
  import opened Frames

  // ---------- giving a file to somebody ----------

  /** The pointer a successful CreateInvitation returns. */
  function PointerOf(w: World): UUID {
    Random(w.st.next + 2)
  }

  /** On the ledger: `ua` holds file `i` under `f`, and `ub` holds it under `g` as a direct child of `ua`. */
  ghost predicate Gave(led: Ledger, ua: UserData, f: string, ub: UserData, g: string, i: nat) {
    && HoldsFile(led, ua, f, i) && HoldsFile(led, ub, g, i)
    && var rec := led.recs[AccessUUID(ua.username, f)];
       ub.username in rec.children && rec.children[ub.username] == led.recs[AccessUUID(ub.username, g)].mailbox
  }

  lemma InvitedInvitation(led: Ledger, ua: UserData, f: string, recipient: string, led1: Ledger, s: UUID, m: nat)
    requires Holds(led, ua, f) && s == AccessUUID(ua.username, f) && m == led.recs[s].mailbox && m in led.mails
    requires recipient in led.accounts && led1 == InviteLedger(led, ua, f, recipient)
    ensures led1.invs == led.invs[led.next + 2 := InvInfo(ua.username, recipient, led.next)]
    ensures led1.mails == led.mails[led.next := CopyOf(led, m, ua.username, recipient)] && led1.files == led.files
    ensures led1.recs == led.recs[s := led.recs[s].(children := led.recs[s].children[recipient := led.next])]
  {
    InviteParts(led, ua, f, recipient, led1, s, m);
  }

  lemma AcceptedParts(led: Ledger, ub: UserData, sender: string, ptr: UUID, g: string, led': Ledger)
    requires Acceptable(led, ub, sender, ptr) && led' == AcceptLedger(led, ub, sender, ptr, g)
    ensures led'.recs == WithRec(led, ub, g, RecInfo(ub.master, g, led.invs[ptr.n].mailbox, map[]))
    ensures led'.mails == led.mails && led'.files == led.files
  {
  }

  lemma GaveParts(led: Ledger, ua: UserData, f: string, ub: UserData, g: string, i: nat, sA: UUID, sB: UUID,
                  led1: Ledger, led2: Ledger)
    requires Below(led) && HoldsFile(led, ua, f, i)
    requires sA == AccessUUID(ua.username, f) && sB == AccessUUID(ub.username, g)
    requires sA != sB && sA != UserUUID(ub.username) && sB != UserUUID(ub.username)
    requires led1.mails == led.mails[led.next := CopyOf(led, led.recs[sA].mailbox, ua.username, ub.username)]
    requires led1.files == led.files
    requires led1.recs == led.recs[sA := led.recs[sA].(children := led.recs[sA].children[ub.username := led.next])]
    requires led2.recs == WithRec(led1, ub, g, RecInfo(ub.master, g, led.next, map[]))
    requires led2.mails == led1.mails && led2.files == led1.files
    ensures Gave(led2, ua, f, ub, g, i) && led2.recs[sB].children == map[]
  {
  }

  lemma GiveOnLedger(led: Ledger, ua: UserData, f: string, ub: UserData, g: string, i: nat, led1: Ledger, led2: Ledger)
    requires Below(led) && HoldsFile(led, ua, f, i) && ub.username in led.accounts
    requires led1 == InviteLedger(led, ua, f, ub.username)
    requires led2 == AcceptLedger(led1, ub, ua.username, Random(led.next + 2), g)
    requires AccessUUID(ua.username, f) != AccessUUID(ub.username, g)
    requires AccessUUID(ua.username, f) != UserUUID(ub.username)
    requires AccessUUID(ub.username, g) != UserUUID(ub.username)
    ensures Acceptable(led1, ub, ua.username, Random(led.next + 2)) && Gave(led2, ua, f, ub, g, i)
    ensures led2.files == led.files
    ensures led2.recs[AccessUUID(ub.username, g)].children == map[]
  {
    var sA := AccessUUID(ua.username, f);
    InvitedInvitation(led, ua, f, ub.username, led1, sA, led.recs[sA].mailbox);
    AcceptedParts(led1, ub, ua.username, Random(led.next + 2), g, led2);
    GaveParts(led, ua, f, ub, g, i, sA, AccessUUID(ub.username, g), led1, led2);
  }

  // ---------- sessions ----------

  /** The same user; only the list of files may differ. */
  predicate SameUser(u: UserData, v: UserData) {
    u.username == v.username && u.master == v.master && u.pke == v.pke && u.ds == v.ds
  }

  lemma StepSessions(w: World, op: Op)
    requires HasSession(w, op) && IsCall(op)
    ensures |Step(w, op).sessions| == |w.sessions| && SameUser(Step(w, op).sessions[op.sid], w.sessions[op.sid])
    ensures forall k | 0 <= k < |w.sessions| && k != op.sid :: Step(w, op).sessions[k] == w.sessions[k]
  {
  }

  lemma SessionRegistered(w: World, sid: nat)
    requires Reachable(w) && sid < |w.sessions|
    ensures w.sessions[sid].username in w.led.accounts && w.led.next == w.st.next && Below(w.led)
  {
    ReachableIsSound(w);
    InvBelow(w);
  }

  lemma InviteGives(w: World, sa: nat, f: string, recipient: string, w1: World)
    requires Reachable(w) && sa < |w.sessions| && Holds(w.led, w.sessions[sa], f) && recipient in w.led.accounts
    requires w1 == Step(w, Invite(sa, f, recipient))
    ensures Reachable(w1) && Succeeds(w, Invite(sa, f, recipient))
    ensures w1.led == InviteLedger(w.led, w.sessions[sa], f, recipient)
    ensures |w1.sessions| == |w.sessions| && SameUser(w1.sessions[sa], w.sessions[sa])
    ensures forall k | 0 <= k < |w.sessions| && k != sa :: w1.sessions[k] == w.sessions[k]
  {
    var op := Invite(sa, f, recipient);
    ReachableIsSound(w);
    ReachableStep(w, op);
    InviteInv(w, op);
    CallStep(w, op);
    StepSessions(w, op);
  }

  lemma AcceptGives(w1: World, sb: nat, sender: string, ptr: UUID, g: string, w2: World)
    requires Reachable(w1) && sb < |w1.sessions| && Acceptable(w1.led, w1.sessions[sb], sender, ptr)
    requires w2 == Step(w1, Accept(sb, sender, ptr, g))
    ensures Reachable(w2) && Succeeds(w1, Accept(sb, sender, ptr, g))
    ensures w2.led == AcceptLedger(w1.led, w1.sessions[sb], sender, ptr, g)
    ensures |w2.sessions| == |w1.sessions| && SameUser(w2.sessions[sb], w1.sessions[sb])
    ensures forall k | 0 <= k < |w1.sessions| && k != sb :: w2.sessions[k] == w1.sessions[k]
  {
    var op := Accept(sb, sender, ptr, g);
    ReachableIsSound(w1);
    ReachableStep(w1, op);
    AcceptInv(w1, op);
    CallStep(w1, op);
    StepSessions(w1, op);
  }

  /** Two users, two file names: neither the records nor the user records collide. */
  predicate Distinct2(a: string, f: string, b: string, g: string) {
    && a != b && AccessUUID(a, f) != AccessUUID(b, g)
    && AccessUUID(a, f) != UserUUID(b) && AccessUUID(b, g) != UserUUID(a)
    && AccessUUID(a, f) != UserUUID(a) && AccessUUID(b, g) != UserUUID(b)
  }

  /** The two steps, and what they need: the inviter's holding and the pointer's invitation. */
  lemma GiveSteps(w: World, sa: nat, f: string, sb: nat, g: string, ua: UserData, ub: UserData, ptr: UUID, w1: World,
                  w2: World)
    requires Reachable(w) && sa < |w.sessions| && sb < |w.sessions| && sa != sb && ua == w.sessions[sa]
    requires ub == w.sessions[sb]
    requires Holds(w.led, ua, f) && ub.username in w.led.accounts
    requires Acceptable(InviteLedger(w.led, ua, f, ub.username), ub, ua.username, ptr)
    requires w1 == Step(w, Invite(sa, f, ub.username)) && w2 == Step(w1, Accept(sb, ua.username, ptr, g))
    ensures Succeeds(w, Invite(sa, f, ub.username)) && Succeeds(w1, Accept(sb, ua.username, ptr, g)) && Reachable(w2)
    ensures w2.led == GivenLedger(w.led, ua, f, ub, g, ptr)
    ensures |w2.sessions| == |w.sessions| && SameUser(w2.sessions[sa], ua) && SameUser(w2.sessions[sb], ub)
    ensures forall k | 0 <= k < |w.sessions| && k != sa && k != sb :: w2.sessions[k] == w.sessions[k]
  {
    InviteGives(w, sa, f, ub.username, w1);
    AcceptGives(w1, sb, ua.username, ptr, g, w2);
  }

  ghost function GivenLedger(led: Ledger, ua: UserData, f: string, ub: UserData, g: string, ptr: UUID): Ledger {
    AcceptLedger(InviteLedger(led, ua, f, ub.username), ub, ua.username, ptr, g)
  }

  lemma GiveFacts(led: Ledger, ua: UserData, f: string, ub: UserData, g: string, i: nat, ptr: UUID)
    requires Below(led) && HoldsFile(led, ua, f, i) && ub.username in led.accounts
    requires Distinct2(ua.username, f, ub.username, g) && ptr == Random(led.next + 2)
    ensures Acceptable(InviteLedger(led, ua, f, ub.username), ub, ua.username, ptr)
    ensures Gave(GivenLedger(led, ua, f, ub, g, ptr), ua, f, ub, g, i)
    ensures GivenLedger(led, ua, f, ub, g, ptr).files == led.files
    ensures GivenLedger(led, ua, f, ub, g, ptr).recs[AccessUUID(ub.username, g)].children == map[]
  {
    GiveOnLedger(led, ua, f, ub, g, i, InviteLedger(led, ua, f, ub.username), GivenLedger(led, ua, f, ub, g, ptr));
  }

  lemma GiveWorks(w: World, sa: nat, f: string, sb: nat, g: string, i: nat, ua: UserData, ub: UserData, w1: World,
                  w2: World)
    requires Reachable(w) && sa < |w.sessions| && sb < |w.sessions| && ua == w.sessions[sa] && ub == w.sessions[sb]
    requires HoldsFile(w.led, ua, f, i) && Distinct2(ua.username, f, ub.username, g)
    requires w1 == Step(w, Invite(sa, f, ub.username)) && w2 == Step(w1, Accept(sb, ua.username, PointerOf(w), g))
    ensures Succeeds(w, Invite(sa, f, ub.username)) && Succeeds(w1, Accept(sb, ua.username, PointerOf(w), g))
    ensures Reachable(w2)
    ensures Gave(w2.led, ua, f, ub, g, i) && w2.led.files == w.led.files
    ensures w2.led.recs[AccessUUID(ub.username, g)].children == map[]
    ensures |w2.sessions| == |w.sessions| && SameUser(w2.sessions[sa], ua) && SameUser(w2.sessions[sb], ub)
    ensures forall k | 0 <= k < |w.sessions| && k != sa && k != sb :: w2.sessions[k] == w.sessions[k]
  {
    SessionRegistered(w, sb);
    GiveFacts(w.led, ua, f, ub, g, i, PointerOf(w));
    GiveSteps(w, sa, f, sb, g, ua, ub, PointerOf(w), w1, w2);
  }

  lemma ViewOfHolder(w: World, user: UserData, filename: string, i: nat)
    requires Reachable(w) && HoldsFile(w.led, user, filename, i)
    ensures View(w.st, user, filename) == Some(Flatten(w.led.files[i].chunks))
    ensures Opened(w.st, user, filename) == Some(Random(i))
  {
    ReachableIsSound(w);
    ViewAgrees(w.led, w.st, user, filename);
    OpenedAgrees(w.led, w.st, user, filename);
  }

  lemma HolderOfView(w: World, user: UserData, filename: string, content: seq<byte>)
    requires Reachable(w) && View(w.st, user, filename) == Some(content)
    ensures CanOpen(w.led, user, filename) && HasBytes(w.led, FileOf(w.led, user, filename), content)
  {
    ReachableIsSound(w);
    ViewAgrees(w.led, w.st, user, filename);
  }

  /** The pointer is the one CreateInvitation returns. */
  lemma PointerIsReturned(w: World, user: UserData, f: string, recipient: string)
    requires CreateInvitation(w.st, user, f, recipient).res.Success?
    ensures CreateInvitation(w.st, user, f, recipient).res.value == PointerOf(w)
  {
  }

  /**
   An accepted invitation gives the file.  Whoever can load a file can invite any logged-in user; when that
   user accepts the returned pointer, it loads exactly what the inviter loads.
   */
  lemma InviteAcceptLoads(w: World, sa: nat, f: string, sb: nat, g: string, content: seq<byte>, ua: UserData,
                          ub: UserData, w1: World, w2: World)
    requires Reachable(w) && sa < |w.sessions| && sb < |w.sessions| && ua == w.sessions[sa] && ub == w.sessions[sb]
    requires View(w.st, ua, f) == Some(content) && Distinct2(ua.username, f, ub.username, g)
    requires w1 == Step(w, Invite(sa, f, ub.username)) && w2 == Step(w1, Accept(sb, ua.username, PointerOf(w), g))
    ensures Succeeds(w, Invite(sa, f, ub.username)) && Succeeds(w1, Accept(sb, ua.username, PointerOf(w), g))
    ensures CreateInvitation(w.st, ua, f, ub.username).res == Success(PointerOf(w))
    ensures View(w2.st, ub, g) == View(w2.st, ua, f) == Some(content)
  {
    HolderOfView(w, ua, f, content);
    var i := FileOf(w.led, ua, f);
    GiveWorks(w, sa, f, sb, g, i, ua, ub, w1, w2);
    PointerIsReturned(w, ua, f, ub.username);
    ViewOfHolder(w2, ua, f, i);
    ViewOfHolder(w2, ub, g, i);
  }

  // ---------- passing it on ----------

  lemma GaveThroughInvite(led: Ledger, ua: UserData, f: string, ub: UserData, g: string, i: nat, caller: UserData,
                          h: string, r: string, led': Ledger)
    requires Below(led) && Gave(led, ua, f, ub, g, i) && AccessUUID(caller.username, h) != AccessUUID(ua.username, f)
    requires led' == InviteLedger(led, caller, h, r)
    ensures Gave(led', ua, f, ub, g, i)
  {
    InviteKeepsHolder(led, caller, h, r, ua, f, i);
    InviteKeepsHolder(led, caller, h, r, ub, g, i);
    InviteKeepsRecords(led, caller, h, r, led', AccessUUID(ua.username, f), AccessUUID(ub.username, g));
  }

  lemma InviteKeepsRecords(led: Ledger, caller: UserData, h: string, r: string, led': Ledger, sA: UUID, sB: UUID)
    requires sA in led.recs && sB in led.recs && AccessUUID(caller.username, h) != sA
    requires led' == InviteLedger(led, caller, h, r)
    ensures sA in led'.recs && led'.recs[sA] == led.recs[sA] && sB in led'.recs
    ensures led'.recs[sB].mailbox == led.recs[sB].mailbox
  {
  }

  lemma GaveThroughAccept(led: Ledger, ua: UserData, f: string, ub: UserData, g: string, i: nat, uc: UserData,
                          sender: string, ptr: UUID, h: string, led': Ledger)
    requires Gave(led, ua, f, ub, g, i) && Acceptable(led, uc, sender, ptr)
    requires led' == AcceptLedger(led, uc, sender, ptr, h)
    requires Distinct2(ua.username, f, uc.username, h) && Distinct2(ub.username, g, uc.username, h)
    ensures Gave(led', ua, f, ub, g, i)
  {
    AcceptedParts(led, uc, sender, ptr, h, led');
  }

  /** Three users, three file names, nothing collides. */
  predicate Distinct3(a: string, f: string, b: string, g: string, c: string, h: string) {
    Distinct2(a, f, b, g) && Distinct2(a, f, c, h) && Distinct2(b, g, c, h)
  }

  lemma StoreGives(w: World, sa: nat, f: string, content: seq<byte>, w1: World)
    requires Reachable(w) && sa < |w.sessions| && w1 == Step(w, Store(sa, f, content))
    ensures Reachable(w1) && Succeeds(w, Store(sa, f, content))
    ensures w1.led == StoreLedger(w.led, w.sessions[sa], f, content)
    ensures |w1.sessions| == |w.sessions| && SameUser(w1.sessions[sa], w.sessions[sa])
    ensures forall k | 0 <= k < |w.sessions| && k != sa :: w1.sessions[k] == w.sessions[k]
  {
    var op := Store(sa, f, content);
    ReachableIsSound(w);
    ReachableStep(w, op);
    StoreInv(w, op);
    CallStep(w, op);
    StepSessions(w, op);
  }

  lemma StoredFacts(led: Ledger, user: UserData, f: string, content: seq<byte>, led': Ledger)
    requires led' == StoreLedger(led, user, f, content) && f != "userStruct"
    ensures HoldsFile(led', user, f, led.next + 1) && HasBytes(led', led.next + 1, content)
  {
    StoredIsHeld(led, user, f, content, led');
    StoredFile(led, user, f, content, led');
  }

  lemma StoredFile(led: Ledger, user: UserData, f: string, content: seq<byte>, led': Ledger)
    requires led' == StoreLedger(led, user, f, content) && CanOpen(led', user, f)
    ensures FileOf(led', user, f) == led.next + 1
  {
  }

  lemma SameHolder2(led: Ledger, u: UserData, v: UserData, f: string, i: nat)
    requires SameUser(u, v) && HoldsFile(led, u, f, i)
    ensures HoldsFile(led, v, f, i)
  {
  }

  lemma SameGave(led: Ledger, ua: UserData, va: UserData, f: string, ub: UserData, vb: UserData, g: string, i: nat)
    requires SameUser(ua, va) && SameUser(ub, vb) && Gave(led, ua, f, ub, g, i)
    ensures Gave(led, va, f, vb, g, i)
  {
  }

  /** The direct child passes the file on: all three hold it, each the direct child of the one before. */
  lemma PassedOn(led: Ledger, ua: UserData, f: string, ub: UserData, g: string, uc: UserData, h: string, i: nat,
                 ptr: UUID, led': Ledger)
    requires Below(led) && Below(InviteLedger(led, ub, g, uc.username)) && Gave(led, ua, f, ub, g, i)
    requires uc.username in led.accounts
    requires Distinct3(ua.username, f, ub.username, g, uc.username, h) && ptr == Random(led.next + 2)
    requires led' == GivenLedger(led, ub, g, uc, h, ptr)
    ensures Gave(led', ua, f, ub, g, i) && Gave(led', ub, g, uc, h, i) && led'.files == led.files
  {
    var led1 := InviteLedger(led, ub, g, uc.username);
    GiveFacts(led, ub, g, uc, h, i, ptr);
    GaveThroughInvite(led, ua, f, ub, g, i, ub, g, uc.username, led1);
    GaveThroughAccept(led1, ua, f, ub, g, i, uc, ub.username, ptr, h, led');
  }

  lemma MailBelow(led: Ledger, m: nat, maker: string, recipient: string)
    requires Below(led) && m in led.mails
    ensures Below(MailLedger(led, m, maker, recipient))
  {
  }

  lemma LinkBelow(led: Ledger, s: UUID, m: nat, maker: string, recipient: string)
    requires Below(led) && s in led.recs
    ensures Below(LinkLedger(led, s, m, maker, recipient))
  {
  }

  lemma InvitedBelow(led: Ledger, user: UserData, filename: string, recipient: string)
    requires Below(led)
    ensures Below(InviteLedger(led, user, filename, recipient))
  {
    var s := AccessUUID(user.username, filename);
    if Holds(led, user, filename) && led.recs[s].mailbox in led.mails {
      MailBelow(led, led.recs[s].mailbox, user.username, recipient);
      if recipient in led.accounts {
        LinkBelow(MailLedger(led, led.recs[s].mailbox, user.username, recipient), s, led.next, user.username,
                  recipient);
      }
    }
  }

  lemma PassOnWorks(w: World, ua: UserData, f: string, sb: nat, g: string, sc: nat, h: string, i: nat, ub: UserData,
                    uc: UserData, w1: World, w2: World)
    requires Reachable(w) && sb < |w.sessions| && sc < |w.sessions| && ub == w.sessions[sb] && uc == w.sessions[sc]
    requires Gave(w.led, ua, f, ub, g, i) && Distinct3(ua.username, f, ub.username, g, uc.username, h)
    requires w1 == Step(w, Invite(sb, g, uc.username)) && w2 == Step(w1, Accept(sc, ub.username, PointerOf(w), h))
    ensures Succeeds(w, Invite(sb, g, uc.username)) && Succeeds(w1, Accept(sc, ub.username, PointerOf(w), h))
    ensures Reachable(w2)
    ensures Gave(w2.led, ua, f, ub, g, i) && Gave(w2.led, ub, g, uc, h, i) && w2.led.files == w.led.files
    ensures |w2.sessions| == |w.sessions| && SameUser(w2.sessions[sb], ub) && SameUser(w2.sessions[sc], uc)
    ensures forall k | 0 <= k < |w.sessions| && k != sb && k != sc :: w2.sessions[k] == w.sessions[k]
  {
    SessionRegistered(w, sc);
    InvitedBelow(w.led, ub, g, uc.username);
    GiveFacts(w.led, ub, g, uc, h, i, PointerOf(w));
    PassedOn(w.led, ua, f, ub, g, uc, h, i, PointerOf(w), GivenLedger(w.led, ub, g, uc, h, PointerOf(w)));
    GiveSteps(w, sb, g, sc, h, ub, uc, PointerOf(w), w1, w2);
  }

  // ---------- revoking ----------

  lemma ViewSame(st: State, u: UserData, v: UserData, filename: string)
    requires SameUser(u, v)
    ensures View(st, u, filename) == View(st, v, filename)
  {
  }

  lemma ChildIsKept(led: Ledger, ua: UserData, f: string, ub: UserData, g: string, i: nat, d: string)
    requires Gave(led, ua, f, ub, g, i) && d != ub.username
    ensures Kept(led.recs[AccessUUID(ua.username, f)], d, led.recs[AccessUUID(ub.username, g)].mailbox)
  {
    var c := ub.username;
    assert c in led.recs[AccessUUID(ua.username, f)].children && c != d;
  }

  /** Another holder of the file after a revocation, by what the revoker's record says. */
  lemma RevokedView(w: World, sa: nat, f: string, d: string, user: UserData, filename: string, i: nat,
                    content: seq<byte>, w': World)
    requires Reachable(w) && sa < |w.sessions| && HoldsFile(w.led, w.sessions[sa], f, i)
    requires HoldsFile(w.led, user, filename, i)
    requires HasBytes(w.led, i, content) && w' == Step(w, Revoke(sa, f, d))
    requires AccessUUID(user.username, filename) != AccessUUID(w.sessions[sa].username, f)
    requires AccessUUID(user.username, filename) != UserUUID(w.sessions[sa].username)
    ensures Succeeds(w, Revoke(sa, f, d)) && Reachable(w')
    ensures View(w'.st, user, filename)
         == if Kept(w.led.recs[AccessUUID(w.sessions[sa].username, f)], d,
                    w.led.recs[AccessUUID(user.username, filename)].mailbox)
            then Some(content) else None
  {
    var op := Revoke(sa, f, d);
    ReachableIsSound(w);
    ReachableStep(w, op);
    InvBelow(w);
    RevokeInv(w, op);
    CallStep(w, op);
    RevokeOthersLedger(w.led, w.sessions[sa], f, d, user, filename);
    ViewAgrees(w'.led, w'.st, user, filename);
  }

  /** A child of a child is not among the revoker's children. */
  lemma GrandchildIsNotKept(w: World, ua: UserData, f: string, ub: UserData, g: string, uc: UserData, h: string,
                            i: nat, d: string)
    requires Reachable(w) && Gave(w.led, ub, g, uc, h, i) && HoldsFile(w.led, ua, f, i)
    requires AccessUUID(ua.username, f) != AccessUUID(ub.username, g)
    ensures !Kept(w.led.recs[AccessUUID(ua.username, f)], d, w.led.recs[AccessUUID(uc.username, h)].mailbox)
  {
    ReachableIsSound(w);
    ChildOfOne(w.led, AccessUUID(ua.username, f), AccessUUID(ub.username, g), uc.username, d);
  }

  lemma OwnerRevokesShared(w: World, sa: nat, f: string, ub: UserData, g: string, uc: UserData, h: string, i: nat,
                           d: string, content: seq<byte>, ua: UserData, w': World)
    requires Reachable(w) && sa < |w.sessions| && ua == w.sessions[sa] && d != ub.username
    requires Gave(w.led, ua, f, ub, g, i) && Gave(w.led, ub, g, uc, h, i) && HasBytes(w.led, i, content)
    requires Distinct3(ua.username, f, ub.username, g, uc.username, h) && w' == Step(w, Revoke(sa, f, d))
    ensures Succeeds(w, Revoke(sa, f, d)) && View(w'.st, ub, g) == Some(content) && View(w'.st, uc, h) == None
  {
    RevokedView(w, sa, f, d, ub, g, i, content, w');
    RevokedView(w, sa, f, d, uc, h, i, content, w');
    ChildIsKept(w.led, ua, f, ub, g, i, d);
    GrandchildIsNotKept(w, ua, f, ub, g, uc, h, i, d);
  }

  /** The common beginning: `a` stores, `b` holds the file as a's direct child and has no children itself. */
  lemma StoredAndGiven(w: World, sa: nat, sb: nat, f: string, g: string, content: seq<byte>, a: UserData, b: UserData,
                       w1: World, w2: World, w3: World) returns (i: nat)
    requires Reachable(w) && sa < |w.sessions| && sb < |w.sessions| && a == w.sessions[sa] && b == w.sessions[sb]
    requires Distinct2(a.username, f, b.username, g) && w1 == Step(w, Store(sa, f, content))
    requires w2 == Step(w1, Invite(sa, f, b.username)) && w3 == Step(w2, Accept(sb, a.username, PointerOf(w1), g))
    ensures Succeeds(w1, Invite(sa, f, b.username)) && Succeeds(w2, Accept(sb, a.username, PointerOf(w1), g))
    ensures Reachable(w3)
    ensures |w3.sessions| == |w.sessions| && SameUser(w3.sessions[sa], a) && SameUser(w3.sessions[sb], b)
    ensures forall k | 0 <= k < |w.sessions| && k != sa && k != sb :: w3.sessions[k] == w.sessions[k]
    ensures Gave(w3.led, w3.sessions[sa], f, w3.sessions[sb], g, i) && HasBytes(w3.led, i, content)
    ensures w3.led.recs[AccessUUID(b.username, g)].children == map[]
  {
    i := w.led.next + 1;
    CollidesWithSelf(a.username, f);
    StoreGives(w, sa, f, content, w1);
    StoredFacts(w.led, a, f, content, w1.led);
    SameHolder2(w1.led, a, w1.sessions[sa], f, i);
    GiveWorks(w1, sa, f, sb, g, i, w1.sessions[sa], w1.sessions[sb], w2, w3);
    SameGave(w3.led, w1.sessions[sa], w3.sessions[sa], f, w1.sessions[sb], w3.sessions[sb], g, i);
  }

  // ---------- stories ----------

  /** User `a` stores a file and invites `b`, who accepts the returned pointer. */
  datatype Gift = Gift(start: World, sa: nat, f: string, content: seq<byte>, sb: nat, g: string) {

    predicate LoggedIn() {
      sa < |start.sessions| && sb < |start.sessions|
    }

    function A(): UserData
      requires LoggedIn()
    {
      start.sessions[sa]
    }

    function B(): UserData
      requires LoggedIn()
    {
      start.sessions[sb]
    }

    /** Any reachable world, and names that do not collide. */
    ghost predicate Possible() {
      Reachable(start) && LoggedIn() && Distinct2(A().username, f, B().username, g)
    }

    ghost function Stored(): World {
      Step(start, Store(sa, f, content))
    }

    ghost function Invited(): World
      requires LoggedIn()
    {
      Step(Stored(), Invite(sa, f, B().username))
    }

    ghost function Given(): World
      requires LoggedIn()
    {
      Step(Invited(), Accept(sb, A().username, PointerOf(Stored()), g))
    }
  }

  /** Then `b` invites `c`, who accepts. */
  datatype Relay = Relay(gift: Gift, sc: nat, h: string) {

    predicate LoggedIn() {
      gift.LoggedIn() && sc < |gift.start.sessions|
    }

    function C(): UserData
      requires LoggedIn()
    {
      gift.start.sessions[sc]
    }

    ghost predicate Possible() {
      && gift.Possible() && LoggedIn()
      && Distinct3(gift.A().username, gift.f, gift.B().username, gift.g, C().username, h)
    }

    ghost function Invited(): World
      requires LoggedIn()
    {
      Step(gift.Given(), Invite(gift.sb, gift.g, C().username))
    }

    ghost function Given(): World
      requires LoggedIn()
    {
      Step(Invited(), Accept(sc, gift.B().username, PointerOf(gift.Given()), h))
    }
  }

  /** What the gift leaves: `b` holds the file as a direct child of `a`. */
  lemma GiftGives(t: Gift) returns (i: nat)
    requires t.Possible()
    ensures Succeeds(t.Stored(), Invite(t.sa, t.f, t.B().username))
    ensures Succeeds(t.Invited(), Accept(t.sb, t.A().username, PointerOf(t.Stored()), t.g))
    ensures Reachable(t.Given()) && |t.Given().sessions| == |t.start.sessions|
    ensures SameUser(t.Given().sessions[t.sa], t.A()) && SameUser(t.Given().sessions[t.sb], t.B())
    ensures forall k | 0 <= k < |t.start.sessions| && k != t.sa && k != t.sb ::
              t.Given().sessions[k] == t.start.sessions[k]
    ensures Gave(t.Given().led, t.Given().sessions[t.sa], t.f, t.Given().sessions[t.sb], t.g, i)
    ensures HasBytes(t.Given().led, i, t.content)
  {
    i := StoredAndGiven(t.start, t.sa, t.sb, t.f, t.g, t.content, t.A(), t.B(), t.Stored(), t.Invited(), t.Given());
  }

  /**
   In every reachable world: `a` stores a file and shares it with `b`, and `b` passes it on to `c`.  All of
   it succeeds, and `c` can load the file.  Then `a` revokes anybody but `b`: `b` keeps the file, `c` loses it.
   */
  lemma SubShareeLoses(t: Relay, d: string)
    requires t.Possible() && d != t.gift.B().username
    ensures Succeeds(t.gift.Stored(), Invite(t.gift.sa, t.gift.f, t.gift.B().username))
    ensures Succeeds(t.gift.Invited(), Accept(t.gift.sb, t.gift.A().username, PointerOf(t.gift.Stored()), t.gift.g))
    ensures Succeeds(t.gift.Given(), Invite(t.gift.sb, t.gift.g, t.C().username))
    ensures Succeeds(t.Invited(), Accept(t.sc, t.gift.B().username, PointerOf(t.gift.Given()), t.h))
    ensures View(t.Given().st, t.C(), t.h) == Some(t.gift.content)
    ensures Succeeds(t.Given(), Revoke(t.gift.sa, t.gift.f, d))
    ensures var revoked := Step(t.Given(), Revoke(t.gift.sa, t.gift.f, d));
            View(revoked.st, t.gift.B(), t.gift.g) == Some(t.gift.content) && View(revoked.st, t.C(), t.h) == None
  {
    var i := GiftGives(t.gift);
    RelayLoses(t.gift.Given(), t.gift.sa, t.gift.f, t.gift.sb, t.gift.g, t.sc, t.h, i, t.gift.content, d,
               t.gift.Given().sessions[t.gift.sa], t.gift.Given().sessions[t.gift.sb], t.C(), t.Invited(), t.Given(),
               Step(t.Given(), Revoke(t.gift.sa, t.gift.f, d)));
    ViewSame(Step(t.Given(), Revoke(t.gift.sa, t.gift.f, d)).st, t.gift.Given().sessions[t.gift.sb], t.gift.B(),
             t.gift.g);
  }

  lemma RelayLoses(w3: World, sa: nat, f: string, sb: nat, g: string, sc: nat, h: string, i: nat, content: seq<byte>,
                   d: string, a3: UserData, b3: UserData, c: UserData, w4: World, w5: World, w6: World)
    requires Reachable(w3) && sa < |w3.sessions| && sb < |w3.sessions| && sc < |w3.sessions|
    requires a3 == w3.sessions[sa] && b3 == w3.sessions[sb] && c == w3.sessions[sc] && sa != sb && sa != sc
    requires d != b3.username
    requires Distinct3(a3.username, f, b3.username, g, c.username, h)
    requires Gave(w3.led, a3, f, b3, g, i) && HasBytes(w3.led, i, content)
    requires w4 == Step(w3, Invite(sb, g, c.username)) && w5 == Step(w4, Accept(sc, b3.username, PointerOf(w3), h))
    requires w6 == Step(w5, Revoke(sa, f, d))
    ensures Succeeds(w3, Invite(sb, g, c.username)) && Succeeds(w4, Accept(sc, b3.username, PointerOf(w3), h))
    ensures View(w5.st, c, h) == Some(content) && Succeeds(w5, Revoke(sa, f, d))
    ensures View(w6.st, b3, g) == Some(content) && View(w6.st, c, h) == None
  {
    PassOnWorks(w3, a3, f, sb, g, sc, h, i, b3, c, w4, w5);
    ViewOfHolder(w5, c, h, i);
    OwnerRevokesShared(w5, sa, f, b3, g, c, h, i, d, content, a3, w6);
  }

  /** The twin: when `b` revokes anybody instead, the storer itself loses the file. */
  lemma StorerLoses(t: Gift, d: string)
    requires t.Possible()
    ensures View(t.Given().st, t.A(), t.f) == Some(t.content)
    ensures Succeeds(t.Given(), Revoke(t.sb, t.g, d))
    ensures View(Step(t.Given(), Revoke(t.sb, t.g, d)).st, t.A(), t.f) == None
  {
    var w3, w4 := t.Given(), Step(t.Given(), Revoke(t.sb, t.g, d));
    var i := StoredAndGiven(t.start, t.sa, t.sb, t.f, t.g, t.content, t.A(), t.B(), t.Stored(), t.Invited(), w3);
    ViewOfHolder(w3, w3.sessions[t.sa], t.f, i);
    ViewSame(w3.st, w3.sessions[t.sa], t.A(), t.f);
    RevokedView(w3, t.sb, t.g, d, w3.sessions[t.sa], t.f, i, t.content, w4);
    ViewSame(w4.st, w3.sessions[t.sa], t.A(), t.f);
  }

  // ---------- inviting twice ----------

  /** After a second invitation of the same name the first mailbox is no child of the record any more. */
  lemma ReinvitedIsNotKept(led: Ledger, ua: UserData, f: string, ub: UserData, g: string, i: nat, led1: Ledger,
                           d: string)
    requires Below(led) && ChildrenUnique(Alpha(led)) && Gave(led, ua, f, ub, g, i) && ub.username in led.accounts
    requires led1 == InviteLedger(led, ua, f, ub.username)
    ensures HoldsFile(led1, ua, f, i) && HoldsFile(led1, ub, g, i) && led1.files == led.files
    ensures !Kept(led1.recs[AccessUUID(ua.username, f)], d, led1.recs[AccessUUID(ub.username, g)].mailbox)
  {
    var sA, sB := AccessUUID(ua.username, f), AccessUUID(ub.username, g);
    var m := led.recs[sB].mailbox;
    InvitedInvitation(led, ua, f, ub.username, led1, sA, led.recs[sA].mailbox);
    InviteKeepsHolder(led, ua, f, ub.username, ua, f, i);
    InviteKeepsHolder(led, ua, f, ub.username, ub, g, i);
    forall c | c in led1.recs[sA].children
      ensures led1.recs[sA].children[c] != m
    {
      assert Alpha(led).recs == led.recs;
    }
  }

  lemma SecondInvitation(w3: World, sa: nat, f: string, g: string, i: nat, content: seq<byte>, d: string, a3: UserData,
                         b3: UserData, w4: World, w5: World)
    requires Reachable(w3) && sa < |w3.sessions| && a3 == w3.sessions[sa] && Distinct2(a3.username, f, b3.username, g)
    requires Gave(w3.led, a3, f, b3, g, i) && HasBytes(w3.led, i, content) && b3.username in w3.led.accounts
    requires w4 == Step(w3, Invite(sa, f, b3.username)) && w5 == Step(w4, Revoke(sa, f, d))
    ensures Succeeds(w3, Invite(sa, f, b3.username)) && View(w4.st, b3, g) == Some(content)
    ensures Succeeds(w4, Revoke(sa, f, d)) && View(w5.st, b3, g) == None && View(w5.st, a3, f) == Some(content)
  {
    ReachableIsSound(w3);
    InvBelow(w3);
    InviteGives(w3, sa, f, b3.username, w4);
    ReinvitedIsNotKept(w3.led, a3, f, b3, g, i, w4.led, d);
    ViewOfHolder(w4, b3, g, i);
    SameHolder2(w4.led, a3, w4.sessions[sa], f, i);
    RevokedView(w4, sa, f, d, b3, g, i, content, w5);
    RevokerKeeps(w4, sa, f, d, i, content, w5);
    ViewSame(w5.st, w4.sessions[sa], a3, f);
  }

  lemma RevokerKeeps(w: World, sa: nat, f: string, d: string, i: nat, content: seq<byte>, w': World)
    requires Reachable(w) && sa < |w.sessions| && HoldsFile(w.led, w.sessions[sa], f, i) && HasBytes(w.led, i, content)
    requires w' == Step(w, Revoke(sa, f, d))
    requires AccessUUID(w.sessions[sa].username, f) != UserUUID(w.sessions[sa].username)
    ensures View(w'.st, w.sessions[sa], f) == Some(content)
  {
    var op, user := Revoke(sa, f, d), w.sessions[sa];
    ReachableIsSound(w);
    RevokeInv(w, op);
    CallStep(w, op);
    var s := AccessUUID(user.username, f);
    RevokerHolds(w.led, w'.led, user, f, d, i, s, w.led.recs[s]);
    RevokeShape(w.led, user, f, d, w'.led, i, s, w.led.recs[s]);
    ViewAgrees(w'.led, w'.st, user, f);
  }

  /**
   Inviting twice: `a` stores and invites `b`, who accepts; `a` invites `b` again.  Now `b` still loads the file.
   Then `a` revokes anybody, and `b`, whom nobody revoked, loses it; `a` keeps it.
   */
  lemma ReinvitedLoses(t: Gift, d: string)
    requires t.Possible()
    ensures Succeeds(t.Given(), Invite(t.sa, t.f, t.B().username))
    ensures var again := Step(t.Given(), Invite(t.sa, t.f, t.B().username));
            var revoked := Step(again, Revoke(t.sa, t.f, d));
            && View(again.st, t.B(), t.g) == Some(t.content) && Succeeds(again, Revoke(t.sa, t.f, d))
            && View(revoked.st, t.B(), t.g) == None && View(revoked.st, t.A(), t.f) == Some(t.content)
  {
    var i := GiftGives(t);
    var w3, w4 := t.Given(), Step(t.Given(), Invite(t.sa, t.f, t.B().username));
    var w5, a3, b3 := Step(w4, Revoke(t.sa, t.f, d)), w3.sessions[t.sa], w3.sessions[t.sb];
    SessionRegistered(w3, t.sb);
    SecondInvitation(w3, t.sa, t.f, t.g, i, t.content, d, a3, b3, w4, w5);
    ViewSame(w4.st, b3, t.B(), t.g);
    ViewSame(w5.st, b3, t.B(), t.g);
    ViewSame(w5.st, a3, t.A(), t.f);
  }

  // ---------- a world to begin with ----------

  lemma NamesApart()
    ensures Distinct3("alice", "f", "bob", "g", "carol", "h")
  {
    var strings := ["alicef", "bobg", "carolh", "aliceuserStruct", "bobuserStruct", "caroluserStruct"];
    assert "alice" + "f" == strings[0] && "bob" + "g" == strings[1] && "carol" + "h" == strings[2];
    assert "alice" + "userStruct" == strings[3] && "bob" + "userStruct" == strings[4]
           && "carol" + "userStruct" == strings[5];
    assert |strings[0]| == 6 && |strings[1]| == 4 && |strings[2]| == 6 && strings[0][0] == 'a' && strings[2][0] == 'c';
  }

  lemma Joined(w: World, username: string, password: string, w': World)
    requires UserUUID(username) !in w.st.store && w' == Step(w, Register(username, password))
    ensures |w'.sessions| == |w.sessions| + 1 && w'.sessions[..|w.sessions|] == w.sessions
    ensures w'.sessions[|w.sessions|].username == username
    ensures w'.st.store.Keys == w.st.store.Keys + {UserUUID(username)}
  {
  }

  lemma AllJoined(a: string, b: string, c: string, p: string, q: string, r: string, w: World, w1: World, w2: World,
                  w3: World)
    requires a != b && a != c && b != c && w.st.store == map[] && w.sessions == []
    requires w1 == Step(w, Register(a, p)) && w2 == Step(w1, Register(b, q)) && w3 == Step(w2, Register(c, r))
    ensures |w3.sessions| == 3
    ensures w3.sessions[0].username == a && w3.sessions[1].username == b && w3.sessions[2].username == c
  {
    HomesApart(a, b);
    HomesApart(a, c);
    HomesApart(b, c);
    Joined(w, a, p, w1);
    Joined(w1, b, q, w2);
    Joined(w2, c, r, w3);
    assert w2.sessions[0] == w2.sessions[..1][0] && w3.sessions[0] == w3.sessions[..2][0]
           && w3.sessions[1] == w3.sessions[..2][1];
  }

  lemma {:induction false} RunThree(w: World, o1: Op, o2: Op, o3: Op)
    ensures Run(w, [o1, o2, o3]) == Step(Step(Step(w, o1), o2), o3)
  {
    var ops := [o1, o2, o3];
    assert ops[1..] == [o2, o3] && [o2, o3][1..] == [o3] && [o3][1..] == [];
    assert Run(w, ops) == Run(Step(w, o1), [o2, o3]);
    assert Run(Step(w, o1), [o2, o3]) == Run(Step(Step(w, o1), o2), [o3]);
    assert Run(Step(Step(w, o1), o2), [o3]) == Run(Step(Step(Step(w, o1), o2), o3), []);
  }

  /** There is a world to begin with: three users register, and their names and file names do not collide. */
  lemma ThreeJoin(p: string, q: string, r: string, w: World)
    requires w == Run(Start(), [Register("alice", p), Register("bob", q), Register("carol", r)])
    ensures Reachable(w) && |w.sessions| == 3
    ensures Distinct3(w.sessions[0].username, "f", w.sessions[1].username, "g", w.sessions[2].username, "h")
  {
    RunThree(Start(), Register("alice", p), Register("bob", q), Register("carol", r));
    NamesApart();
    var w1 := Step(Start(), Register("alice", p));
    AllJoined("alice", "bob", "carol", p, q, r, Start(), w1, Step(w1, Register("bob", q)), w);
  }
}
