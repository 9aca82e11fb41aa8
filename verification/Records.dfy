/**
 The records kept in the untrusted key-value store, and the symbolic envelope around them.

 A sealed payload opens only under the key it was sealed with.  A key is named by how it is derived,
 so keys of different purposes are different; random UUIDs and random keys are numbers drawn from one
 supply.  A UUID computed from a hash is named by the string that was hashed: two (user, file) pairs
 whose concatenations agree therefore share one UUID, as they do in the program.
 */
module Records {
  import opened Wrappers
  import opened Blocks

  datatype UUID = Named(s: string) | Random(n: nat)

  /** The Argon2 key of a password salted with the user name. */
  datatype Master = Master(username: string, password: string)

  datatype Key =
    | UserKey(master: Master)
    | PersonalKey(master: Master, filename: string)
    | FileKey(n: nat)
    | MailKey(n: nat)

  datatype PublicKey = PKEPublic(n: nat) | DSPublic(n: nat)

  datatype UserData = UserData(username: string, pke: nat, ds: nat, master: Master, files: map<string, UUID>)
  datatype ChildInfo = ChildInfo(mailbox: UUID, key: nat)
  datatype Access = Access(mailbox: UUID, key: nat, children: map<string, ChildInfo>)
  datatype MailboxNode = MailboxNode(fileKey: nat, inode: UUID)
  datatype Inode = Inode(size: nat, blocks: seq<UUID>)
  datatype Invitation = Invitation(mailbox: UUID, key: nat)

  datatype Record =
    | UserRec(user: UserData)
    | AccessRec(access: Access)
    | MailboxRec(node: MailboxNode)
    | InodeRec(inode: Inode)
    | BlockRec(data: seq<byte>)

  /** Either an encrypt-then-MAC envelope, or an invitation encrypted to one user and signed by another. */
  datatype Payload =
    | Sealed(lock: Key, plain: Record)
    | Signed(to: nat, signer: nat, invitation: Invitation)

  datatype Kind = UserKind | AccessKind | MailboxKind | InodeKind | BlockKind | InvitationKind

  datatype Error =
    | Missing(kind: Kind)
    | Unreadable(kind: Kind)
    | UserExists
    | NilContent
    | NoRecipient
    | NoSender
    | WrongKeyType
    | BadSignature

  function KindOf(r: Record): Kind {
    match r
    case UserRec(_) => UserKind
    case AccessRec(_) => AccessKind
    case MailboxRec(_) => MailboxKind
    case InodeRec(_) => InodeKind
    case BlockRec(_) => BlockKind
  }

  /** The two entries a user has in the public key store. */
  datatype KeyName = EncName(username: string) | SigName(username: string)

  /** The entry's actual name in the key store. */
  function KeyText(k: KeyName): string {
    match k
    case EncName(u) => u + "_enc_pub"
    case SigName(u) => u + "_sig_pub"
  }

  function UserUUID(username: string): UUID { Named(username + "userStruct") }
  function AccessUUID(username: string, filename: string): UUID { Named(username + filename) }

  /**
   What the operations read and write: the store, everything the store was ever given, the public keys
   and the supply of fresh names.
   */
  datatype State = State(store: map<UUID, Payload>, log: set<Payload>, keys: map<KeyName, PublicKey>, next: nat) {

    function Put(u: UUID, p: Payload): State {
      this.(store := store[u := p], log := log + {p})
    }

    function Draw(k: nat): State {
      this.(next := next + k)
    }

    /**
     Fetch, verify and decode: the three failures of every read in the program.  A record of another kind
     under the right key is refused here, where the program's JSON decoder would often accept it with empty
     fields.  In a store that represents a ledger no read meets one (module ByteStore).
     */
    function Open(u: UUID, key: Key, kind: Kind): (r: Result<Record, Error>)
      ensures r.Success? <==> u in store && store[u].Sealed? && store[u].lock == key && KindOf(store[u].plain) == kind
      ensures r.Success? ==> store[u] == Sealed(key, r.value) && KindOf(r.value) == kind
      ensures r.Failure? ==> r.error == (if u in store then Unreadable(kind) else Missing(kind))
    {
      if u !in store then Failure(Missing(kind))
      else if store[u].Sealed? && store[u].lock == key && KindOf(store[u].plain) == kind then Success(store[u].plain)
      else Failure(Unreadable(kind))
    }
  }

  /** Different entries have different names, whatever the users are called. */
  lemma KeyTextInjective(j: KeyName, k: KeyName)
    requires KeyText(j) == KeyText(k)
    ensures j == k
  {
    assert KeyText(j)[..|KeyText(j)| - 8] == j.username;
    assert KeyText(k)[..|KeyText(k)| - 8] == k.username;
    assert KeyText(j)[|KeyText(j)| - 7] == if j.EncName? then 'e' else 's';
    assert KeyText(k)[|KeyText(k)| - 7] == if k.EncName? then 'e' else 's';
  }
}
