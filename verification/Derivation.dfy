/**
 The keys of the envelopes, and what a symbolic payload of module Records is in bytes.

 Ignored errors are kept: a derivation that fails leaves an empty slice behind, and cutting an empty
 slice to 16 bytes panics.
 */
module Derivation {
  import opened Wrappers
  import opened Blocks
  import opened Records
  import opened Envelope

  datatype KeyPair = KeyPair(enc: seq<byte>, mac: seq<byte>)

  /** Where key bytes and texts come from: random draws, Argon2 over a password, and the string encoding. */
  datatype Material = Material(random: (nat, nat) -> seq<byte>, argon: (Master, nat) -> seq<byte>,
                               text: string -> seq<byte>)

  /** RandomBytes and Argon2 return as many bytes as they are asked for. */
  ghost predicate AsLongAsAsked(mat: Material) {
    (forall n, size :: |mat.random(n, size)| == size) && forall m, size :: |mat.argon(m, size)| == size
  }

  function HashKDF(cry: Crypto, key: seq<byte>, msg: seq<byte>): Result<seq<byte>, Fault> {
    if |key| != KEY_SIZE then Failure(BadKeyLength) else Success(cry.hmac(key, msg))
  }

  /** The result when the error is ignored. */
  function OrNil(r: Result<seq<byte>, Fault>): seq<byte> {
    if r.Success? then r.value else []
  }

  /** `key[:16]`. */
  function Cut(key: seq<byte>): Result<seq<byte>, Fault> {
    if |key| < KEY_SIZE then Failure(Panic) else Success(key[..KEY_SIZE])
  }

  function GetUserKeys(cry: Crypto, mat: Material, masterKey: seq<byte>): Result<KeyPair, Fault> {
    var enc :- HashKDF(cry, masterKey, mat.text("enc"));
    var mac :- HashKDF(cry, masterKey, mat.text("mac"));
    Success(KeyPair(enc, mac))
  }

  function GetPersonalKey(cry: Crypto, mat: Material, masterKey: seq<byte>,
                          filename: seq<byte>): Result<KeyPair, Fault>
  {
    var baseKey :- Cut(OrNil(HashKDF(cry, masterKey, cry.hash(filename))));
    Success(KeyPair(OrNil(HashKDF(cry, baseKey, mat.text("personal_enc"))),
                    OrNil(HashKDF(cry, baseKey, mat.text("personal_mac")))))
  }

  function GetFileKeys(cry: Crypto, mat: Material, fileKey: seq<byte>): Result<KeyPair, Fault> {
    var enc :- Cut(OrNil(HashKDF(cry, fileKey, mat.text("file_enc"))));
    var mac :- Cut(OrNil(HashKDF(cry, fileKey, mat.text("file_mac"))));
    Success(KeyPair(enc, mac))
  }

  function GetMailKeys(cry: Crypto, mat: Material, mailboxKey: seq<byte>): KeyPair {
    KeyPair(OrNil(HashKDF(cry, mailboxKey, mat.text("mailbox_enc"))),
            OrNil(HashKDF(cry, mailboxKey, mat.text("mailbox_mac"))))
  }

  /**
   What each derivation does with a key of the wrong length: the user keys report it, the personal and file
   keys panic, and the mailbox keys silently become one constant pair, the same for every such key.
   */
  lemma WrongLengthKeys(cry: Crypto, mat: Material, key: seq<byte>, filename: seq<byte>)
    requires Sized(cry)
    ensures GetUserKeys(cry, mat, key) == Failure(BadKeyLength) <==> |key| != KEY_SIZE
    ensures GetPersonalKey(cry, mat, key, filename) == Failure(Panic) <==> |key| != KEY_SIZE
    ensures GetFileKeys(cry, mat, key) == Failure(Panic) <==> |key| != KEY_SIZE
    ensures GetMailKeys(cry, mat, key) == KeyPair([], []) <==> |key| != KEY_SIZE
  {
    if |key| == KEY_SIZE {
      assert |cry.hmac(key, mat.text("mailbox_enc"))| == MAC_SIZE;
    }
  }

  /** The byte keys that a symbolic key stands for: every key is drawn, or derived from a password, with 16 bytes. */
  function KeysOf(cry: Crypto, mat: Material, key: Key): Result<KeyPair, Fault> {
    match key
    case UserKey(m) => GetUserKeys(cry, mat, mat.argon(m, KEY_SIZE))
    case PersonalKey(m, filename) => GetPersonalKey(cry, mat, mat.argon(m, KEY_SIZE), mat.text(filename))
    case FileKey(n) => GetFileKeys(cry, mat, mat.random(n, KEY_SIZE))
    case MailKey(n) => Success(GetMailKeys(cry, mat, mat.random(n, KEY_SIZE)))
  }

  /**
   The lengths along the chains: from the 16 bytes that are asked for, through the 64 bytes of each HMAC and
   the cuts back to 16, every key derives without an error, an empty slice or a panic.
   */
  lemma KeysDerive(cry: Crypto, mat: Material, key: Key)
    requires Sized(cry) && AsLongAsAsked(mat)
    ensures KeysOf(cry, mat, key).Success?
    ensures KeyBytes(cry, mat, key) == KeysOf(cry, mat, key).value
    ensures |KeyBytes(cry, mat, key).enc| == |KeyBytes(cry, mat, key).mac| == if key.FileKey? then KEY_SIZE
            else MAC_SIZE
  {
  }

  /** The same, for use where the derivation is known to succeed. */
  function KeyBytes(cry: Crypto, mat: Material, key: Key): KeyPair {
    var keys := KeysOf(cry, mat, key);
    if keys.Success? then keys.value else KeyPair([], [])
  }

  // ---------- what the keys are, and that they are different ----------

  /** The byte keys in full: every hash, every HMAC, every label and every cut. */
  lemma KeysAre(cry: Crypto, mat: Material, key: Key)
    requires Sized(cry) && AsLongAsAsked(mat)
    ensures match key
            case UserKey(m) =>
              var master := mat.argon(m, 16);
              KeyBytes(cry, mat, key)
              == KeyPair(cry.hmac(master, mat.text("enc")), cry.hmac(master, mat.text("mac")))
            case PersonalKey(m, filename) =>
              var base := cry.hmac(mat.argon(m, 16), cry.hash(mat.text(filename)))[..16];
              KeyBytes(cry, mat, key)
              == KeyPair(cry.hmac(base, mat.text("personal_enc")), cry.hmac(base, mat.text("personal_mac")))
            case FileKey(n) =>
              var drawn := mat.random(n, 16);
              KeyBytes(cry, mat, key)
              == KeyPair(cry.hmac(drawn, mat.text("file_enc"))[..16], cry.hmac(drawn, mat.text("file_mac"))[..16])
            case MailKey(n) =>
              var drawn := mat.random(n, 16);
              KeyBytes(cry, mat, key)
              == KeyPair(cry.hmac(drawn, mat.text("mailbox_enc")), cry.hmac(drawn, mat.text("mailbox_mac")))
  {
  }

  const LABELS: set<string> :=
    {"enc", "mac", "personal_enc", "personal_mac", "file_enc", "file_mac", "mailbox_enc", "mailbox_mac"}

  /** Where the first 16 bytes of a derivation come from. */
  datatype Source = FromPassword(master: Master) | FromRandom(n: nat)

  function SourceOf(key: Key): Source {
    match key
    case UserKey(m) => FromPassword(m)
    case PersonalKey(m, _) => FromPassword(m)
    case FileKey(n) => FromRandom(n)
    case MailKey(n) => FromRandom(n)
  }

  function RootBytes(mat: Material, source: Source): seq<byte> {
    match source
    case FromPassword(m) => mat.argon(m, 16)
    case FromRandom(n) => mat.random(n, 16)
  }

  datatype Evaluation = Evaluation(key: seq<byte>, msg: seq<byte>)

  /** The first 16 bytes of an HMAC, which is what the weakest of its uses keeps. */
  function Front(cry: Crypto, e: Evaluation): seq<byte>
    requires Sized(cry)
  {
    cry.hmac(e.key, e.msg)[..16]
  }

  function Salting(cry: Crypto, mat: Material, m: Master, filename: string): Evaluation {
    Evaluation(mat.argon(m, 16), cry.hash(mat.text(filename)))
  }

  /** The evaluations a key pair is made with: for the encryption key, for the MAC key, and for the key of both. */
  function EvaluationsFor(cry: Crypto, mat: Material, key: Key): seq<Evaluation>
    requires Sized(cry)
  {
    match key
    case UserKey(m) => [Evaluation(mat.argon(m, 16), mat.text("enc")), Evaluation(mat.argon(m, 16), mat.text("mac"))]
    case PersonalKey(m, filename) =>
      var salting := Salting(cry, mat, m, filename);
      var base := Front(cry, salting);
      [Evaluation(base, mat.text("personal_enc")), Evaluation(base, mat.text("personal_mac")), salting]
    case FileKey(n) =>
      [Evaluation(mat.random(n, 16), mat.text("file_enc")), Evaluation(mat.random(n, 16), mat.text("file_mac"))]
    case MailKey(n) =>
      [Evaluation(mat.random(n, 16), mat.text("mailbox_enc")),
       Evaluation(mat.random(n, 16), mat.text("mailbox_mac"))]
  }

  /** The primitives do not collide on what the derivations of these keys ask of them. */
  ghost predicate CollisionFree(cry: Crypto, mat: Material, used: iset<Key>)
    requires Sized(cry)
  {
    && (forall k, k', e, e' | k in used && k' in used && e in EvaluationsFor(cry, mat, k)
                              && e' in EvaluationsFor(cry, mat, k') && Front(cry, e) == Front(cry, e') :: e == e')
    && (forall k, k' | k in used && k' in used && RootBytes(mat, SourceOf(k)) == RootBytes(mat, SourceOf(k')) ::
          SourceOf(k) == SourceOf(k'))
    && (forall k, k' | k in used && k' in used && k.PersonalKey? && k'.PersonalKey?
                       && cry.hash(mat.text(k.filename)) == cry.hash(mat.text(k'.filename)) ::
          k.filename == k'.filename)
    && (forall s, s' | s in LABELS && s' in LABELS && mat.text(s) == mat.text(s') :: s == s')
  }

  /** Both evaluations of the labels, as they appear in the derived keys. */
  lemma DerivedFronts(cry: Crypto, mat: Material, key: Key)
    requires Sized(cry) && AsLongAsAsked(mat)
    ensures |EvaluationsFor(cry, mat, key)| >= 2
    ensures var pair, es := KeyBytes(cry, mat, key), EvaluationsFor(cry, mat, key);
            && |pair.enc| >= 16 && pair.enc[..16] == Front(cry, es[0])
            && |pair.mac| >= 16 && pair.mac[..16] == Front(cry, es[1])
  {
    KeysDerive(cry, mat, key);
    KeysAre(cry, mat, key);
  }

  lemma SameFront(cry: Crypto, mat: Material, used: iset<Key>, k: Key, k': Key, i: nat, j: nat)
    requires Sized(cry) && CollisionFree(cry, mat, used) && k in used && k' in used
    requires i < |EvaluationsFor(cry, mat, k)| && j < |EvaluationsFor(cry, mat, k')|
    requires Front(cry, EvaluationsFor(cry, mat, k)[i]) == Front(cry, EvaluationsFor(cry, mat, k')[j])
    ensures EvaluationsFor(cry, mat, k)[i] == EvaluationsFor(cry, mat, k')[j]
  {
  }

  function LabelOf(key: Key, mac: bool): (name: string)
    ensures name in LABELS
  {
    match key
    case UserKey(_) => if mac then "mac" else "enc"
    case PersonalKey(_, _) => if mac then "personal_mac" else "personal_enc"
    case FileKey(_) => if mac then "file_mac" else "file_enc"
    case MailKey(_) => if mac then "mailbox_mac" else "mailbox_enc"
  }

  lemma LabelsApart(k: Key, mac: bool, k': Key, mac': bool)
    requires LabelOf(k, mac) == LabelOf(k', mac')
    ensures mac == mac'
    ensures k.UserKey? == k'.UserKey? && k.PersonalKey? == k'.PersonalKey? && k.FileKey? == k'.FileKey?
  {
    if k.UserKey? {
      assert |LabelOf(k, mac)| == 3;
    } else if k.PersonalKey? {
      assert |LabelOf(k, mac)| == 12;
    } else if k.FileKey? {
      assert |LabelOf(k, mac)| == 8;
    } else {
      assert |LabelOf(k, mac)| == 11;
    }
    assert LabelOf(k, mac)[|LabelOf(k, mac)| - 2] == if mac then 'a' else 'n';
    assert LabelOf(k', mac')[|LabelOf(k', mac')| - 2] == if mac' then 'a' else 'n';
  }

  lemma MessageIsLabel(cry: Crypto, mat: Material, k: Key, mac: bool)
    requires Sized(cry)
    ensures |EvaluationsFor(cry, mat, k)| >= 2
    ensures EvaluationsFor(cry, mat, k)[if mac then 1 else 0].msg == mat.text(LabelOf(k, mac))
  {
  }

  lemma SameSource(cry: Crypto, mat: Material, used: iset<Key>, k: Key, k': Key)
    requires Sized(cry) && CollisionFree(cry, mat, used) && k in used && k' in used
    requires RootBytes(mat, SourceOf(k)) == RootBytes(mat, SourceOf(k'))
    ensures SourceOf(k) == SourceOf(k')
  {
  }

  /** Equal keys of the last evaluations mean equal keys, when the labels were the same. */
  lemma SameBase(cry: Crypto, mat: Material, used: iset<Key>, k: Key, k': Key, i: nat)
    requires Sized(cry) && CollisionFree(cry, mat, used) && k in used && k' in used && i < 2
    requires k.UserKey? == k'.UserKey? && k.PersonalKey? == k'.PersonalKey? && k.FileKey? == k'.FileKey?
    requires |EvaluationsFor(cry, mat, k)| >= 2 && |EvaluationsFor(cry, mat, k')| >= 2
    requires EvaluationsFor(cry, mat, k)[i].key == EvaluationsFor(cry, mat, k')[i].key
    ensures k == k'
  {
    if k.PersonalKey? {
      SameFront(cry, mat, used, k, k', 2, 2);
      assert RootBytes(mat, SourceOf(k)) == Salting(cry, mat, k.master, k.filename).key;
      assert RootBytes(mat, SourceOf(k')) == Salting(cry, mat, k'.master, k'.filename).key;
    }
    SameSource(cry, mat, used, k, k');
  }

  lemma SameLast(cry: Crypto, mat: Material, used: iset<Key>, k: Key, mac: bool, k': Key, mac': bool)
    requires Sized(cry) && CollisionFree(cry, mat, used) && k in used && k' in used
    requires |EvaluationsFor(cry, mat, k)| >= 2 && |EvaluationsFor(cry, mat, k')| >= 2
    requires Front(cry, EvaluationsFor(cry, mat, k)[if mac then 1 else 0])
          == Front(cry, EvaluationsFor(cry, mat, k')[if mac' then 1 else 0])
    ensures k == k' && mac == mac'
  {
    var i, j := if mac then 1 else 0, if mac' then 1 else 0;
    SameFront(cry, mat, used, k, k', i, j);
    MessageIsLabel(cry, mat, k, mac);
    MessageIsLabel(cry, mat, k', mac');
    LabelsApart(k, mac, k', mac');
    SameBase(cry, mat, used, k, k', i);
  }

  /**
   Different keys have different bytes.  If the primitives do not collide on what they are asked, no two keys in
   use share their encryption key or their MAC key, even in the first 16 bytes, and no encryption key is a MAC
   key, of the same pair or of another.
   */
  lemma KeysApart(cry: Crypto, mat: Material, used: iset<Key>, k: Key, k': Key)
    requires Sized(cry) && AsLongAsAsked(mat) && CollisionFree(cry, mat, used) && k in used && k' in used
    ensures var pair, pair' := KeyBytes(cry, mat, k), KeyBytes(cry, mat, k');
            && |pair.enc| >= 16 && |pair.mac| >= 16 && |pair'.enc| >= 16 && |pair'.mac| >= 16
            && (pair.enc[..16] == pair'.enc[..16] ==> k == k')
            && (pair.mac[..16] == pair'.mac[..16] ==> k == k')
            && pair.enc[..16] != pair'.mac[..16]
  {
    DerivedFronts(cry, mat, k);
    DerivedFronts(cry, mat, k');
    var pair, pair' := KeyBytes(cry, mat, k), KeyBytes(cry, mat, k');
    if pair.enc[..16] == pair'.enc[..16] {
      SameLast(cry, mat, used, k, false, k', false);
    }
    if pair.mac[..16] == pair'.mac[..16] {
      SameLast(cry, mat, used, k, true, k', true);
    }
    if pair.enc[..16] == pair'.mac[..16] {
      SameLast(cry, mat, used, k, false, k', true);
    }
  }

  // ---------- symbolic payloads in bytes ----------

  /** The encoding of records; what a reader expecting one kind of record makes of some bytes. */
  datatype Codec = Codec(encode: Record -> seq<byte>, decode: (Kind, seq<byte>) -> Option<Record>)

  /** A record is read back as the kind it is; a reader gets the kind it asks for, if anything. */
  ghost predicate Faithful(codec: Codec) {
    && (forall r: Record :: codec.decode(KindOf(r), codec.encode(r)) == Some(r))
    && forall kind, bytes :: codec.decode(kind, bytes).Some? ==> KindOf(codec.decode(kind, bytes).value) == kind
  }

  /** The tag at the end of `bytes` is not a valid one under this key. */
  ghost predicate NoValidTag(cry: Crypto, mat: Material, bytes: seq<byte>, key: Key)
    requires Sized(cry)
  {
    |bytes| >= MAC_SIZE ==>
      bytes[|bytes| - MAC_SIZE..] != Tag(cry, KeyBytes(cry, mat, key).mac, bytes[..|bytes| - MAC_SIZE])
  }

  /** `bytes` is what sealing `plain` under `lock` puts into the store. */
  ghost predicate IsSealed(cry: Crypto, mat: Material, codec: Codec, bytes: seq<byte>, lock: Key, plain: Record)
    requires Sized(cry)
  {
    var keys := KeyBytes(cry, mat, lock);
    exists iv :: |iv| == AES_BLOCK && bytes == Enveloped(cry, codec.encode(plain), keys.enc, keys.mac, iv)
  }

  /** The byte store holds the sealed payloads of the symbolic one. */
  ghost predicate StoredBytes(cry: Crypto, mat: Material, codec: Codec, disk: map<UUID, seq<byte>>, st: State)
    requires Sized(cry)
  {
    && disk.Keys == st.store.Keys
    && forall u | u in disk && st.store[u].Sealed? ::
         IsSealed(cry, mat, codec, disk[u], st.store[u].lock, st.store[u].plain)
  }

  /** The reading steps of every operation: fetch, derive the keys, verify and decrypt, decode. */
  method ReadRecord(cry: Crypto, mat: Material, codec: Codec, disk: map<UUID, seq<byte>>, u: UUID, key: Key, kind: Kind)
      returns (r: Result<Record, Error>)
    requires Sized(cry)
    ensures r == ByteOpen(cry, mat, codec, disk, u, key, kind)
  {
    if u !in disk {
      return Failure(Missing(kind));
    }
    var keys := KeyBytes(cry, mat, key);
    var plaintext := DecryptAndVerify(cry, disk[u], keys.enc, keys.mac);
    if plaintext.Failure? {
      return Failure(Unreadable(kind));
    }
    var decoded := codec.decode(kind, plaintext.value);
    r := if decoded.Some? then Success(decoded.value) else Failure(Unreadable(kind));
  }

  function ByteOpen(cry: Crypto, mat: Material, codec: Codec, disk: map<UUID, seq<byte>>, u: UUID, key: Key,
                    kind: Kind): Result<Record, Error>
    requires Sized(cry)
  {
    var keys := KeyBytes(cry, mat, key);
    if u !in disk then Failure(Missing(kind))
    else
      var plaintext := Unsealed(cry, disk[u], keys.enc, keys.mac);
      if plaintext.Failure? then Failure(Unreadable(kind))
      else
        var decoded := codec.decode(kind, plaintext.value);
        if decoded.Some? then Success(decoded.value) else Failure(Unreadable(kind))
  }

  /** An envelope opens under its own key to its record. */
  lemma SealedOpens(cry: Crypto, mat: Material, codec: Codec, bytes: seq<byte>, lock: Key, plain: Record)
    requires Sized(cry) && IsSealed(cry, mat, codec, bytes, lock, plain)
    ensures Unsealed(cry, bytes, KeyBytes(cry, mat, lock).enc, KeyBytes(cry, mat, lock).mac)
            == Success(codec.encode(plain))
  {
    var keys := KeyBytes(cry, mat, lock);
    var iv :| |iv| == AES_BLOCK && bytes == Enveloped(cry, codec.encode(plain), keys.enc, keys.mac, iv);
    RoundTrip(cry, codec.encode(plain), keys.enc, keys.mac, iv);
  }

  /**
   The bytes implement the symbols.  On a store of real envelopes, reading a record byte by byte gives the
   same record or the same error as opening the symbolic payload, provided that a key that does not fit the
   payload finds no valid tag on it, and that a key that fits is used to read the kind of record it sealed.
   */
  lemma BytesOpenAsSymbols(cry: Crypto, mat: Material, codec: Codec, disk: map<UUID, seq<byte>>, st: State, u: UUID,
                           key: Key, kind: Kind)
    requires Sized(cry) && Faithful(codec) && StoredBytes(cry, mat, codec, disk, st)
    requires u in st.store && !(st.store[u].Sealed? && st.store[u].lock == key) ==> NoValidTag(cry, mat, disk[u], key)
    requires u in st.store && st.store[u].Sealed? && st.store[u].lock == key ==> KindOf(st.store[u].plain) == kind
    ensures ByteOpen(cry, mat, codec, disk, u, key, kind) == st.Open(u, key, kind)
  {
    if u in st.store && st.store[u].Sealed? && st.store[u].lock == key {
      SealedOpens(cry, mat, codec, disk[u], key, st.store[u].plain);
    }
  }

  /** Writing an envelope is writing the symbolic payload. */
  lemma BytesStoreAsSymbols(cry: Crypto, mat: Material, codec: Codec, disk: map<UUID, seq<byte>>, st: State, u: UUID,
                            key: Key, plain: Record, iv: seq<byte>, keys: KeyPair)
    requires Sized(cry) && StoredBytes(cry, mat, codec, disk, st) && |iv| == AES_BLOCK
    requires keys == KeyBytes(cry, mat, key)
    ensures StoredBytes(cry, mat, codec, disk[u := Enveloped(cry, codec.encode(plain), keys.enc, keys.mac, iv)],
                        st.Put(u, Sealed(key, plain)))
  {
    var bytes := Enveloped(cry, codec.encode(plain), keys.enc, keys.mac, iv);
    assert IsSealed(cry, mat, codec, bytes, key, plain);
    forall v | v in disk && v != u
      ensures st.Put(u, Sealed(key, plain)).store[v] == st.store[v]
    {
    }
  }
}
