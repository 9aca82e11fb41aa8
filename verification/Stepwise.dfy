/**
 AppendToFile and LoadFile one storage operation at a time.

 A task is advanced by single reads and writes of the store, so that several tasks can be interleaved.
 Left alone, a task does exactly what the whole operation of module Protocol does, from any state.
 */
module Stepwise {
  import opened Wrappers
  import opened Blocks
  import opened Records
  import opened Protocol

  datatype Task =
    | LoadTask(user: UserData, filename: string)
    | AppendTask(user: UserData, filename: string, content: Option<seq<byte>>)

  /** What a task has read so far; `todo` is what its loop has still to write or to read. */
  datatype Phase =
    | Begin
    | HasAccess(access: Access)
    | HasNode(node: MailboxNode)
    | Writing(node: MailboxNode, base: Inode, todo: seq<seq<byte>>, ids: seq<UUID>)
    | Reading(key: nat, left: seq<UUID>, data: seq<byte>)
    | Finished(res: Result<seq<byte>, Error>)

  /** The next storage operation of a task. */
  function Advance(st: State, task: Task, phase: Phase): (State, Phase) {
    match phase
    case Begin =>
      if task.AppendTask? && task.content.None? then (st, Finished(Failure(NilContent)))
      else
        var access := OpenAccess(st, task.user, task.filename);
        (st, if access.Success? then HasAccess(access.value) else Finished(Failure(access.error)))
    case HasAccess(access) =>
      var node := OpenMailbox(st, access);
      (st, if node.Success? then HasNode(node.value) else Finished(Failure(node.error)))
    case HasNode(node) =>
      var inode := OpenInode(st, node);
      (st, if inode.Failure? then Finished(Failure(inode.error))
           else if task.LoadTask? then Reading(node.fileKey, inode.value.blocks, [])
           else if task.content.None? then Finished(Failure(NilContent))
           else Writing(node, inode.value, Chunks(task.content.value), []))
    case Writing(node, base, todo, ids) =>
      if todo != [] then
        (st.Draw(1).Put(Random(st.next), Sealed(FileKey(node.fileKey), BlockRec(todo[0]))),
         Writing(node, base, todo[1..], ids + [Random(st.next)]))
      else
        var size := base.size + if task.AppendTask? && task.content.Some? then |task.content.value| else 0;
        (st.Put(node.inode, Sealed(FileKey(node.fileKey), InodeRec(Inode(size, base.blocks + ids)))),
         Finished(Success([])))
    case Reading(key, left, data) =>
      if left == [] then (st, Finished(Success(data)))
      else
        var r := st.Open(left[0], FileKey(key), BlockKind);
        (st, if r.Success? then Reading(key, left[1..], data + r.value.data) else Finished(Failure(r.error)))
    case Finished(_) => (st, phase)
  }

  function Stage(phase: Phase): nat {
    match phase
    case Begin => 4
    case HasAccess(_) => 3
    case HasNode(_) => 2
    case Writing(_, _, _, _) => 1
    case Reading(_, _, _) => 1
    case Finished(_) => 0
  }

  function Left(phase: Phase): nat {
    match phase
    case Writing(_, _, todo, _) => |todo|
    case Reading(_, left, _) => |left|
    case _ => 0
  }

  /** A task that is left alone until it is finished. */
  function Alone(st: State, task: Task, phase: Phase): (State, Result<seq<byte>, Error>)
    decreases Stage(phase), Left(phase)
  {
    if phase.Finished? then (st, phase.res)
    else
      var (st', phase') := Advance(st, task, phase);
      Alone(st', task, phase')
  }

  lemma JoinData(a: seq<byte>, b: seq<byte>, c: seq<byte>)
    ensures (a + b) + c == a + (b + c)
  {
  }

  lemma {:induction false} ReadingAlone(st: State, task: Task, key: nat, left: seq<UUID>, data: seq<byte>)
    ensures Alone(st, task, Reading(key, left, data)).0 == st
    ensures LoadBlocks(st, left, key).Failure? ==>
              Alone(st, task, Reading(key, left, data)).1 == Failure(LoadBlocks(st, left, key).error)
    ensures LoadBlocks(st, left, key).Success? ==>
              Alone(st, task, Reading(key, left, data)).1 == Success(data + LoadBlocks(st, left, key).value)
    decreases |left|
  {
    if left == [] {
      assert data + [] == data;
    } else {
      var r := st.Open(left[0], FileKey(key), BlockKind);
      if r.Success? {
        ReadingAlone(st, task, key, left[1..], data + r.value.data);
        var rest := LoadBlocks(st, left[1..], key);
        if rest.Success? {
          JoinData(data, r.value.data, rest.value);
        }
      }
    }
  }

  lemma JoinIds(ids: seq<UUID>, first: nat, count: nat)
    requires count > 0
    ensures (ids + [Random(first)]) + FreshIds(first + 1, count - 1) == ids + FreshIds(first, count)
  {
  }

  lemma {:induction false} WritingAlone(st: State, task: Task, content: seq<byte>, node: MailboxNode, base: Inode,
                                        todo: seq<seq<byte>>, ids: seq<UUID>)
    requires task.AppendTask? && task.content == Some(content)
    ensures Alone(st, task, Writing(node, base, todo, ids))
         == (PutBlocks(st, todo, node.fileKey)
             .Put(node.inode, Sealed(FileKey(node.fileKey),
                                     InodeRec(Inode(base.size + |content|, base.blocks
                                                    + (ids + FreshIds(st.next, |todo|)))))),
             Success([]))
    decreases |todo|
  {
    if todo == [] {
      assert ids + FreshIds(st.next, 0) == ids;
    } else {
      var st1 := st.Draw(1).Put(Random(st.next), Sealed(FileKey(node.fileKey), BlockRec(todo[0])));
      JoinIds(ids, st.next, |todo|);
      WritingAlone(st1, task, content, node, base, todo[1..], ids + [Random(st.next)]);
    }
  }

  /** The three reads before the loop, one after the other. */
  lemma AloneReads(st: State, task: Task, access: Access, node: MailboxNode)
    requires task.AppendTask? ==> task.content.Some?
    requires OpenAccess(st, task.user, task.filename) == Success(access) && OpenMailbox(st, access) == Success(node)
    ensures Alone(st, task, Begin) == Alone(st, task, HasNode(node))
  {
    assert Advance(st, task, Begin) == (st, HasAccess(access));
    assert Advance(st, task, HasAccess(access)) == (st, HasNode(node));
  }

  lemma AloneStops(st: State, task: Task)
    requires task.AppendTask? ==> task.content.Some?
    requires OpenNode(st, task.user, task.filename).Failure?
    ensures Alone(st, task, Begin) == (st, Failure(OpenNode(st, task.user, task.filename).error))
  {
    var access := OpenAccess(st, task.user, task.filename);
    if access.Success? {
      assert Advance(st, task, Begin) == (st, HasAccess(access.value));
    }
  }

  lemma AppendFromNode(st: State, task: Task, content: seq<byte>, node: MailboxNode)
    requires task.AppendTask? && task.content == Some(content)
    requires OpenNode(st, task.user, task.filename) == Success(node)
    ensures Alone(st, task, HasNode(node)).0 == AppendToFile(st, task.user, task.filename, Some(content)).st
    ensures Alone(st, task, HasNode(node)).1
         == match AppendToFile(st, task.user, task.filename, Some(content)).res
            case Success(_) => Success([])
            case Failure(e) => Failure(e)
  {
    var inode, chunks := OpenInode(st, node), Chunks(content);
    if inode.Success? {
      assert Advance(st, task, HasNode(node)) == (st, Writing(node, inode.value, chunks, []));
      WritingAlone(st, task, content, node, inode.value, chunks, []);
      assert [] + FreshIds(st.next, |chunks|) == FreshIds(st.next, |chunks|);
    }
  }

  /** An append that nothing interrupts is the whole operation, in every state and with every error. */
  lemma AppendAlone(st: State, user: UserData, filename: string, content: Option<seq<byte>>)
    ensures Alone(st, AppendTask(user, filename, content), Begin).0 == AppendToFile(st, user, filename, content).st
    ensures Alone(st, AppendTask(user, filename, content), Begin).1
         == match AppendToFile(st, user, filename, content).res
            case Success(_) => Success([])
            case Failure(e) => Failure(e)
  {
    var task, found := AppendTask(user, filename, content), OpenNode(st, user, filename);
    if content.Some? {
      if found.Success? {
        AloneReads(st, task, OpenAccess(st, user, filename).value, found.value);
        AppendFromNode(st, task, content.value, found.value);
      } else {
        AloneStops(st, task);
      }
    }
  }

  lemma LoadFromNode(st: State, task: Task, node: MailboxNode)
    requires task.LoadTask? && OpenNode(st, task.user, task.filename) == Success(node)
    ensures Alone(st, task, HasNode(node)) == (st, LoadFile(st, task.user, task.filename))
  {
    var inode := OpenInode(st, node);
    if inode.Success? {
      assert Advance(st, task, HasNode(node)) == (st, Reading(node.fileKey, inode.value.blocks, []));
      ReadingAlone(st, task, node.fileKey, inode.value.blocks, []);
      var blocks := LoadBlocks(st, inode.value.blocks, node.fileKey);
      assert blocks.Success? ==> [] + blocks.value == blocks.value;
    }
  }

  /** A load that nothing interrupts is the whole operation. */
  lemma LoadAlone(st: State, user: UserData, filename: string)
    ensures Alone(st, LoadTask(user, filename), Begin) == (st, LoadFile(st, user, filename))
  {
    var task, found := LoadTask(user, filename), OpenNode(st, user, filename);
    if found.Success? {
      AloneReads(st, task, OpenAccess(st, user, filename).value, found.value);
      LoadFromNode(st, task, found.value);
    } else {
      AloneStops(st, task);
    }
  }
}
