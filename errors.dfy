/**
 * The structured error kinds of api/errors/errors.go and the messages their
 * `Error()` methods render. `fmt.Sprintf` with `%v`/`%s` on strings is plain
 * concatenation here.
 */
module Errors {
  import opened Wrappers
  import opened Strings

  /** SdkStoragePool.OperationType: resize, or any other enum value. */
  datatype OperationType = OperationResize | OperationOther(code: int)

  /** The last operation recorded on a storage pool; `params` is its rendered text. */
  datatype StoragePoolOperation = StoragePoolOperation(opType: OperationType, msg: string, params: string)

  /** The parts of api.StoragePool the resize error reads. */
  datatype StoragePool = StoragePool(uuid: string, lastOperation: Option<StoragePoolOperation>)

  /** ErrNotFound, ErrExists, ErrNotSupported and ErrStoragePoolResizeInProgress. */
  datatype Error =
    | NotFound(id: string, typ: string)
    | Exists(id: string, typ: string)
    | NotSupported
    | StoragePoolResizeInProgress(pool: StoragePool)

  /** ErrNotFound's message: the ID can be read back from it once the type is known. */
  function NotFoundMessage(id: string, typ: string): (r: string)
    ensures |r| == |typ| + |id| + 20
    ensures NotFoundId(r, typ) == Some(id)
  {
    StripAffixesOf(typ + " with ID: ", id, " not found");
    typ + " with ID: " + id + " not found"
  }

  /** ErrExists's message: the ID can be read back from it once the type is known. */
  function ExistsMessage(id: string, typ: string): (r: string)
    ensures |r| == |typ| + |id| + 25
    ensures ExistsId(r, typ) == Some(id)
  {
    StripAffixesOf(typ + " with ID: ", id, " already exists");
    typ + " with ID: " + id + " already exists"
  }

  const NotSupportedMessage: string := "Not Supported"

  /** The sentence every resize-in-progress message starts with. */
  function ResizeHeader(uuid: string): (r: string)
    ensures |r| == |uuid| + 43
    ensures StripAffixes(r, "a resize for pool: ", " is already in progress.") == Some(uuid)
  {
    StripAffixesOf("a resize for pool: ", uuid, " is already in progress.");
    "a resize for pool: " + uuid + " is already in progress."
  }

  /** The pool's last recorded operation is a resize. */
  predicate ResizeRecorded(pool: StoragePool) {
    pool.lastOperation.Some? && pool.lastOperation.value.opType == OperationResize
  }

  /**
   * The resize message: the header, followed by the last operation's message
   * and parameters only when that operation is itself a resize.
   */
  function ResizeInProgressMessage(pool: StoragePool): (r: string)
    ensures IsPrefix(ResizeHeader(pool.uuid), r)
    ensures r == ResizeHeader(pool.uuid) <==> !ResizeRecorded(pool)
    ensures ResizeRecorded(pool) ==>
      r[|ResizeHeader(pool.uuid)|..] == " " + pool.lastOperation.value.msg + " " + pool.lastOperation.value.params
  {
    var errMsg := ResizeHeader(pool.uuid);
    if pool.lastOperation.Some? then
      var op := pool.lastOperation.value;
      if op.opType == OperationResize then
        var r := errMsg + " " + op.msg + " " + op.params;
        assert r == errMsg + (" " + op.msg + " " + op.params);
        PrefixOfConcat(errMsg, " " + op.msg + " " + op.params);
        r
      else
        errMsg
    else
      errMsg
  }

  /**
   * The `Error()` string of each kind. Only the not-supported error renders
   * the "Not Supported" text: every other message is longer.
   */
  function Message(e: Error): (r: string)
    ensures e.NotSupported? <==> r == NotSupportedMessage
  {
    match e
    case NotFound(id, typ) => NotFoundMessage(id, typ)
    case Exists(id, typ) => ExistsMessage(id, typ)
    case NotSupported => NotSupportedMessage
    case StoragePoolResizeInProgress(pool) => ResizeInProgressMessage(pool)
  }

  /** Reads the ID back out of a not-found message for a known type. */
  function NotFoundId(msg: string, typ: string): Option<string> {
    StripAffixes(msg, typ + " with ID: ", " not found")
  }

  /** Reads the ID back out of an already-exists message for a known type. */
  function ExistsId(msg: string, typ: string): Option<string> {
    StripAffixes(msg, typ + " with ID: ", " already exists")
  }

  /** The not-found message names both the type and the ID, and the ID can be read back. */
  lemma NotFoundMessageMentions(id: string, typ: string)
    ensures Contains(NotFoundMessage(id, typ), typ)
    ensures Contains(NotFoundMessage(id, typ), id)
    ensures IsSuffix(" not found", NotFoundMessage(id, typ))
    ensures NotFoundId(NotFoundMessage(id, typ), typ) == Some(id)
  {
    var m := NotFoundMessage(id, typ);
    assert m == [] + typ + (" with ID: " + id + " not found");
    ContainsInfix([], typ, " with ID: " + id + " not found");
    assert m == typ + " with ID: " + id + " not found";
    ContainsInfix(typ + " with ID: ", id, " not found");
    SuffixOfConcat(typ + " with ID: " + id, " not found");
    StripAffixesOf(typ + " with ID: ", id, " not found");
  }

  /** The already-exists message names both the type and the ID, and the ID can be read back. */
  lemma ExistsMessageMentions(id: string, typ: string)
    ensures Contains(ExistsMessage(id, typ), typ)
    ensures Contains(ExistsMessage(id, typ), id)
    ensures IsSuffix(" already exists", ExistsMessage(id, typ))
    ensures ExistsId(ExistsMessage(id, typ), typ) == Some(id)
  {
    var m := ExistsMessage(id, typ);
    assert m == [] + typ + (" with ID: " + id + " already exists");
    ContainsInfix([], typ, " with ID: " + id + " already exists");
    ContainsInfix(typ + " with ID: ", id, " already exists");
    SuffixOfConcat(typ + " with ID: " + id, " already exists");
    StripAffixesOf(typ + " with ID: ", id, " already exists");
  }

  /** No not-found message is ever an already-exists message, whatever the IDs and types. */
  lemma NotFoundIsNotExists(id1: string, typ1: string, id2: string, typ2: string)
    ensures NotFoundMessage(id1, typ1) != ExistsMessage(id2, typ2)
  {
    var m1, m2 := NotFoundMessage(id1, typ1), ExistsMessage(id2, typ2);
    assert m1[|m1| - 1] == 'd';
    assert m2[|m2| - 1] == 's';
  }

  /** The resize message names the pool, and for a recorded resize its message and parameters. */
  lemma ResizeMessageMentions(pool: StoragePool)
    ensures Contains(ResizeInProgressMessage(pool), pool.uuid)
    ensures ResizeRecorded(pool) ==> Contains(ResizeInProgressMessage(pool), pool.lastOperation.value.msg)
    ensures ResizeRecorded(pool) ==> Contains(ResizeInProgressMessage(pool), pool.lastOperation.value.params)
  {
    var header := ResizeHeader(pool.uuid);
    if ResizeRecorded(pool) {
      var op := pool.lastOperation.value;
      var m := ResizeInProgressMessage(pool);
      assert m == "a resize for pool: " + pool.uuid + (" is already in progress." + " " + op.msg + " " + op.params);
      ContainsInfix("a resize for pool: ", pool.uuid, " is already in progress." + " " + op.msg + " " + op.params);
      assert m == header + " " + op.msg + (" " + op.params);
      ContainsInfix(header + " ", op.msg, " " + op.params);
      assert m == header + " " + op.msg + " " + op.params + [];
      ContainsInfix(header + " " + op.msg + " ", op.params, []);
    } else {
      ContainsInfix("a resize for pool: ", pool.uuid, " is already in progress.");
    }
  }

  /**
   * Messages tell the kinds apart: two errors with the same message are of the
   * same kind, unless a resize message carries an appended operation (whose
   * free text can mimic anything). For not-found and already-exists errors of
   * one type the message also fixes the ID, and a plain resize message fixes
   * the pool uuid.
   */
  lemma MessageDeterminesKind(e1: Error, e2: Error)
    requires !(e1.StoragePoolResizeInProgress? && ResizeRecorded(e1.pool))
    requires !(e2.StoragePoolResizeInProgress? && ResizeRecorded(e2.pool))
    requires Message(e1) == Message(e2)
    ensures e1.NotFound? == e2.NotFound? && e1.Exists? == e2.Exists?
    ensures e1.NotSupported? == e2.NotSupported?
    ensures e1.StoragePoolResizeInProgress? == e2.StoragePoolResizeInProgress?
    ensures (e1.NotFound? || e1.Exists?) && e1.typ == e2.typ ==> e1.id == e2.id
    ensures e1.StoragePoolResizeInProgress? ==> e1.pool.uuid == e2.pool.uuid
  {
    forall e: Error | !(e.StoragePoolResizeInProgress? && ResizeRecorded(e.pool))
      ensures LastChar(Message(e)) == KindMark(e)
    {
      var m := Message(e);
      assert |m| > 0;
      if e.StoragePoolResizeInProgress? {
        assert m == ResizeHeader(e.pool.uuid);
      }
    }
    if e1.NotFound? && e2.NotFound? && e1.typ == e2.typ {
      NotFoundMessageMentions(e1.id, e1.typ);
      NotFoundMessageMentions(e2.id, e2.typ);
    } else if e1.Exists? && e2.Exists? && e1.typ == e2.typ {
      ExistsMessageMentions(e1.id, e1.typ);
      ExistsMessageMentions(e2.id, e2.typ);
    } else if e1.StoragePoolResizeInProgress? && e2.StoragePoolResizeInProgress? {
      StripAffixesOf("a resize for pool: ", e1.pool.uuid, " is already in progress.");
      StripAffixesOf("a resize for pool: ", e2.pool.uuid, " is already in progress.");
    }
  }

  function LastChar(s: string): char {
    if |s| == 0 then ' ' else s[|s| - 1]
  }

  /** The last character each kind's message ends with when nothing is appended. */
  function KindMark(e: Error): char {
    match e
    case NotFound(_, _) => 'd'
    case Exists(_, _) => 's'
    case NotSupported => 'd'
    case StoragePoolResizeInProgress(_) => '.'
  }
}
