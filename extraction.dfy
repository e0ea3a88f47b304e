/** Field extraction: fixed navigation paths from the cached well-known
    schema nodes down to one bit range of a message buffer, followed by a
    single read, plus the symbolic names of task ids and message ids. */
module Extraction {
  import opened Types

  /** The well-known nodes the accessors read from, one slot per global
      pointer of the resolver. Every slot is absent until the schema has
      been resolved; filling them is not part of this model. */
  datatype SchemaCache = SchemaCache(
    messagesIdEnum: Option<Node>,
    lteTimeType: Option<Node>,
    lteTimeFrameType: Option<Node>,
    lteTimeSlotType: Option<Node>,
    originTaskIdType: Option<Node>,
    destinationTaskIdType: Option<Node>,
    instanceType: Option<Node>,
    messageHeaderType: Option<Node>,
    messageType: Option<Node>,
    messageSizeType: Option<Node>)

  /** The cache before initialisation: every pointer NULL. */
  const UNINITIALIZED: SchemaCache :=
    SchemaCache(None, None, None, None, None, None, None, None, None, None)

  /** The bit-extraction primitive over one message buffer: given a bit
      offset and a width, the bits read as an unsigned value, or None when
      the read cannot be done. */
  type BitFetch = (nat, int) -> Option<uint32>

  /** The primitive's contract: a successful read of `width` bits yields a
      value below 2^width. */
  ghost predicate FetchRespectsWidth(fetch: BitFetch)
  {
    forall offset: nat, width: int :: fetch(offset, width).Some? ==>
      0 <= width && fetch(offset, width).value < Pow2(width)
  }

  /** The 32-bit word reader (`buffer_get_uint32_t`), which cannot fail. */
  type WordFetch = nat -> uint32

  /** The enum table: the symbolic name of a value in an enum node; the
      node pointer it is handed may be NULL. */
  type EnumName = (Option<Node>, uint32) -> string

  /** `uint32_t value = 0;` followed by a read into `value` whose return
      code is ignored: the value read, or the initial 0 when the read fails. */
  function ReadOrZero(fetch: BitFetch, offset: nat, width: int): (r: uint32)
    ensures fetch(offset, width).Some? ==> r == fetch(offset, width).value
    ensures fetch(offset, width).None? ==> r == 0
  {
    match fetch(offset, width)
    case Some(v) => v
    case None => 0
  }

  /** `get_message_header_type_size`: the size of the aggregate two alias
      hops below the header type (converted to `uint32_t`), or 0 when one
      of the hops is missing. */
  function GetMessageHeaderTypeSize(cache: SchemaCache): (r: uint32)
    requires cache.messageHeaderType.Some?
    ensures Descend(cache.messageHeaderType.value, 2).None? ==> r == 0
    ensures Descend(cache.messageHeaderType.value, 2).Some? ==>
      r == ToUint32(Descend(cache.messageHeaderType.value, 2).value.size)
  {
    var header := cache.messageHeaderType.value;
    assert Descend(header, 1) == header.child;
    if header.child.Some? then
      if header.child.value.child.Some? then
        ToUint32(header.child.value.child.value.size)
      else 0
    else 0
  }

  /** The size slot, when present, heads an alias chain that reaches a
      concrete size (the source dereferences every hop). */
  predicate MessageSizeResolvable(cache: SchemaCache)
  {
    cache.messageSizeType.Some? ==> AliasChainComplete(cache.messageSizeType.value)
  }

  /** `get_message_size`: follows the alias chain from the size slot to the
      first node with a concrete size and reads that many bits at the
      offset of the slot itself; 0 when the slot is absent or the read
      fails. */
  method GetMessageSize(cache: SchemaCache, fetch: BitFetch) returns (value: uint32)
    requires MessageSizeResolvable(cache)
    ensures cache.messageSizeType.None? ==> value == 0
    ensures cache.messageSizeType.Some? ==>
      value == ReadOrZero(fetch, cache.messageSizeType.value.offset,
                          ResolveAlias(cache.messageSizeType.value).size)
  {
    value := 0;
    if cache.messageSizeType.Some? {
      var sizeType := cache.messageSizeType.value;
      var temp := sizeType;
      while temp.IsAlias()
        invariant AliasChainComplete(temp)
        invariant ResolveAlias(temp) == ResolveAlias(sizeType)
        decreases temp
      {
        temp := temp.child.value;
      }
      value := ReadOrZero(fetch, sizeType.offset, temp.size);
    }
  }

  /** The frame subfield is dereferenced two hops deep whenever the time
      slot is present. */
  predicate FrameResolvable(cache: SchemaCache)
  {
    cache.lteTimeType.Some? ==>
      cache.lteTimeFrameType.Some? && Descend(cache.lteTimeFrameType.value, 2).Some?
  }

  /** The slot subfield is dereferenced two hops deep whenever the time
      slot is present. */
  predicate SlotResolvable(cache: SchemaCache)
  {
    cache.lteTimeType.Some? ==>
      cache.lteTimeSlotType.Some? && Descend(cache.lteTimeSlotType.value, 2).Some?
  }

  /** `get_lte_frame`: reads at the time field's offset plus the frame
      subfield's offset, as many bits as the type two hops below the frame
      subfield has; 0 when the time slot is absent or the read fails. */
  function GetLteFrame(cache: SchemaCache, fetch: BitFetch): (r: uint32)
    requires FrameResolvable(cache)
    ensures cache.lteTimeType.None? ==> r == 0
    ensures cache.lteTimeType.Some? ==>
      r == ReadOrZero(fetch, cache.lteTimeType.value.offset + cache.lteTimeFrameType.value.offset,
                      Descend(cache.lteTimeFrameType.value, 2).value.size)
  {
    if cache.lteTimeType.Some? then
      var frame := cache.lteTimeFrameType.value;
      assert Descend(frame, 1) == frame.child;
      ReadOrZero(fetch, cache.lteTimeType.value.offset + frame.offset, frame.child.value.child.value.size)
    else 0
  }

  /** `get_lte_slot`: as `GetLteFrame`, with the slot subfield. */
  function GetLteSlot(cache: SchemaCache, fetch: BitFetch): (r: uint32)
    requires SlotResolvable(cache)
    ensures cache.lteTimeType.None? ==> r == 0
    ensures cache.lteTimeType.Some? ==>
      r == ReadOrZero(fetch, cache.lteTimeType.value.offset + cache.lteTimeSlotType.value.offset,
                      Descend(cache.lteTimeSlotType.value, 2).value.size)
  {
    if cache.lteTimeType.Some? then
      var slot := cache.lteTimeSlotType.value;
      assert Descend(slot, 1) == slot.child;
      ReadOrZero(fetch, cache.lteTimeType.value.offset + slot.offset, slot.child.value.child.value.size)
    else 0
  }

  /** The slot read is the frame read with the slot subfield in the frame
      subfield's place. */
  lemma LteSlotMirrorsFrame(cache: SchemaCache, fetch: BitFetch)
    requires SlotResolvable(cache)
    ensures FrameResolvable(cache.(lteTimeFrameType := cache.lteTimeSlotType))
    ensures GetLteSlot(cache, fetch) == GetLteFrame(cache.(lteTimeFrameType := cache.lteTimeSlotType), fetch)
  {
  }

  /** `get_message_id`: always `Ok`, with the 32-bit word at the offset of
      the message-id enum slot. */
  function GetMessageId(cache: SchemaCache, readWord: WordFetch): (r: (Rc, uint32))
    requires cache.messagesIdEnum.Some?
    ensures r.0 == Ok
    ensures r.1 == readWord(cache.messagesIdEnum.value.offset)
  {
    (Ok, readWord(cache.messagesIdEnum.value.offset))
  }

  /** `get_task_id`: the value read at the task-id node's offset with the
      width of its child type, or the all-ones word when the read fails. */
  function GetTaskId(fetch: BitFetch, taskIdType: Node): (r: uint32)
    requires taskIdType.child.Some?
    ensures fetch(taskIdType.offset, taskIdType.child.value.size).None? ==> r == ALL_ONES
    ensures fetch(taskIdType.offset, taskIdType.child.value.size).Some? ==>
      r == fetch(taskIdType.offset, taskIdType.child.value.size).value
  {
    match fetch(taskIdType.offset, taskIdType.child.value.size)
    case None => ALL_ONES
    case Some(v) => v
  }

  /** For a task id narrower than 32 bits, the all-ones word comes back
      exactly when the read failed. */
  lemma TaskIdSentinelIffReadFails(fetch: BitFetch, taskIdType: Node)
    requires FetchRespectsWidth(fetch)
    requires taskIdType.child.Some? && taskIdType.child.value.size < 32
    ensures GetTaskId(fetch, taskIdType) == ALL_ONES <==>
      fetch(taskIdType.offset, taskIdType.child.value.size).None?
  {
    var width := taskIdType.child.value.size;
    var read := fetch(taskIdType.offset, width);
    if read.Some? {
      NarrowValueIsNotAllOnes(read.value, width);
    }
  }

  /** `task_id_to_string`: "UNKNOWN" for the all-ones word, otherwise the
      enum table's name for the value in the task-id node's child type. */
  function TaskIdToString(taskIdValue: uint32, taskIdType: Node, enumName: EnumName): (r: string)
    ensures taskIdValue == ALL_ONES ==> r == "UNKNOWN"
    ensures taskIdValue < ALL_ONES ==> r == enumName(taskIdType.child, taskIdValue)
  {
    if taskIdValue < ALL_ONES then enumName(taskIdType.child, taskIdValue)
    else "UNKNOWN"
  }

  /** Reading a task id and naming it: a failed read is named "UNKNOWN", a
      successful read of fewer than 32 bits is named by the enum table. */
  lemma TaskIdNameOfRead(fetch: BitFetch, taskIdType: Node, enumName: EnumName)
    requires FetchRespectsWidth(fetch)
    requires taskIdType.child.Some? && taskIdType.child.value.size < 32
    ensures fetch(taskIdType.offset, taskIdType.child.value.size).None? ==>
      TaskIdToString(GetTaskId(fetch, taskIdType), taskIdType, enumName) == "UNKNOWN"
    ensures fetch(taskIdType.offset, taskIdType.child.value.size).Some? ==>
      TaskIdToString(GetTaskId(fetch, taskIdType), taskIdType, enumName) ==
      enumName(taskIdType.child, fetch(taskIdType.offset, taskIdType.child.value.size).value)
  {
    TaskIdSentinelIffReadFails(fetch, taskIdType);
  }

  /** The instance path: three hops below the instance slot. */
  predicate InstanceResolvable(cache: SchemaCache)
  {
    cache.instanceType.Some? && Descend(cache.instanceType.value, 3).Some?
  }

  /** `get_instance`: the read at the instance slot's offset with the width
      of the type three hops below it. None is a failed read, after which
      the source returns an uninitialised value. */
  function GetInstance(cache: SchemaCache, fetch: BitFetch): (r: Option<uint32>)
    requires InstanceResolvable(cache)
    ensures r == fetch(cache.instanceType.value.offset, Descend(cache.instanceType.value, 3).value.size)
  {
    var instance := cache.instanceType.value;
    assert Descend(instance, 1) == instance.child;
    assert Descend(instance.child.value, 1) == instance.child.value.child;
    fetch(instance.offset, instance.child.value.child.value.child.value.size)
  }

  /** `message_id_to_string`: the enum table's name for the value in the
      message-id enum. */
  function MessageIdToString(cache: SchemaCache, messageId: uint32, enumName: EnumName): (r: string)
    ensures r == enumName(cache.messagesIdEnum, messageId)
  {
    enumName(cache.messagesIdEnum, messageId)
  }
}
