# Schema type-tree resolver and field extraction (itti analyzer)

This project models, in Dafny, the resolver of the itti analyzer's message
decoder (`libresolver/locate_root.c`). The decoder describes every message
exchanged between tasks with a schema tree. Each node has an optional name,
a bit size (or the alias sentinel -1), a bit offset, an optional `child`
(the alias target or single contained type) and an ordered list of members.
The file does two jobs:

- **Resolver** (`resolver.dfy`, module `Resolver`): finds a top-level entry
  by name (`locate_root`, `locate_type`) or a direct member of one node by
  name (`locate_type_children`). Each is a first-match linear scan that skips
  anonymous nodes. The two top-level searches keep the source's two
  return-code conventions. `locate_root` returns -1, -2 or 0 and rejects an
  empty name. `locate_type` returns `RC_BAD_PARAM`, `RC_FAIL` or `RC_OK` and
  searches an empty name like any other.
- **Field extraction** (`extraction.dfy`, module `Extraction`): fixed
  navigation paths from the cached well-known nodes (the globals at lines
  37-46, here the record `SchemaCache`) down to one bit range of a buffer,
  followed by one read. The paths are the header size, message size,
  LTE frame, LTE slot, message id, task id and instance. The module also
  turns task ids and message ids into names.

The tree itself is in `types.dfy` (module `Types`). It holds the node
datatype, the `uint32_t` range, the alias-chain walker `ResolveAlias` used
by `get_message_size`, and the fixed-depth walker `Descend` used to state
the other accessors.

Representation choices:

- The `next`-linked list of top-level entries is a sequence. The empty
  sequence stands for a NULL head; in the source a list is empty exactly
  when its head is NULL.
- An out-pointer is a flag `hasOut` saying whether it is non-NULL. What the
  search leaves behind in it is a value `Written`: `Untouched`, or
  `Stored(node)`, where `Stored(None)` is a stored NULL.
- `strcmp(a, b) == 0` on NUL-terminated strings is string equality.
- The bit reader `buffer_fetch_bits` is a function parameter (`BitFetch`).
  It maps an offset and a width to `Some(value)` or `None` on failure.
  `FetchRespectsWidth` states its contract: a value read from `width` bits
  is below 2^width.
- The word reader `buffer_get_uint32_t` is the parameter `WordFetch`. The
  enum table `enum_type_get_name_from_value` is the parameter `EnumName`.
  It takes an optional node, because the source hands it the pointer
  unchecked: `task_id_type->child` at line 233 and `messages_id_enum` at
  line 250 may be NULL there.
- The source dereferences some pointers without checking them. Those hops
  are `requires` clauses: `FrameResolvable` (frame read only),
  `SlotResolvable` (slot read only), `InstanceResolvable`,
  `MessageSizeResolvable`, the header-type slot of the header-size query,
  the message-id slot of the message-id read, and the `child` of a task-id
  node for the task-id read.

The model follows the code: two return-code conventions in the resolver,
and the unchecked hops of `get_instance` stated as a precondition.

## Model

| member | source | states |
|---|---|---|
| `Resolver.FirstMatch` | common/utils/itti_analyzer/libresolver/locate_root.c:68-76 | Finds the first node whose name is present and equal to the probe, and no earlier node has that name. It returns None exactly when no named node matches, so anonymous nodes are never matched. |
| `Resolver.ScanFirstNamed` | common/utils/itti_analyzer/libresolver/locate_root.c:131-139 | The in-order scan loop that skips anonymous nodes and stops at the first match. It returns exactly the `FirstMatch` position. |
| `Resolver.LocateRoot` | common/utils/itti_analyzer/libresolver/locate_root.c:48-81 | Returns -1 iff the name is NULL or empty, the head is NULL, or the out-pointer is NULL, and then writes nothing. Otherwise it stores the first matching entry (or NULL) and returns 0 iff there was a match and -2 iff there was none. |
| `Resolver.LocateType` | common/utils/itti_analyzer/libresolver/locate_root.c:83-113 | Returns `BadParam` iff the name or head is NULL, so an empty name is searched, not rejected. It writes the first match (or NULL) only through a non-NULL out-pointer, and returns `Ok` iff there was a match and `Fail` iff there was none. |
| `Resolver.LocateTypeChildren` | common/utils/itti_analyzer/libresolver/locate_root.c:115-145 | Same codes as `LocateType`, but the result is the first match among the node's direct members only. Its child, deeper members and siblings play no part. |
| `Resolver.UniqueNamesResolveToTheirEntry` | common/utils/itti_analyzer/libresolver/locate_root.c:68-80 | When no two named entries share a name, every named entry is found by its own name. |
| `Types.ToUint32` | common/utils/itti_analyzer/libresolver/locate_root.c:153 | The conversion of the `int` size to the `uint32_t` result: identity on 0..2^32-1, and adds 2^32 to a small negative value. |
| `Types.ResolveAlias` | common/utils/itti_analyzer/libresolver/locate_root.c:165-169 | Following `child` while the size is -1 ends on a node whose size is not the alias sentinel. |
| `Types.ResolveAliasIsFirstConcreteHop` | common/utils/itti_analyzer/libresolver/locate_root.c:165-169 | The resolved node is the one `AliasDepth(n)` hops down, and every node before it on the chain is an alias. |
| `Types.ResolveAliasFindsFirstConcrete` | common/utils/itti_analyzer/libresolver/locate_root.c:163-172 | For any alias-chain depth k whose k-th hop is concrete, resolution returns that node. So the width read by `get_message_size` does not depend on k. |
| `Extraction.ReadOrZero` | common/utils/itti_analyzer/libresolver/locate_root.c:179-184 | A read into a `value` set to 0 beforehand, with the return code ignored: the value read, or 0 when the read fails. |
| `Extraction.GetMessageHeaderTypeSize` | common/utils/itti_analyzer/libresolver/locate_root.c:147-157 | Returns 0 when either of the two `child` hops is missing. Otherwise it returns the size of the node two hops down, as a `uint32_t`. |
| `Extraction.GetMessageSize` | common/utils/itti_analyzer/libresolver/locate_root.c:159-176 | Returns 0 when the size slot is absent. Otherwise it reads at the slot's own offset, with the size of the first non-alias node on its `child` chain as the width. |
| `Extraction.GetLteFrame` | common/utils/itti_analyzer/libresolver/locate_root.c:178-188 | Returns 0 when the time slot is absent. Otherwise it reads at time offset + frame offset, with the width of the node two hops below the frame subfield. |
| `Extraction.GetLteSlot` | common/utils/itti_analyzer/libresolver/locate_root.c:190-200 | The same as the frame read, using the slot subfield. |
| `Extraction.LteSlotMirrorsFrame` | common/utils/itti_analyzer/libresolver/locate_root.c:178-200 | The slot read equals the frame read on a cache whose frame slot holds the slot subfield. |
| `Extraction.GetMessageId` | common/utils/itti_analyzer/libresolver/locate_root.c:202-213 | Always returns `Ok`, with the 32-bit word at the message-id enum's offset. |
| `Extraction.GetTaskId` | common/utils/itti_analyzer/libresolver/locate_root.c:215-225 | Returns the all-ones word when the read fails, and the value read otherwise. The width comes from the task-id node's child. |
| `Extraction.TaskIdSentinelIffReadFails` | common/utils/itti_analyzer/libresolver/locate_root.c:219-224 | For a task id narrower than 32 bits, the result is the all-ones word if and only if the read failed. |
| `Extraction.TaskIdToString` | common/utils/itti_analyzer/libresolver/locate_root.c:227-237 | Returns "UNKNOWN" for the all-ones word. For every smaller value it returns the enum table's name in the task-id node's child. |
| `Extraction.TaskIdNameOfRead` | common/utils/itti_analyzer/libresolver/locate_root.c:215-237 | Reading and naming a task id gives "UNKNOWN" after a failed read. After a successful read narrower than 32 bits, it gives the enum table's name of the value read. |
| `Extraction.GetInstance` | common/utils/itti_analyzer/libresolver/locate_root.c:239-246 | Reads at the instance slot's offset, with the width of the node three `child` hops down. None is a failed read. |
| `Extraction.MessageIdToString` | common/utils/itti_analyzer/libresolver/locate_root.c:248-251 | The enum table's name for the value in the message-id enum. |

## Left out

- Logging (`g_warning`, `g_info`) and the `next_counter` diagnostic. They produce output only and never steer control flow.
- The internals of `buffer_fetch_bits` and `buffer_get_uint32_t` (buffer.c is not part of this model). They are parameters. A failed bit read is assumed to leave the caller's value unwritten, so the accessors that start from `value = 0` return 0 then.
- `enum_type_get_name_from_value` (enum_type.c is not part of this model). It is a parameter, so what name it gives an unmapped value is not stated.
- Filling the cached globals at lines 37-46. That happens during schema parsing, which is outside this file. The cache is a value passed to each accessor.
- GetInstance: when the read fails, the source returns an uninitialised variable. The model returns None and claims no value for that case.
- GetMessageId: the `g_assert` checks on the buffer and out-pointer have no counterpart, because the value is returned rather than written through a pointer. The unused `head` parameter is dropped.
- TaskIdSentinelIffReadFails: stated only for task ids narrower than 32 bits. A successful 32-bit read of 0xFFFFFFFF gives the same result as a failed read.
- GetLteFrame: the sum of the two offsets is not reduced modulo 2^32. The field types of `types_t` (types.h) are not part of this model. Offsets are natural numbers.
- GetLteSlot: same as GetLteFrame for the offset sum.
- Unchecked NULL dereferences (lines 150, 168, 184, 196, 209, 219, 243) are preconditions, not modelled behaviour. That includes an alias chain that ends in a missing `child`.
