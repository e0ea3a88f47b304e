/** Name lookup over the schema: the top-level entries (`locate_root`,
    `locate_type`) and the direct members of one node
    (`locate_type_children`). Each search is a first-match linear scan that
    skips anonymous nodes. */
module Resolver {
  import opened Types

  /** What a search leaves behind in its caller's out-pointer: nothing, or
      the node found (None standing for a stored NULL). */
  datatype Written = Untouched | Stored(node: Option<Node>)

  /** The position of the first node named `name`; anonymous nodes never
      match, and the first of several equally named nodes wins. */
  function FirstMatch(nodes: seq<Node>, name: string): (r: Option<nat>)
    ensures r.Some? ==> r.value < |nodes| && nodes[r.value].name == Some(name)
    ensures r.Some? ==> forall j :: 0 <= j < r.value ==> nodes[j].name != Some(name)
    ensures r.None? <==> forall j :: 0 <= j < |nodes| ==> nodes[j].name != Some(name)
    decreases |nodes|
  {
    if |nodes| == 0 then None
    else if nodes[0].name == Some(name) then Some(0)
    else match FirstMatch(nodes[1..], name)
      case None => None
      case Some(i) => Some(i + 1)
  }

  /** The node at the first match, or None (NULL) when nothing matches. */
  function Lookup(nodes: seq<Node>, name: string): (r: Option<Node>)
  {
    match FirstMatch(nodes, name)
    case None => None
    case Some(i) => Some(nodes[i])
  }

  /** The scan shared by the three searches: walk the nodes in order,
      skip the anonymous ones, stop at the first whose name is `name`. */
  method ScanFirstNamed(nodes: seq<Node>, name: string) returns (found: Option<nat>)
    ensures found == FirstMatch(nodes, name)
  {
    var i := 0;
    while i < |nodes|
      invariant 0 <= i <= |nodes|
      invariant forall j :: 0 <= j < i ==> nodes[j].name != Some(name)
    {
      if nodes[i].name.Some? && nodes[i].name.value == name {
        return Some(i);
      }
      i := i + 1;
    }
    return None;
  }

  /** `locate_root`: -1 for a missing or empty name, an empty list or a
      missing out-pointer (nothing written); otherwise the first match is
      stored, and the code is 0 when there was one and -2 when there was
      none. `head` is the `next`-linked list of top-level entries; an empty
      sequence stands for a NULL head. */
  method LocateRoot(rootName: Option<string>, head: seq<Node>, hasOut: bool)
    returns (rc: int, written: Written)
    ensures rc == -1 <==> rootName.None? || rootName.value == "" || head == [] || !hasOut
    ensures rc == -1 ==> written == Untouched
    ensures rc != -1 ==> written == Stored(Lookup(head, rootName.value))
    ensures rc == 0 <==> rc != -1 && FirstMatch(head, rootName.value).Some?
    ensures rc == -2 <==> rc != -1 && FirstMatch(head, rootName.value).None?
  {
    if rootName.None? || |rootName.value| == 0 {
      return -1, Untouched;
    }
    if |head| == 0 {
      return -1, Untouched;
    }
    if !hasOut {
      return -1, Untouched;
    }
    var found := ScanFirstNamed(head, rootName.value);
    var nextType := if found.Some? then Some(head[found.value]) else None;
    written := Stored(nextType);
    rc := if nextType.None? then -2 else 0;
  }

  /** `locate_type`: `BadParam` only for a missing name or an empty list (an
      empty name is searched like any other); otherwise the first match is
      stored when there is an out-pointer, and the code is `Ok` or `Fail`. */
  method LocateType(typeName: Option<string>, head: seq<Node>, hasOut: bool)
    returns (rc: Rc, written: Written)
    ensures rc == BadParam <==> typeName.None? || head == []
    ensures rc == BadParam || !hasOut ==> written == Untouched
    ensures rc != BadParam && hasOut ==> written == Stored(Lookup(head, typeName.value))
    ensures rc == Ok <==> rc != BadParam && FirstMatch(head, typeName.value).Some?
    ensures rc == Fail <==> rc != BadParam && FirstMatch(head, typeName.value).None?
  {
    if typeName.None? {
      return BadParam, Untouched;
    }
    if |head| == 0 {
      return BadParam, Untouched;
    }
    var found := ScanFirstNamed(head, typeName.value);
    var nextType := if found.Some? then Some(head[found.value]) else None;
    written := if hasOut then Stored(nextType) else Untouched;
    rc := if nextType.None? then Fail else Ok;
  }

  /** `locate_type_children`: like `LocateType`, but the scan covers only
      the direct members of `head`; its `child`, deeper members and
      siblings are never inspected. */
  method LocateTypeChildren(typeName: Option<string>, head: Option<Node>, hasOut: bool)
    returns (rc: Rc, written: Written)
    ensures rc == BadParam <==> typeName.None? || head.None?
    ensures rc == BadParam || !hasOut ==> written == Untouched
    ensures rc != BadParam && hasOut ==> written == Stored(Lookup(head.value.members, typeName.value))
    ensures rc == Ok <==> rc != BadParam && FirstMatch(head.value.members, typeName.value).Some?
    ensures rc == Fail <==> rc != BadParam && FirstMatch(head.value.members, typeName.value).None?
  {
    if typeName.None? {
      return BadParam, Untouched;
    }
    if head.None? {
      return BadParam, Untouched;
    }
    var i := ScanFirstNamed(head.value.members, typeName.value);
    var foundType := if i.Some? then Some(head.value.members[i.value]) else None;
    written := if hasOut then Stored(foundType) else Untouched;
    rc := if foundType.None? then Fail else Ok;
  }

  /** When top-level names are unique, every named entry is found by its
      own name. */
  lemma UniqueNamesResolveToTheirEntry(nodes: seq<Node>, i: nat)
    requires i < |nodes| && nodes[i].name.Some?
    requires forall j, k :: 0 <= j < k < |nodes| && nodes[j].name.Some? ==> nodes[j].name != nodes[k].name
    ensures Lookup(nodes, nodes[i].name.value) == Some(nodes[i])
  {
  }
}
