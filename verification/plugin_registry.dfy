/**
 * The tool registry: an ordered array of tool records, identified by their
 * tool id compared case-insensitively. Lookups and filters read the array;
 * registering overwrites in place or appends, unregistering removes one
 * record found from the end.
 */
module TwinPluginRegistry {
  import opened TwinTypes

  /**
   * FRegisteredTool. `toolClass` is the soft class reference: None when it
   * is unset or does not load.
   */
  datatype RegisteredTool = RegisteredTool(
    toolID: string,
    toolClass: Option<ToolClass>,
    metadata: ToolMetadata,
    enabled: bool,
    autoLoad: bool)

  /** A default-constructed record: empty id, no class, enabled, not auto-loaded. */
  function EmptyRecord(): RegisteredTool
  {
    RegisteredTool("", None, DefaultMetadata(), true, false)
  }

  predicate Matches(t: RegisteredTool, id: string)
  {
    SameName(t.toolID, id)
  }

  /** No two records share an id (up to case). */
  ghost predicate UniqueIds(tools: seq<RegisteredTool>)
  {
    forall i, j :: 0 <= i < j < |tools| ==> !SameName(tools[i].toolID, tools[j].toolID)
  }

  /** Index of the first record matching `id`, or -1. */
  function FirstIndexOf(tools: seq<RegisteredTool>, id: string): (k: int)
    ensures -1 <= k < |tools|
    ensures k >= 0 ==> Matches(tools[k], id) && forall j :: 0 <= j < k ==> !Matches(tools[j], id)
    ensures k < 0 ==> forall j :: 0 <= j < |tools| ==> !Matches(tools[j], id)
  {
    if tools == [] then -1
    else if Matches(tools[0], id) then 0
    else
      var k := FirstIndexOf(tools[1..], id);
      assert forall j :: 0 < j < |tools| ==> tools[j] == tools[1..][j - 1];
      if k < 0 then -1 else k + 1
  }

  /** Index of the last record matching `id`, or -1. */
  function LastIndexOf(tools: seq<RegisteredTool>, id: string): (k: int)
    ensures -1 <= k < |tools|
    ensures k >= 0 ==> Matches(tools[k], id) && forall j :: k < j < |tools| ==> !Matches(tools[j], id)
    ensures k < 0 ==> forall j :: 0 <= j < |tools| ==> !Matches(tools[j], id)
  {
    if tools == [] then -1
    else if Matches(tools[|tools| - 1], id) then |tools| - 1
    else LastIndexOf(tools[..|tools| - 1], id)
  }

  /**
   * FindTool: the first record whose id matches, or the default record
   * (whose id is empty) when none does.
   */
  function FindTool(tools: seq<RegisteredTool>, id: string): (r: RegisteredTool)
    ensures (exists j :: 0 <= j < |tools| && Matches(tools[j], id)) ==> r in tools && Matches(r, id)
    ensures (forall j :: 0 <= j < |tools| ==> !Matches(tools[j], id)) ==> r == EmptyRecord()
    ensures forall j :: 0 <= j < |tools| && Matches(tools[j], id) && (forall i :: 0 <= i < j ==> !Matches(tools[i], id))
              ==> r == tools[j]
  {
    var k := FirstIndexOf(tools, id);
    if k >= 0 then tools[k] else EmptyRecord()
  }

  /** With unique ids, FindTool returns the one record that matches. */
  lemma FindToolUnique(tools: seq<RegisteredTool>, id: string)
    ensures UniqueIds(tools) ==>
              forall j :: 0 <= j < |tools| && Matches(tools[j], id) ==> FindTool(tools, id) == tools[j]
  {
    if UniqueIds(tools) {
      forall j | 0 <= j < |tools| && Matches(tools[j], id)
        ensures FindTool(tools, id) == tools[j]
      {
        forall i | 0 <= i < j
          ensures !Matches(tools[i], id)
        {
          assert !SameName(tools[i].toolID, tools[j].toolID);
        }
      }
    }
  }

  /** GetToolsByCategory: the records of one category, in registry order. */
  function ToolsByCategory(tools: seq<RegisteredTool>, category: ToolCategory): (r: seq<RegisteredTool>)
    ensures |r| <= |tools|
    ensures forall t :: t in r <==> t in tools && t.metadata.category == category
  {
    if tools == [] then []
    else
      var rest := ToolsByCategory(tools[1..], category);
      if tools[0].metadata.category == category then [tools[0]] + rest else rest
  }

  /** GetToolsForMode: the records that support `mode` or list no modes at all, in registry order. */
  function ToolsForMode(tools: seq<RegisteredTool>, mode: AppMode): (r: seq<RegisteredTool>)
    ensures |r| <= |tools|
    ensures forall t :: t in r <==> t in tools && SupportsMode(t.metadata.supportedModes, mode)
  {
    if tools == [] then []
    else
      var rest := ToolsForMode(tools[1..], mode);
      if SupportsMode(tools[0].metadata.supportedModes, mode) then [tools[0]] + rest else rest
  }

  /** Filtering by category keeps registry order: it distributes over concatenation. */
  lemma {:induction false} ToolsByCategoryKeepsOrder(a: seq<RegisteredTool>, b: seq<RegisteredTool>, category: ToolCategory)
    ensures ToolsByCategory(a + b, category) == ToolsByCategory(a, category) + ToolsByCategory(b, category)
  {
    if a == [] {
      assert a + b == b;
    } else {
      assert (a + b)[0] == a[0];
      assert (a + b)[1..] == a[1..] + b;
      ToolsByCategoryKeepsOrder(a[1..], b, category);
    }
  }

  /** Filtering by mode keeps registry order: it distributes over concatenation. */
  lemma {:induction false} ToolsForModeKeepsOrder(a: seq<RegisteredTool>, b: seq<RegisteredTool>, mode: AppMode)
    ensures ToolsForMode(a + b, mode) == ToolsForMode(a, mode) + ToolsForMode(b, mode)
  {
    if a == [] {
      assert a + b == b;
    } else {
      assert (a + b)[0] == a[0];
      assert (a + b)[1..] == a[1..] + b;
      ToolsForModeKeepsOrder(a[1..], b, mode);
    }
  }

  /** The array after RegisterTool(t): the first record with t's id replaced, or t appended. */
  function Upserted(tools: seq<RegisteredTool>, t: RegisteredTool): seq<RegisteredTool>
  {
    var k := FirstIndexOf(tools, t.toolID);
    if k >= 0 then tools[k := t] else tools + [t]
  }

  /** The array after UnregisterTool(id): the last record matching id removed, if any. */
  function Removed(tools: seq<RegisteredTool>, id: string): seq<RegisteredTool>
  {
    var k := LastIndexOf(tools, id);
    if k >= 0 then tools[..k] + tools[k + 1..] else tools
  }

  /**
   * Registering keeps every other record and their order, grows the array
   * only for a new id, and afterwards FindTool returns the new record.
   */
  lemma RegisterThenFind(tools: seq<RegisteredTool>, t: RegisteredTool)
    ensures var r := Upserted(tools, t);
      FindTool(r, t.toolID) == t &&
      (if exists j :: 0 <= j < |tools| && Matches(tools[j], t.toolID) then |r| == |tools| else r == tools + [t]) &&
      (forall j :: 0 <= j < |tools| && !Matches(tools[j], t.toolID) ==> r[j] == tools[j])
  {
    var k := FirstIndexOf(tools, t.toolID);
    var r := Upserted(tools, t);
    assert Matches(t, t.toolID);
    if k >= 0 {
      assert r[k] == t;
      assert forall i :: 0 <= i < k ==> r[i] == tools[i] && !Matches(r[i], t.toolID);
    } else {
      assert r[|tools|] == t;
    }
  }

  /** Registering never introduces a duplicate id. */
  lemma RegisterKeepsIdsUnique(tools: seq<RegisteredTool>, t: RegisteredTool)
    requires UniqueIds(tools)
    ensures UniqueIds(Upserted(tools, t))
  {
    var k := FirstIndexOf(tools, t.toolID);
    var r := Upserted(tools, t);
    forall i, j | 0 <= i < j < |r|
      ensures !SameName(r[i].toolID, r[j].toolID)
    {
      if k >= 0 {
        if i == k {
          assert SameName(tools[k].toolID, t.toolID);
        } else if j == k {
          assert SameName(tools[k].toolID, t.toolID);
        }
      } else if j == |tools| {
        assert !Matches(tools[i], t.toolID);
      }
    }
  }

  /** Unregistering keeps every other record in order and removes exactly one when any matches. */
  lemma UnregisterRemovesOne(tools: seq<RegisteredTool>, id: string)
    ensures (exists j :: 0 <= j < |tools| && Matches(tools[j], id)) <==> |Removed(tools, id)| == |tools| - 1
    ensures multiset(Removed(tools, id)) <= multiset(tools)
  {
    var k := LastIndexOf(tools, id);
    if k >= 0 {
      assert tools == tools[..k] + [tools[k]] + tools[k + 1..];
    }
  }

  /** The record at index i after removing index k is the original one at i, or at i + 1 from k on. */
  lemma RemovedIndex(tools: seq<RegisteredTool>, k: nat, i: nat)
    requires k < |tools| && i < |tools| - 1
    ensures (tools[..k] + tools[k + 1..])[i] == tools[if i < k then i else i + 1]
  {
  }

  /** Unregistering preserves uniqueness of ids. */
  lemma UnregisterKeepsIdsUnique(tools: seq<RegisteredTool>, id: string)
    requires UniqueIds(tools)
    ensures UniqueIds(Removed(tools, id))
  {
    var k := LastIndexOf(tools, id);
    if k >= 0 {
      var r := tools[..k] + tools[k + 1..];
      assert r == Removed(tools, id);
      forall i, j | 0 <= i < j < |r|
        ensures !SameName(r[i].toolID, r[j].toolID)
      {
        RemovedIndex(tools, k, i);
        RemovedIndex(tools, k, j);
      }
    }
  }

  /** With unique ids, unregistering an id leaves no record that matches it. */
  lemma UnregisterRemovesId(tools: seq<RegisteredTool>, id: string)
    requires UniqueIds(tools)
    ensures forall j :: 0 <= j < |Removed(tools, id)| ==> !Matches(Removed(tools, id)[j], id)
  {
    var k := LastIndexOf(tools, id);
    if k >= 0 {
      var r := tools[..k] + tools[k + 1..];
      assert r == Removed(tools, id);
      forall j | 0 <= j < |r|
        ensures !Matches(r[j], id)
      {
        RemovedIndex(tools, k, j);
        var j' := if j < k then j else j + 1;
        assert !SameName(tools[j'].toolID, tools[k].toolID);
      }
    }
  }

  /**
   * With unique ids, registering a tool and then unregistering its id
   * gives back an array in which FindTool no longer finds it.
   */
  lemma RegisterThenUnregister(tools: seq<RegisteredTool>, t: RegisteredTool)
    requires UniqueIds(tools)
    ensures FindTool(Removed(Upserted(tools, t), t.toolID), t.toolID) == EmptyRecord()
    ensures UniqueIds(Removed(Upserted(tools, t), t.toolID))
  {
    RegisterKeepsIdsUnique(tools, t);
    var u := Upserted(tools, t);
    UnregisterRemovesId(u, t.toolID);
    UnregisterKeepsIdsUnique(u, t.toolID);
  }

  /** The registry asset, whose array the manager changes through these two methods. */
  class PluginRegistry {
    var registeredTools: seq<RegisteredTool>

    constructor(tools: seq<RegisteredTool>)
      ensures registeredTools == tools
    {
      registeredTools := tools;
    }

    /** Overwrites the first record with the same id in place, or appends. */
    method RegisterTool(tool: RegisteredTool)
      modifies this
      ensures registeredTools == Upserted(old(registeredTools), tool)
    {
      var i := 0;
      while i < |registeredTools|
        invariant 0 <= i <= |registeredTools|
        invariant registeredTools == old(registeredTools)
        invariant forall j :: 0 <= j < i ==> !Matches(registeredTools[j], tool.toolID)
      {
        if SameName(registeredTools[i].toolID, tool.toolID) {
          registeredTools := registeredTools[i := tool];
          return;
        }
        i := i + 1;
      }
      registeredTools := registeredTools + [tool];
    }

    /** Scans from the end and removes the first record found; reports whether one was. */
    method UnregisterTool(id: string) returns (removed: bool)
      modifies this
      ensures removed <==> exists j :: 0 <= j < |old(registeredTools)| && Matches(old(registeredTools)[j], id)
      ensures registeredTools == Removed(old(registeredTools), id)
    {
      var i := |registeredTools| - 1;
      while i >= 0
        invariant -1 <= i < |registeredTools|
        invariant registeredTools == old(registeredTools)
        invariant forall j :: i < j < |registeredTools| ==> !Matches(registeredTools[j], id)
      {
        if SameName(registeredTools[i].toolID, id) {
          registeredTools := registeredTools[..i] + registeredTools[i + 1..];
          return true;
        }
        i := i - 1;
      }
      return false;
    }
  }
}
