/** The per-session tool registry: the dictionary from MCP connection name
    to the list of tools that connection exposes. A Python dictionary keeps
    its keys in insertion order, so it is modelled as a sequence of entries
    with distinct names: assigning to a present key keeps its position,
    assigning to a new key appends it, deleting a key closes the gap. */
module ToolRegistry {
  import opened Types

  datatype Entry = Entry(name: string, tools: seq<ToolDescriptor>)

  predicate DistinctNames(r: seq<Entry>)
  {
    forall i, j :: 0 <= i < j < |r| ==> r[i].name != r[j].name
  }

  /** A dictionary never holds a key twice. */
  type Registry = r: seq<Entry> | DistinctNames(r) witness []

  /** The keys, in dictionary order. */
  function Names(r: seq<Entry>): (ns: seq<string>)
    ensures |ns| == |r|
    ensures forall i :: 0 <= i < |r| ==> ns[i] == r[i].name
  {
    seq(|r|, i requires 0 <= i < |r| => r[i].name)
  }

  /** The position of `name` among the keys, if it is one. */
  function IndexOf(r: seq<Entry>, name: string): (k: Option<nat>)
    ensures k.Some? ==> k.value < |r| && r[k.value].name == name
    ensures k.Some? ==> forall j :: 0 <= j < k.value ==> r[j].name != name
    ensures k.None? <==> name !in Names(r)
  {
    if r == [] then None
    else if r[0].name == name then Some(0)
    else match IndexOf(r[1..], name)
      case None => None
      case Some(k) => Some(k + 1)
  }

  /** In a registry every key sits at exactly one position. */
  lemma IndexOfAt(r: Registry, k: nat)
    requires k < |r|
    ensures IndexOf(r, r[k].name) == Some(k)
  {
    assert Names(r)[k] == r[k].name;
  }

  /** The list `mcp_tools` holds under key `name`, if `name` is a key: the
      view of the dictionary that `Set` and `Delete` are specified against. */
  function Lookup(r: Registry, name: string): (v: Option<seq<ToolDescriptor>>)
    ensures v.Some? <==> name in Names(r)
    ensures forall i :: 0 <= i < |r| && r[i].name == name ==> v == Some(r[i].tools)
  {
    match IndexOf(r, name)
    case None => None
    case Some(k) => Some(r[k].tools)
  }

  /** `mcp_tools[name] = tools`: the new list replaces any previous one under
      `name`, every other key keeps its list, and the key order changes only
      by appending `name` when it was not a key before. */
  function Set(r: Registry, name: string, tools: seq<ToolDescriptor>): (r': Registry)
    ensures Lookup(r', name) == Some(tools)
    ensures forall n :: n != name ==> Lookup(r', n) == Lookup(r, n)
    ensures Names(r') == if name in Names(r) then Names(r) else Names(r) + [name]
  {
    match IndexOf(r, name)
    case Some(k) => ReplaceAt(r, k, tools)
    case None => Append(r, name, tools)
  }

  /** The registry with the list at position `k` replaced. */
  function ReplaceAt(r: Registry, k: nat, tools: seq<ToolDescriptor>): (r': Registry)
    requires k < |r|
    ensures Lookup(r', r[k].name) == Some(tools)
    ensures forall n :: n != r[k].name ==> Lookup(r', n) == Lookup(r, n)
    ensures Names(r') == Names(r)
  {
    var r' := r[k := Entry(r[k].name, tools)];
    assert Names(r') == Names(r) by {
      forall i | 0 <= i < |r| ensures Names(r')[i] == Names(r)[i] {
        assert r'[i].name == r[i].name;
      }
    }
    IndexOfAt(r', k);
    ReplaceAtLookup(r, k, r');
    r'
  }

  lemma ReplaceAtLookup(r: Registry, k: nat, r': Registry)
    requires k < |r| && |r'| == |r| && r'[k].name == r[k].name
    requires forall i :: 0 <= i < |r| && i != k ==> r'[i] == r[i]
    ensures forall n :: n != r[k].name ==> Lookup(r', n) == Lookup(r, n)
  {
    forall n | n != r[k].name
      ensures Lookup(r', n) == Lookup(r, n)
    {
      if n in Names(r) {
        var i :| 0 <= i < |r| && Names(r)[i] == n;
        assert r'[i] == r[i];
      } else {
        assert forall i :: 0 <= i < |r'| ==> Names(r')[i] == Names(r)[i];
      }
    }
  }

  /** The registry with a new last entry. */
  function Append(r: Registry, name: string, tools: seq<ToolDescriptor>): (r': Registry)
    requires name !in Names(r)
    ensures Lookup(r', name) == Some(tools)
    ensures forall n :: n != name ==> Lookup(r', n) == Lookup(r, n)
    ensures Names(r') == Names(r) + [name]
  {
    var e := Entry(name, tools);
    assert forall i :: 0 <= i < |r| ==> r[i].name != name by {
      forall i | 0 <= i < |r| ensures r[i].name != name { assert Names(r)[i] == r[i].name; }
    }
    var r' := r + [e];
    assert Names(r') == Names(r) + [name] by {
      forall i | 0 <= i < |r'| ensures Names(r')[i] == (Names(r) + [name])[i] {
        if i < |r| { assert r'[i] == r[i]; }
      }
    }
    IndexOfAt(r', |r|);
    forall n | n != name
      ensures Lookup(r', n) == Lookup(r, n)
    {
      if n in Names(r) {
        var i :| 0 <= i < |r| && Names(r)[i] == n;
        assert r'[i] == r[i];
      }
    }
    r'
  }

  /** The sequence `s` with every occurrence of `x` dropped, order kept. */
  function Without(s: seq<string>, x: string): (t: seq<string>)
    ensures x !in t
  {
    if s == [] then [] else (if s[0] == x then [] else [s[0]]) + Without(s[1..], x)
  }

  /** `if name in mcp_tools: del mcp_tools[name]`: the key and its list go,
      every other key keeps its list and its relative order, and an absent
      key leaves the registry as it was. */
  function Delete(r: Registry, name: string): (r': Registry)
    ensures Lookup(r', name) == None
    ensures forall n :: n != name ==> Lookup(r', n) == Lookup(r, n)
    ensures Names(r') == Without(Names(r), name)
    ensures name !in Names(r) ==> r' == r
  {
    match IndexOf(r, name)
    case None =>
      WithoutAbsent(Names(r), name);
      r
    case Some(k) =>
      RemoveAt(r, k)
  }

  /** The registry with the entry at position `k` taken out. */
  function RemoveAt(r: Registry, k: nat): (r': Registry)
    requires k < |r|
    ensures Lookup(r', r[k].name) == None
    ensures forall n :: n != r[k].name ==> Lookup(r', n) == Lookup(r, n)
    ensures Names(r') == Without(Names(r), r[k].name)
  {
    var r' := r[..k] + r[k + 1..];
    RemoveAtLookup(r, k, r');
    RemoveAtNames(r, k, r');
    r'
  }

  lemma RemoveAtLookup(r: Registry, k: nat, r': Registry)
    requires k < |r| && r' == r[..k] + r[k + 1..]
    ensures forall n :: n != r[k].name ==> Lookup(r', n) == Lookup(r, n)
  {
    forall n | n != r[k].name
      ensures Lookup(r', n) == Lookup(r, n)
    {
      if n in Names(r) {
        var i :| 0 <= i < |r| && Names(r)[i] == n;
        if i < k {
          assert r'[i] == r[i];
        } else {
          assert r'[i - 1] == r[i];
        }
      }
    }
  }

  lemma RemoveAtNames(r: Registry, k: nat, r': Registry)
    requires k < |r| && r' == r[..k] + r[k + 1..]
    ensures Names(r') == Without(Names(r), r[k].name)
  {
    var ns := Names(r);
    forall j | 0 <= j < |ns| && j != k
      ensures ns[j] != ns[k]
    {
      if j < k { assert r[j].name != r[k].name; } else { assert r[k].name != r[j].name; }
    }
    WithoutUnique(ns, k);
    NamesRemoveAt(r, k);
  }

  /** Taking out an entry takes out its name. */
  lemma NamesRemoveAt(r: seq<Entry>, k: nat)
    requires k < |r|
    ensures Names(r[..k] + r[k + 1..]) == Names(r)[..k] + Names(r)[k + 1..]
  {
    var r' := r[..k] + r[k + 1..];
    var ns' := Names(r)[..k] + Names(r)[k + 1..];
    forall i | 0 <= i < |r'|
      ensures Names(r')[i] == ns'[i]
    {
      if i < k {
        assert r'[i] == r[i];
      } else {
        assert r'[i] == r[i + 1];
      }
    }
  }

  /** Dropping a string that occurs once, at `k`, takes out position `k`. */
  lemma {:induction false} WithoutUnique(s: seq<string>, k: nat)
    requires k < |s|
    requires forall j :: 0 <= j < |s| && j != k ==> s[j] != s[k]
    ensures Without(s, s[k]) == s[..k] + s[k + 1..]
  {
    if k == 0 {
      WithoutAbsent(s[1..], s[0]);
    } else {
      WithoutUnique(s[1..], k - 1);
      assert s[1..][k - 1] == s[k];
      assert s[..k] == [s[0]] + s[1..][..k - 1];
      assert s[1..][k..] == s[k + 1..];
    }
  }

  lemma {:induction false} WithoutAbsent(s: seq<string>, x: string)
    requires x !in s
    ensures Without(s, x) == s
  {
    if s != [] {
      WithoutAbsent(s[1..], x);
    }
  }

  /** `[tool for tools in mcp_tools.values() for tool in tools]`. */
  function Flatten(r: seq<Entry>): seq<ToolDescriptor>
  {
    if r == [] then [] else r[0].tools + Flatten(r[1..])
  }

  /** The sum of the lengths of all tool lists. */
  function TotalTools(r: seq<Entry>): nat
  {
    if r == [] then 0 else |r[0].tools| + TotalTools(r[1..])
  }

  lemma {:induction false} FlattenConcat(a: seq<Entry>, b: seq<Entry>)
    ensures Flatten(a + b) == Flatten(a) + Flatten(b)
  {
    if a == [] {
      assert a + b == b;
    } else {
      assert (a + b)[1..] == a[1..] + b;
      FlattenConcat(a[1..], b);
    }
  }

  /** Flattening lists the tools in key order, and each list in its own order. */
  lemma FlattenAt(r: seq<Entry>, i: nat)
    requires i < |r|
    ensures Flatten(r) == Flatten(r[..i]) + r[i].tools + Flatten(r[i + 1..])
  {
    var a, e, b := r[..i], r[i], r[i + 1..];
    assert r[i..] == [e] + b;
    assert r == a + r[i..];
    assert r == a + [e] + b;
    FlattenConcat(a + [e], b);
    assert Flatten(r) == Flatten(a + [e]) + Flatten(b);
    FlattenConcat(a, [e]);
    FlattenSingle(e);
    assert Flatten(a + [e]) == Flatten(a) + e.tools;
  }

  lemma FlattenSingle(e: Entry)
    ensures Flatten([e]) == e.tools
  {
    assert [e][1..] == [];
  }

  /** No deduplication: the flattening is exactly as long as all lists together. */
  lemma {:induction false} FlattenLength(r: seq<Entry>)
    ensures |Flatten(r)| == TotalTools(r)
  {
    if r != [] {
      FlattenLength(r[1..]);
    }
  }

  /** A tool is in the flattening if and only if some connection lists it. */
  lemma {:induction false} FlattenMembership(r: seq<Entry>, t: ToolDescriptor)
    ensures t in Flatten(r) <==> exists i :: 0 <= i < |r| && t in r[i].tools
  {
    if r != [] {
      FlattenMembership(r[1..], t);
      if t in Flatten(r[1..]) {
        var i :| 0 <= i < |r[1..]| && t in r[1..][i].tools;
        assert t in r[i + 1].tools;
      }
      if exists i :: 0 <= i < |r| && t in r[i].tools {
        var i :| 0 <= i < |r| && t in r[i].tools;
        if i > 0 {
          assert t in r[1..][i - 1].tools;
        }
      }
    }
  }

  /** Connecting under a new name appends its tools after all others. */
  lemma FlattenConnectNew(r: Registry, name: string, tools: seq<ToolDescriptor>)
    requires name !in Names(r)
    ensures Flatten(Set(r, name, tools)) == Flatten(r) + tools
  {
    FlattenConcat(r, [Entry(name, tools)]);
    assert Flatten([Entry(name, tools)]) == tools;
  }

  /** Reconnecting under a present name swaps its tools in place. */
  lemma FlattenConnectExisting(r: Registry, name: string, tools: seq<ToolDescriptor>, k: nat)
    requires k < |r| && r[k].name == name
    ensures Flatten(Set(r, name, tools)) == Flatten(r[..k]) + tools + Flatten(r[k + 1..])
  {
    var r' := Set(r, name, tools);
    assert IndexOf(r, name) == Some(k);
    assert r' == r[k := Entry(name, tools)];
    FlattenAt(r', k);
    assert r'[..k] == r[..k];
    assert r'[k + 1..] == r[k + 1..];
  }

  /** Disconnecting a present name drops exactly its tools. */
  lemma FlattenDisconnect(r: Registry, name: string, k: nat)
    requires k < |r| && r[k].name == name
    ensures Flatten(Delete(r, name)) == Flatten(r[..k]) + Flatten(r[k + 1..])
  {
    assert IndexOf(r, name) == Some(k);
    FlattenConcat(r[..k], r[k + 1..]);
  }

  /** Connecting under a new name and then disconnecting it restores the
      registry, and with it the flattening. */
  lemma ConnectDisconnectRoundTrip(r: Registry, name: string, tools: seq<ToolDescriptor>)
    requires name !in Names(r)
    ensures Delete(Set(r, name, tools), name) == r
    ensures Flatten(Delete(Set(r, name, tools), name)) == Flatten(r)
  {
    var r' := Set(r, name, tools);
    assert r' == r + [Entry(name, tools)];
    IndexOfAt(r', |r|);
    assert r'[..|r|] == r;
    assert r'[|r| + 1..] == [];
    assert Delete(r', name) == RemoveAt(r', |r|) == r'[..|r|] + r'[|r| + 1..];
  }

  /** The last assignment to a key wins and the key keeps its first position. */
  lemma ConnectTwice(r: Registry, name: string, a: seq<ToolDescriptor>, b: seq<ToolDescriptor>)
    ensures Set(Set(r, name, a), name, b) == Set(r, name, b)
  {
    match IndexOf(r, name)
    case Some(k) => ReplaceTwice(r, k, a, b);
    case None => AppendThenReplace(r, name, a, b);
  }

  lemma ReplaceTwice(r: Registry, k: nat, a: seq<ToolDescriptor>, b: seq<ToolDescriptor>)
    requires k < |r|
    ensures ReplaceAt(ReplaceAt(r, k, a), k, b) == ReplaceAt(r, k, b)
  {
    var r1 := ReplaceAt(r, k, a);
    assert r1[k := Entry(r1[k].name, b)] == r[k := Entry(r[k].name, b)];
  }

  lemma AppendThenReplace(r: Registry, name: string, a: seq<ToolDescriptor>, b: seq<ToolDescriptor>)
    requires name !in Names(r)
    ensures Set(Append(r, name, a), name, b) == Append(r, name, b)
  {
    var r1 := Append(r, name, a);
    IndexOfAt(r1, |r|);
    assert r1[|r| := Entry(r1[|r|].name, b)] == r + [Entry(name, b)];
  }

  /** A key deleted and assigned again moves to the end of the key order;
      so does a key assigned for the first time. */
  lemma ReconnectMovesToEnd(r: Registry, name: string, tools: seq<ToolDescriptor>)
    ensures Names(Set(Delete(r, name), name, tools)) == Without(Names(r), name) + [name]
    ensures Lookup(Set(Delete(r, name), name, tools), name) == Some(tools)
  {
    if name !in Names(r) {
      WithoutAbsent(Names(r), name);
    }
  }

  /** Two providers connected in turn: "A" with two tools, then "B" with one. */
  lemma FlattenTwoProviders(t1: ToolDescriptor, t2: ToolDescriptor, t3: ToolDescriptor)
    ensures Flatten(Set(Set([], "A", [t1, t2]), "B", [t3])) == [t1, t2, t3]
  {
    var a := Entry("A", [t1, t2]);
    assert Set([], "A", [t1, t2]) == [a];
    assert Names([a]) == ["A"];
    FlattenSingle(a);
    FlattenConnectNew([a], "B", [t3]);
  }

  /** Connecting "A" and disconnecting it again leaves nothing to advertise. */
  lemma ConnectThenDisconnectEmpty(tools: seq<ToolDescriptor>)
    ensures Flatten(Delete(Set([], "A", tools), "A")) == []
  {
    ConnectDisconnectRoundTrip([], "A", tools);
  }
}
