/** Export and import of the client store, and the round trip between them. */
module ClientExport {
  import opened Basics
  import opened Strings
  import opened Identifiers
  import opened Heights
  import opened HostKeys
  import opened Clients
  import opened ClientKeepers
  import opened ClientGenesis

  lemma StateKeySplit(c: string)
    requires ValidClientId(c)
    ensures Split(StateKey(c), '/') == ["clients", c, STATE]
  {
    hide Path;
    PathSplits(ClientState(c));
  }

  lemma ConsensusKeySplit(c: string, h: Height)
    requires ValidClientId(c)
    ensures Split(ConsensusKey(c, h), '/') == ["clients", c, "consensusStates", HeightText(h)]
  {
    hide Path;
    PathSplits(ConsensusState(c, h));
  }

  lemma StateKeysDiffer(c: string, d: string)
    requires ValidClientId(c) && ValidClientId(d) && StateKey(c) == StateKey(d)
    ensures c == d
  {
    StateKeySplit(c);
    StateKeySplit(d);
    hide StateKey;
    assert Split(StateKey(c), '/')[1] == c;
  }

  lemma ConsensusKeysDiffer(c: string, h: Height, d: string, g: Height)
    requires ValidClientId(c) && ValidClientId(d) && ConsensusKey(c, h) == ConsensusKey(d, g)
    ensures c == d && h == g
  {
    hide Path;
    KeysNeverCollide(ConsensusState(c, h), ConsensusState(d, g));
  }

  // ---------------------------------------------------------------- the client list

  lemma ClientsStep(kv: map<string, Value>, keys: seq<string>, n: nat, list: seq<Entry<LightClient>>)
    requires Tidy(kv) && Iterates(keys, kv) && n < |keys| && ClientsListed(kv, keys[..n], list) && DistinctIds(list)
    ensures var split := Split(keys[n], '/');
            if split[|split| - 1] != STATE then ClientsListed(kv, keys[..n + 1], list)
            else
              && |split| >= 2 && kv[keys[n]].ClientValue?
              && var longer := list + [Entry(split[1], kv[keys[n]].client)]; ClientsListed(kv, keys[..n + 1], longer) && DistinctIds(longer)
  {
    hide StateKey, ConsensusKey, ValidClientId, ParseHeight;
    var k, split := keys[n], Split(keys[n], '/');
    assert TidyKey(kv, k);
    assert keys[..n + 1] == keys[..n] + [k];
    if split[|split| - 1] != STATE {
      forall c | ValidClientId(c)
        ensures StateKey(c) != k
      {
        StateKeySplit(c);
      }
    } else {
      var c := split[1];
      var longer := list + [Entry(c, kv[k].client)];
      forall d | ValidClientId(d) && StateKey(d) == k
        ensures d == c
      {
        StateKeysDiffer(c, d);
      }
      assert k !in keys[..n];
      forall i | 0 <= i < |list|
        ensures list[i].id != c
      {
        assert Entry(list[i].id, list[i].value) in list;
      }
    }
  }

  /** `GetAllGenesisClients`: all clients of the store, once each, in order. */
  method GetAllGenesisClients(kv: map<string, Value>, keys: seq<string>) returns (clients: seq<Entry<LightClient>>)
    requires Tidy(kv) && Iterates(keys, kv)
    ensures ClientsListed(kv, keys, clients) && StrictlySorted(clients)
  {
    hide Tidy, Iterates, ClientsListed, Split;
    clients := [];
    assert ClientsListed(kv, keys[..0], clients) by { NothingListed(kv, keys); }
    for n := 0 to |keys|
      invariant ClientsListed(kv, keys[..n], clients) && DistinctIds(clients)
    {
      var keySplit := Split(keys[n], '/');
      ClientsStep(kv, keys, n, clients);
      KeyStored(kv, keys, n);
      if keySplit[|keySplit| - 1] != STATE {
        continue;
      }
      clients := clients + [Entry(keySplit[1], kv[keys[n]].client)];
    }
    assert keys[..|keys|] == keys;
    SortSorts(clients);
    SortedListed(kv, keys, clients);
    clients := Sort(clients);
  }

  lemma KeyStored(kv: map<string, Value>, keys: seq<string>, n: nat)
    requires Iterates(keys, kv) && n < |keys|
    ensures keys[n] in kv
  {
  }

  lemma NothingListed(kv: map<string, Value>, keys: seq<string>)
    ensures ClientsListed(kv, keys[..0], []) && StatesListed(kv, keys[..0], [])
  {
    ListsNothing();
  }

  lemma SortedListed(kv: map<string, Value>, keys: seq<string>, list: seq<Entry<LightClient>>)
    requires ClientsListed(kv, keys, list)
    ensures ClientsListed(kv, keys, Sort(list))
  {
    hide StateKey, ValidClientId;
    forall c, x
      ensures Entry(c, x) in Sort(list) <==> Entry(c, x) in list
    {
      SortMember(list, Entry(c, x));
    }
  }

  // ---------------------------------------------------------------- the consensus states

  lemma AppendLists(groups: seq<Entry<seq<HeightRecord>>>, g: nat, x: HeightRecord, c: string, y: HeightRecord)
    requires g < |groups|
    ensures var more := groups[g := Entry(groups[g].id, groups[g].value + [x])];
            Lists(more, c, y) <==> Lists(groups, c, y) || (c == groups[g].id && y == x)
  {
    var more := groups[g := Entry(groups[g].id, groups[g].value + [x])];
    if c == groups[g].id && y == x {
      assert more[g].id == c && y in more[g].value;
    }
    if j :| 0 <= j < |groups| && groups[j].id == c && y in groups[j].value {
      assert more[j].id == c && y in more[j].value;
    }
    if j :| 0 <= j < |more| && more[j].id == c && y in more[j].value {
      assert groups[j].id == c;
    }
  }

  lemma NewGroupLists(groups: seq<Entry<seq<HeightRecord>>>, id: string, x: HeightRecord, c: string, y: HeightRecord)
    ensures Lists(groups + [Entry(id, [x])], c, y) <==> Lists(groups, c, y) || (c == id && y == x)
  {
    var more := groups + [Entry(id, [x])];
    if c == id && y == x {
      assert more[|groups|].id == c && y in more[|groups|].value;
    }
    if j :| 0 <= j < |groups| && groups[j].id == c && y in groups[j].value {
      assert more[j].id == c && y in more[j].value;
    }
  }

  /** A key that is not a consensus state adds nothing. */
  lemma SkippedKey(kv: map<string, Value>, keys: seq<string>, n: nat, groups: seq<Entry<seq<HeightRecord>>>)
    requires n < |keys| && StatesListed(kv, keys[..n], groups)
    requires var split := Split(keys[n], '/'); |split| != 4 || split[2] != "consensusStates"
    ensures StatesListed(kv, keys[..n + 1], groups)
  {
    hide ConsensusKey, ValidClientId, Lists;
    assert keys[..n + 1] == keys[..n] + [keys[n]];
    forall c, h | ValidClientId(c)
      ensures ConsensusKey(c, h) != keys[n]
    {
      ConsensusKeySplit(c, h);
    }
  }

  /** What a consensus key says. */
  lemma ReadKey(kv: map<string, Value>, keys: seq<string>, n: nat)
    requires Tidy(kv) && Iterates(keys, kv) && n < |keys|
    requires var split := Split(keys[n], '/'); |split| == 4 && split[2] == "consensusStates"
    ensures var split := Split(keys[n], '/');
            && ParseHeight(split[3]).Some? && keys[n] in kv && kv[keys[n]].ConsensusValue? && ValidClientId(split[1])
            && keys[n] == ConsensusKey(split[1], ParseHeight(split[3]).value) && keys[n] !in keys[..n]
  {
    hide StateKey, ConsensusKey, ValidClientId, ParseHeight, Split;
    assert TidyKey(kv, keys[n]);
  }

  /** Adding the state of the next key, to whichever group, keeps the list exact. */
  lemma AddedKey(kv: map<string, Value>, keys: seq<string>, n: nat, groups: seq<Entry<seq<HeightRecord>>>,
                 more: seq<Entry<seq<HeightRecord>>>, c: string, x: HeightRecord)
    requires n < |keys| && StatesListed(kv, keys[..n], groups) && ValidClientId(c)
    requires keys[n] == ConsensusKey(c, x.height) && keys[n] in kv && kv[keys[n]] == ConsensusValue(x.record)
    requires forall d, y :: Lists(more, d, y) <==> Lists(groups, d, y) || (d == c && y == x)
    ensures StatesListed(kv, keys[..n + 1], more)
  {
    hide ConsensusKey, ValidClientId, Lists;
    assert keys[..n + 1] == keys[..n] + [keys[n]];
    forall d, y: HeightRecord | ValidClientId(d) && ConsensusKey(d, y.height) == keys[n]
      ensures d == c && y.height == x.height
    {
      ConsensusKeysDiffer(c, x.height, d, y.height);
    }
  }

  lemma NotYetListed(kv: map<string, Value>, keys: seq<string>, n: nat, groups: seq<Entry<seq<HeightRecord>>>, g: nat, h: Height)
    requires n < |keys| && StatesListed(kv, keys[..n], groups) && g < |groups|
    requires keys[n] == ConsensusKey(groups[g].id, h) && keys[n] !in keys[..n]
    ensures forall i :: 0 <= i < |groups[g].value| ==> groups[g].value[i].height != h
  {
    forall i | 0 <= i < |groups[g].value|
      ensures groups[g].value[i].height != h
    {
      assert Lists(groups, groups[g].id, groups[g].value[i]);
    }
  }

  /** The index map knows the group of every client seen so far. */
  ghost predicate Indexes(index: map<string, nat>, groups: seq<Entry<seq<HeightRecord>>>) {
    && (forall c :: c in index ==> index[c] < |groups| && groups[index[c]].id == c)
    && (forall g :: 0 <= g < |groups| ==> groups[g].id in index && index[groups[g].id] == g)
  }

  /** `GetAllConsensusStates`: the grouping loop with its index map. */
  method GetAllConsensusStates(kv: map<string, Value>, keys: seq<string>) returns (groups: seq<Entry<seq<HeightRecord>>>)
    requires Tidy(kv) && Iterates(keys, kv)
    ensures StatesListed(kv, keys, groups) && EachOnce(groups) && StrictlySorted(groups)
  {
    hide Tidy, Iterates, StatesListed, Split, Lists, ConsensusKey, ParseHeight, Less;
    groups := [];
    var index: map<string, nat> := map[];
    assert StatesListed(kv, keys[..0], groups) by { NothingListed(kv, keys); }
    for n := 0 to |keys|
      invariant StatesListed(kv, keys[..n], groups) && EachOnce(groups) && Indexes(index, groups)
    {
      var keySplit := Split(keys[n], '/');
      if |keySplit| != 4 || keySplit[2] != "consensusStates" {
        SkippedKey(kv, keys, n, groups);
        continue;
      }
      ReadKey(kv, keys, n);
      var id := keySplit[1];
      var cs := HeightRecord(ParseHeight(keySplit[3]).value, kv[keys[n]].record);
      ghost var was := groups;
      if id in index {
        var g := index[id];
        NotYetListed(kv, keys, n, groups, g, cs.height);
        groups := groups[g := Entry(groups[g].id, groups[g].value + [cs])];
        forall d, y
          ensures Lists(groups, d, y) <==> Lists(was, d, y) || (d == id && y == cs)
        {
          AppendLists(was, g, cs, d, y);
        }
        OnceAfterAppend(was, g, cs);
      } else {
        groups := groups + [Entry(id, [cs])];
        index := index[id := |groups| - 1];
        forall d, y
          ensures Lists(groups, d, y) <==> Lists(was, d, y) || (d == id && y == cs)
        {
          NewGroupLists(was, id, cs, d, y);
        }
      }
      AddedKey(kv, keys, n, was, groups, id, cs);
    }
    assert keys[..|keys|] == keys;
    SortSorts(groups);
    SortedStates(kv, keys, groups);
    groups := Sort(groups);
  }

  lemma OnceAfterAppend(groups: seq<Entry<seq<HeightRecord>>>, g: nat, x: HeightRecord)
    requires EachOnce(groups) && g < |groups| && forall i :: 0 <= i < |groups[g].value| ==> groups[g].value[i].height != x.height
    ensures EachOnce(groups[g := Entry(groups[g].id, groups[g].value + [x])])
  {
  }

  lemma SortedStates(kv: map<string, Value>, keys: seq<string>, groups: seq<Entry<seq<HeightRecord>>>)
    requires StatesListed(kv, keys, groups) && EachOnce(groups) && StrictlySorted(Sort(groups))
    ensures StatesListed(kv, keys, Sort(groups)) && EachOnce(Sort(groups))
  {
    hide ConsensusKey, ValidClientId, Less;
    var sorted := Sort(groups);
    forall c, x
      ensures Lists(sorted, c, x) <==> Lists(groups, c, x)
    {
      SortLists(groups, c, x);
    }
    forall i, j | 0 <= i < j < |sorted|
      ensures sorted[i].id != sorted[j].id
    {
      LessTotal(sorted[i].id, sorted[j].id);
    }
    forall g | 0 <= g < |sorted|
      ensures sorted[g] in groups
    {
      SortMember(groups, sorted[g]);
    }
  }

  lemma SortLists(groups: seq<Entry<seq<HeightRecord>>>, c: string, x: HeightRecord)
    ensures Lists(Sort(groups), c, x) <==> Lists(groups, c, x)
  {
    var sorted := Sort(groups);
    if j :| 0 <= j < |groups| && groups[j].id == c && x in groups[j].value {
      SortMember(groups, groups[j]);
      var i :| 0 <= i < |sorted| && sorted[i] == groups[j];
    }
    if j :| 0 <= j < |sorted| && sorted[j].id == c && x in sorted[j].value {
      SortMember(groups, sorted[j]);
      var i :| 0 <= i < |groups| && groups[i] == sorted[j];
    }
  }

  // ---------------------------------------------------------------- export and import

  /** A genesis state that `ExportGenesis` may produce; the metadata is up to the clients. */
  ghost predicate Exported(r: Registry, keys: seq<string>, gs: GenesisState) {
    && ClientsListed(r.kv, keys, gs.clients) && StrictlySorted(gs.clients)
    && StatesListed(r.kv, keys, gs.consensus) && EachOnce(gs.consensus) && StrictlySorted(gs.consensus)
    && gs.allowed == r.allowed && gs.next == r.next && !gs.createLocalhost
  }

  method ExportGenesis(k: Keeper, keys: seq<string>, metadata: seq<Entry<seq<Metadata>>>) returns (gs: GenesisState)
    requires Tidy(k.kv) && Iterates(keys, k.kv)
    ensures Exported(k.View(), keys, gs) && gs.metadata == metadata
  {
    hide Tidy, Iterates, ClientsListed, StatesListed, EachOnce, StrictlySorted;
    var clients := GetAllGenesisClients(k.kv, keys);
    var consensus := GetAllConsensusStates(k.kv, keys);
    return GenesisState(clients, consensus, metadata, k.allowed, false, k.nextClientSequence);
  }

  /** The loops of `InitGenesis`: metadata first, then clients, then consensus states. */
  method ImportGenesis(k: Keeper, gs: GenesisState) returns (ok: bool)
    requires k.kv == map[]
    modifies k
    ensures ok <==> InitGenesis(gs).Some?
    ensures ok ==> k.View() == InitGenesis(gs).value
  {
    hide Put;
    k.allowed := gs.allowed;
    SetAllClientMetadata(k, gs.metadata);
    ghost var kv1 := k.kv;
    assert gs.clients[0..] == gs.clients;
    for i := 0 to |gs.clients|
      invariant k.allowed == gs.allowed
      invariant WithClients(kv1, gs.clients) == WithClients(k.kv, gs.clients[i..])
      invariant forall j :: 0 <= j < i ==> gs.clients[j].value.clientType in gs.allowed
    {
      if gs.clients[i].value.clientType !in gs.allowed {
        return false;
      }
      assert gs.clients[i..][1..] == gs.clients[i + 1..];
      k.SetClientState(gs.clients[i].id, gs.clients[i].value);
    }
    ghost var kv2 := k.kv;
    assert gs.consensus[0..] == gs.consensus;
    for i := 0 to |gs.consensus|
      invariant k.allowed == gs.allowed
      invariant WithGroups(kv2, gs.consensus) == WithGroups(k.kv, gs.consensus[i..])
    {
      SetConsensusStates(k, gs.consensus[i].id, gs.consensus[i].value);
      assert gs.consensus[i..][1..] == gs.consensus[i + 1..];
    }
    k.nextClientSequence := gs.next;
    return true;
  }

  method SetConsensusStates(k: Keeper, id: string, records: seq<HeightRecord>)
    modifies k`kv
    ensures k.kv == WithRecords(old(k.kv), id, records)
  {
    hide Put;
    assert records[0..] == records;
    for i := 0 to |records|
      invariant WithRecords(old(k.kv), id, records) == WithRecords(k.kv, id, records[i..])
    {
      assert records[i..][1..] == records[i + 1..];
      k.SetClientConsensusState(id, records[i].height, records[i].record);
    }
  }

  method SetAllClientMetadata(k: Keeper, groups: seq<Entry<seq<Metadata>>>)
    modifies k`kv
    ensures k.kv == WithAllMetadata(old(k.kv), groups)
  {
    assert groups[0..] == groups;
    for i := 0 to |groups|
      invariant WithAllMetadata(old(k.kv), groups) == WithAllMetadata(k.kv, groups[i..])
    {
      SetClientMetadata(k, groups[i].id, groups[i].value);
      assert groups[i..][1..] == groups[i + 1..];
    }
  }

  method SetClientMetadata(k: Keeper, id: string, entries: seq<Metadata>)
    modifies k`kv
    ensures k.kv == WithMetadata(old(k.kv), id, entries)
  {
    hide Put;
    assert entries[0..] == entries;
    for i := 0 to |entries|
      invariant WithMetadata(old(k.kv), id, entries) == WithMetadata(k.kv, id, entries[i..])
    {
      assert entries[i..][1..] == entries[i + 1..];
      k.kv := Put(k.kv, id, entries[i].key, MetaValue(entries[i].bytes));
    }
  }

  // ---------------------------------------------------------------- the round trip

  /** Metadata that stays clear of the keeper's own keys. */
  ghost predicate KeepsOut(entries: seq<Metadata>) {
    forall i :: 0 <= i < |entries| ==> entries[i].key != STATE && forall h :: entries[i].key != ConsensusStatePath(h)
  }

  ghost predicate AllKeepOut(groups: seq<Entry<seq<Metadata>>>) {
    forall i :: 0 <= i < |groups| ==> KeepsOut(groups[i].value)
  }

  lemma {:induction false} MetadataAt(kv: map<string, Value>, id: string, entries: seq<Metadata>, c: string, h: Height)
    requires ValidClientId(id) && ValidClientId(c) && KeepsOut(entries)
    ensures var m := WithMetadata(kv, id, entries); SameAt(kv, m, StateKey(c)) && SameAt(kv, m, ConsensusKey(c, h))
    decreases |entries|
  {
    hide ValidClientId, ClientPrefix, ConsensusStatePath, StateKey, ConsensusKey;
    if entries != [] {
      KeyParts(c, h);
      ClientStoresAreIsolated(id, c, entries[0].key, STATE);
      ClientStoresAreIsolated(id, c, entries[0].key, ConsensusStatePath(h));
      MetadataAt(Put(kv, id, entries[0].key, MetaValue(entries[0].bytes)), id, entries[1..], c, h);
    }
  }

  lemma {:induction false} AllMetadataAt(kv: map<string, Value>, groups: seq<Entry<seq<Metadata>>>, c: string, h: Height)
    requires ValidIds(groups) && ValidClientId(c) && AllKeepOut(groups)
    ensures var m := WithAllMetadata(kv, groups); SameAt(kv, m, StateKey(c)) && SameAt(kv, m, ConsensusKey(c, h))
    decreases |groups|
  {
    hide ValidClientId, StateKey, ConsensusKey, KeepsOut;
    if groups != [] {
      MetadataAt(kv, groups[0].id, groups[0].value, c, h);
      AllMetadataAt(WithMetadata(kv, groups[0].id, groups[0].value), groups[1..], c, h);
    }
  }

  lemma StoredKinds(kv: map<string, Value>, c: string, h: Height)
    requires Tidy(kv) && ValidClientId(c)
    ensures StateKey(c) in kv ==> kv[StateKey(c)].ClientValue?
    ensures ConsensusKey(c, h) in kv ==> kv[ConsensusKey(c, h)].ConsensusValue?
  {
    hide ValidClientId, StateKey, ConsensusKey, ParseHeight;
    StateKeySplit(c);
    ConsensusKeySplit(c, h);
    assert StateKey(c) in kv ==> TidyKey(kv, StateKey(c));
    assert ConsensusKey(c, h) in kv ==> TidyKey(kv, ConsensusKey(c, h));
  }

  lemma ListedIdsAreValid(kv: map<string, Value>, keys: seq<string>, gs: GenesisState)
    requires ClientsListed(kv, keys, gs.clients) && StatesListed(kv, keys, gs.consensus) && EachOnce(gs.consensus)
    ensures ValidIds(gs.clients) && ValidIds(gs.consensus)
  {
    hide ValidClientId, StateKey, ConsensusKey;
    forall i | 0 <= i < |gs.clients|
      ensures ValidClientId(gs.clients[i].id)
    {
      assert Entry(gs.clients[i].id, gs.clients[i].value) in gs.clients;
    }
    forall i | 0 <= i < |gs.consensus|
      ensures ValidClientId(gs.consensus[i].id)
    {
      assert Lists(gs.consensus, gs.consensus[i].id, gs.consensus[i].value[0]);
    }
  }

  lemma ImportedState(r: Registry, keys: seq<string>, gs: GenesisState, kv0: map<string, Value>, c: string)
    requires Tidy(r.kv) && Iterates(keys, r.kv) && ClientsListed(r.kv, keys, gs.clients) && ValidIds(gs.clients) && ValidIds(gs.consensus) && ValidClientId(c)
    ensures var m := WithGroups(WithClients(kv0, gs.clients), gs.consensus);
            SameAt(if StateKey(c) in r.kv then r.kv else kv0, m, StateKey(c))
  {
    hide ValidClientId, Path, Tidy, WithClients, WithGroups, ListsSome;
    StoredKinds(r.kv, c, Height(0, 0));
    ConsensusKeyValid(c, Height(0, 0));
    ClientsAt(kv0, gs.clients, ClientState(c));
    GroupsAt(WithClients(kv0, gs.clients), gs.consensus, ClientState(c));
    if StateKey(c) in r.kv {
      assert Entry(c, r.kv[StateKey(c)].client) in gs.clients;
    }
  }

  lemma ImportedConsensus(r: Registry, keys: seq<string>, gs: GenesisState, kv0: map<string, Value>, c: string, h: Height)
    requires Tidy(r.kv) && Iterates(keys, r.kv) && StatesListed(r.kv, keys, gs.consensus) && ValidIds(gs.clients) && ValidIds(gs.consensus) && ValidClientId(c)
    ensures var m := WithGroups(WithClients(kv0, gs.clients), gs.consensus);
            SameAt(if ConsensusKey(c, h) in r.kv then r.kv else kv0, m, ConsensusKey(c, h))
  {
    hide ValidClientId, Path, Tidy, WithClients, WithGroups, Lists;
    StoredKinds(r.kv, c, h);
    ConsensusKeyValid(c, h);
    ClientsAt(kv0, gs.clients, ConsensusState(c, h));
    GroupsAt(WithClients(kv0, gs.clients), gs.consensus, ConsensusState(c, h));
    if ConsensusKey(c, h) in r.kv {
      assert Lists(gs.consensus, c, HeightRecord(h, r.kv[ConsensusKey(c, h)].record));
    }
  }

  /** Importing what was exported restores the counter, the allow-list and every client state and
      consensus state, whatever metadata comes along; and with metadata that stays clear of the
      keeper's keys nothing else appears under them. */
  lemma GenesisRoundTrip(r: Registry, keys: seq<string>, gs: GenesisState, c: string, h: Height)
    requires Tidy(r.kv) && Iterates(keys, r.kv) && Exported(r, keys, gs) && ValidIds(gs.metadata) && ValidClientId(c)
    requires InitGenesis(gs).Some?
    ensures var s := InitGenesis(gs).value;
            && s.next == r.next && s.allowed == r.allowed
            && (StateKey(c) in r.kv ==> SameAt(r.kv, s.kv, StateKey(c)))
            && (ConsensusKey(c, h) in r.kv ==> SameAt(r.kv, s.kv, ConsensusKey(c, h)))
            && (AllKeepOut(gs.metadata) ==> SameAt(r.kv, s.kv, StateKey(c)) && SameAt(r.kv, s.kv, ConsensusKey(c, h)))
  {
    hide ValidClientId, StateKey, ConsensusKey, Tidy, Iterates, ClientsListed, StatesListed, StrictlySorted, EachOnce, AllKeepOut,
      WithClients, WithGroups, WithAllMetadata, AllAllowed, ValidIds;
    ListedIdsAreValid(r.kv, keys, gs);
    var kv0 := WithAllMetadata(map[], gs.metadata);
    ImportedState(r, keys, gs, kv0, c);
    ImportedConsensus(r, keys, gs, kv0, c, h);
    if AllKeepOut(gs.metadata) {
      AllMetadataAt(map[], gs.metadata, c, h);
    }
  }

  /** The import goes through exactly when every stored client's type is on the allow-list. */
  lemma ImportAcceptsAllowedTypes(r: Registry, keys: seq<string>, gs: GenesisState)
    requires Tidy(r.kv) && Iterates(keys, r.kv) && Exported(r, keys, gs)
    ensures InitGenesis(gs).Some? <==>
            forall c :: ValidClientId(c) && StateKey(c) in r.kv ==> GetClient(r.kv, c).Some? && GetClient(r.kv, c).value.clientType in r.allowed
  {
    hide ValidClientId, Path, Tidy, StatesListed, StrictlySorted, EachOnce;
    forall c | ValidClientId(c) && StateKey(c) in r.kv
      ensures GetClient(r.kv, c).Some? && Entry(c, GetClient(r.kv, c).value) in gs.clients
    {
      StoredKinds(r.kv, c, Height(0, 0));
    }
    forall i | 0 <= i < |gs.clients|
      ensures ValidClientId(gs.clients[i].id) && StateKey(gs.clients[i].id) in r.kv && GetClient(r.kv, gs.clients[i].id) == Some(gs.clients[i].value)
    {
      assert Entry(gs.clients[i].id, gs.clients[i].value) in gs.clients;
    }
  }
}
