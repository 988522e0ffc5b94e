/** `GenesisState.Validate` (modules/core/02-client/types/genesis.go), and when a genesis that it
    accepts guarantees fresh client identifiers. */
module GenesisValidation {
  import opened Basics
  import opened Strings
  import opened Identifiers
  import opened Heights
  import opened HostKeys
  import opened ClientIds
  import opened Clients
  import opened ClientGenesis

  // ---------------------------------------------------------------- what validation asks

  predicate ClientEntryOk(gs: GenesisState, e: Entry<LightClient>, clientOk: LightClient -> bool) {
    && ValidClientId(e.id)
    && e.value.clientType in gs.allowed
    && clientOk(e.value)
    && ParseClientIdentifier(e.id).Some?
    && ParseClientIdentifier(e.id).value.0 == e.value.clientType
    && ValidateClientType(e.value.clientType)
  }

  predicate SequenceOk(gs: GenesisState, e: Entry<LightClient>)
    requires ParseClientIdentifier(e.id).Some?
  {
    var n := ParseClientIdentifier(e.id).value.1;
    n == 0 || n < gs.next
  }

  predicate IsClient(gs: GenesisState, id: string) {
    exists i :: 0 <= i < |gs.clients| && gs.clients[i].id == id
  }

  predicate GroupOk(gs: GenesisState, g: Entry<seq<HeightRecord>>, recordOk: ConsensusRecord -> bool) {
    IsClient(gs, g.id) &&
    forall i :: 0 <= i < |g.value| ==>
      !g.value[i].height.IsZero() && recordOk(g.value[i].record)
      && ParseClientIdentifier(g.id).Some? && g.value[i].record.clientType == ParseClientIdentifier(g.id).value.0
  }

  predicate MetadataOk(gs: GenesisState, g: Entry<seq<Metadata>>) {
    IsClient(gs, g.id) && forall i :: 0 <= i < |g.value| ==> g.value[i].key != "" && g.value[i].bytes != ""
  }

  predicate ValidGenesis(gs: GenesisState, clientOk: LightClient -> bool, recordOk: ConsensusRecord -> bool) {
    && (forall i :: 0 <= i < |gs.allowed| ==> !Blank(gs.allowed[i]))
    && (forall i :: 0 <= i < |gs.clients| ==> ClientEntryOk(gs, gs.clients[i], clientOk) && SequenceOk(gs, gs.clients[i]))
    && (forall i :: 0 <= i < |gs.consensus| ==> GroupOk(gs, gs.consensus[i], recordOk))
    && (forall i :: 0 <= i < |gs.metadata| ==> MetadataOk(gs, gs.metadata[i]))
    && (gs.createLocalhost ==> LOCALHOST in gs.allowed)
  }

  // ---------------------------------------------------------------- the loops

  /** The client loop: it collects the types of the clients and the largest number used. */
  method CheckClients(gs: GenesisState, clientOk: LightClient -> bool) returns (ok: bool, maxSequence: nat, validClients: map<string, string>)
    ensures ok <==> forall i :: 0 <= i < |gs.clients| ==> ClientEntryOk(gs, gs.clients[i], clientOk)
    ensures ok ==> (maxSequence != 0 && maxSequence >= gs.next <==> exists i :: 0 <= i < |gs.clients| && !SequenceOk(gs, gs.clients[i]))
    ensures ok ==> forall id :: id in validClients <==> IsClient(gs, id)
    ensures ok ==> forall id :: id in validClients ==> ParseClientIdentifier(id).Some? && validClients[id] == ParseClientIdentifier(id).value.0
  {
    hide ValidClientId, ParseClientIdentifier, ValidateClientType;
    maxSequence, validClients := 0, map[];
    for i := 0 to |gs.clients|
      invariant forall j :: 0 <= j < i ==> ClientEntryOk(gs, gs.clients[j], clientOk)
      invariant forall j :: 0 <= j < i ==> ParseClientIdentifier(gs.clients[j].id).value.1 <= maxSequence
      invariant maxSequence == 0 || exists j :: 0 <= j < i && ParseClientIdentifier(gs.clients[j].id).value.1 == maxSequence
      invariant forall id :: id in validClients <==> exists j :: 0 <= j < i && gs.clients[j].id == id
      invariant forall id :: id in validClients ==> ParseClientIdentifier(id).Some? && validClients[id] == ParseClientIdentifier(id).value.0
    {
      var e := gs.clients[i];
      if !ValidClientId(e.id) || e.value.clientType !in gs.allowed || !clientOk(e.value) {
        return false, 0, map[];
      }
      var parsed := ParseClientIdentifier(e.id);
      if parsed.None? || parsed.value.0 != e.value.clientType || !ValidateClientType(parsed.value.0) {
        return false, 0, map[];
      }
      if parsed.value.1 > maxSequence {
        maxSequence := parsed.value.1;
      }
      validClients := validClients[e.id := e.value.clientType];
    }
    ok := true;
  }

  method Validate(gs: GenesisState, clientOk: LightClient -> bool, recordOk: ConsensusRecord -> bool) returns (ok: bool)
    ensures ok <==> ValidGenesis(gs, clientOk, recordOk)
  {
    hide ClientEntryOk, SequenceOk, ParseClientIdentifier, Blank, IsClient, Height.IsZero;
    for i := 0 to |gs.allowed|
      invariant forall j :: 0 <= j < i ==> !Blank(gs.allowed[j])
    {
      if Blank(gs.allowed[i]) {
        return false;
      }
    }
    assert forall i, f :: 0 <= i < |gs.clients| && ClientEntryOk(gs, gs.clients[i], f) ==> ParseClientIdentifier(gs.clients[i].id).Some? by {
      EntryParses(gs);
    }
    var clientsOk, maxSequence, validClients := CheckClients(gs, clientOk);
    if !clientsOk {
      return false;
    }
    for i := 0 to |gs.consensus|
      invariant forall j :: 0 <= j < i ==> GroupOk(gs, gs.consensus[j], recordOk)
    {
      if gs.consensus[i].id !in validClients {
        return false;
      }
      for k := 0 to |gs.consensus[i].value|
        invariant forall j :: 0 <= j < k ==>
          var x := gs.consensus[i].value[j];
          !x.height.IsZero() && recordOk(x.record) && x.record.clientType == validClients[gs.consensus[i].id]
      {
        var x := gs.consensus[i].value[k];
        if x.height.IsZero() || !recordOk(x.record) || validClients[gs.consensus[i].id] != x.record.clientType {
          return false;
        }
      }
    }
    for i := 0 to |gs.metadata|
      invariant forall j :: 0 <= j < i ==> MetadataOk(gs, gs.metadata[j])
    {
      if gs.metadata[i].id !in validClients {
        return false;
      }
      for k := 0 to |gs.metadata[i].value|
        invariant forall j :: 0 <= j < k ==> gs.metadata[i].value[j].key != "" && gs.metadata[i].value[j].bytes != ""
      {
        if gs.metadata[i].value[k].key == "" || gs.metadata[i].value[k].bytes == "" {
          return false;
        }
      }
    }
    if gs.createLocalhost && LOCALHOST !in gs.allowed {
      return false;
    }
    return !(maxSequence != 0 && maxSequence >= gs.next);
  }

  lemma EntryParses(gs: GenesisState)
    ensures forall i, f :: 0 <= i < |gs.clients| && ClientEntryOk(gs, gs.clients[i], f) ==> ParseClientIdentifier(gs.clients[i].id).Some?
  {
  }

  // ---------------------------------------------------------------- which identifiers are in use

  ghost predicate OwnedKey(k: string, ids: set<string>) {
    exists c :: c in ids && HasPrefix(k, ClientPrefix(c))
  }

  ghost predicate Owned(kv: map<string, Value>, ids: set<string>) {
    forall k :: k in kv ==> OwnedKey(k, ids)
  }

  lemma PutOwned(kv: map<string, Value>, ids: set<string>, id: string, x: string, v: Value)
    requires Owned(kv, ids) && id in ids
    ensures Owned(Put(kv, id, x, v), ids)
  {
    assert HasPrefix(ClientPrefix(id) + x, ClientPrefix(id));
    hide ClientPrefix, HasPrefix;
    assert OwnedKey(ClientPrefix(id) + x, ids);
  }

  lemma {:induction false} MetadataOwned(kv: map<string, Value>, ids: set<string>, id: string, entries: seq<Metadata>)
    requires Owned(kv, ids) && id in ids
    ensures Owned(WithMetadata(kv, id, entries), ids)
    decreases |entries|
  {
    hide Put, Owned;
    if entries != [] {
      PutOwned(kv, ids, id, entries[0].key, MetaValue(entries[0].bytes));
      MetadataOwned(Put(kv, id, entries[0].key, MetaValue(entries[0].bytes)), ids, id, entries[1..]);
    }
  }

  lemma {:induction false} AllMetadataOwned(kv: map<string, Value>, ids: set<string>, groups: seq<Entry<seq<Metadata>>>)
    requires Owned(kv, ids) && forall i :: 0 <= i < |groups| ==> groups[i].id in ids
    ensures Owned(WithAllMetadata(kv, groups), ids)
    decreases |groups|
  {
    hide Owned;
    if groups != [] {
      MetadataOwned(kv, ids, groups[0].id, groups[0].value);
      AllMetadataOwned(WithMetadata(kv, groups[0].id, groups[0].value), ids, groups[1..]);
    }
  }

  lemma {:induction false} ClientsOwned(kv: map<string, Value>, ids: set<string>, clients: seq<Entry<LightClient>>)
    requires Owned(kv, ids) && forall i :: 0 <= i < |clients| ==> clients[i].id in ids
    ensures Owned(WithClients(kv, clients), ids)
    decreases |clients|
  {
    hide Put, Owned;
    if clients != [] {
      PutOwned(kv, ids, clients[0].id, STATE, ClientValue(clients[0].value));
      ClientsOwned(Put(kv, clients[0].id, STATE, ClientValue(clients[0].value)), ids, clients[1..]);
    }
  }

  lemma {:induction false} RecordsOwned(kv: map<string, Value>, ids: set<string>, id: string, records: seq<HeightRecord>)
    requires Owned(kv, ids) && id in ids
    ensures Owned(WithRecords(kv, id, records), ids)
    decreases |records|
  {
    hide Put, Owned, ConsensusStatePath;
    if records != [] {
      var x, v := ConsensusStatePath(records[0].height), ConsensusValue(records[0].record);
      PutOwned(kv, ids, id, x, v);
      RecordsOwned(Put(kv, id, x, v), ids, id, records[1..]);
    }
  }

  lemma {:induction false} GroupsOwned(kv: map<string, Value>, ids: set<string>, groups: seq<Entry<seq<HeightRecord>>>)
    requires Owned(kv, ids) && forall i :: 0 <= i < |groups| ==> groups[i].id in ids
    ensures Owned(WithGroups(kv, groups), ids)
    decreases |groups|
  {
    hide Owned;
    if groups != [] {
      RecordsOwned(kv, ids, groups[0].id, groups[0].value);
      GroupsOwned(WithRecords(kv, groups[0].id, groups[0].value), ids, groups[1..]);
    }
  }

  ghost function GenesisIds(gs: GenesisState): set<string> {
    set i | 0 <= i < |gs.clients| :: gs.clients[i].id
  }

  lemma ImportIsOwned(gs: GenesisState, clientOk: LightClient -> bool, recordOk: ConsensusRecord -> bool)
    requires ValidGenesis(gs, clientOk, recordOk)
    ensures InitGenesis(gs).Some? && Owned(InitGenesis(gs).value.kv, GenesisIds(gs))
  {
    hide ValidClientId, ParseClientIdentifier, ValidateClientType, Blank;
    var ids := GenesisIds(gs);
    AllMetadataOwned(map[], ids, gs.metadata);
    ClientsOwned(WithAllMetadata(map[], gs.metadata), ids, gs.clients);
    GroupsOwned(WithClients(WithAllMetadata(map[], gs.metadata), gs.clients), ids, gs.consensus);
  }

  lemma OwnedIsClient(kv: map<string, Value>, ids: set<string>, id: string)
    requires Owned(kv, ids) && (forall c :: c in ids ==> ValidClientId(c)) && ValidClientId(id) && Used(kv, id)
    ensures id in ids
  {
    hide ValidClientId, ClientPrefix;
    var x :| ClientPrefix(id) + x in kv;
    var k := ClientPrefix(id) + x;
    assert OwnedKey(k, ids);
    var c :| c in ids && HasPrefix(k, ClientPrefix(c));
    ClientStoresAreIsolated(id, c, x, k[|ClientPrefix(c)|..]);
  }

  /** After the import, exactly the genesis clients have anything stored. */
  lemma UsedAreClients(gs: GenesisState, clientOk: LightClient -> bool, recordOk: ConsensusRecord -> bool, id: string)
    requires ValidGenesis(gs, clientOk, recordOk) && ValidClientId(id)
    ensures InitGenesis(gs).Some? && (Used(InitGenesis(gs).value.kv, id) <==> IsClient(gs, id))
  {
    ImportIsOwned(gs, clientOk, recordOk);
    GenesisIdsValid(gs, clientOk, recordOk);
    hide ValidClientId, ValidGenesis, Owned, Used, WithGroups, WithClients, WithAllMetadata, Path;
    var kv := InitGenesis(gs).value.kv;
    if Used(kv, id) {
      OwnedIsClient(kv, GenesisIds(gs), id);
    }
    if IsClient(gs, id) {
      var i :| 0 <= i < |gs.clients| && gs.clients[i].id == id;
      assert Entry(id, gs.clients[i].value) in gs.clients;
      var kv0 := WithAllMetadata(map[], gs.metadata);
      ConsensusKeyValid(id, Height(0, 0));
      ClientsAt(kv0, gs.clients, ClientState(id));
      GroupsAt(WithClients(kv0, gs.clients), gs.consensus, ClientState(id));
      StateKeyUsed(kv, id);
    }
  }

  lemma StateKeyUsed(kv: map<string, Value>, id: string)
    requires Path(ClientState(id)) in kv
    ensures Used(kv, id)
  {
    assert Path(ClientState(id)) == ClientPrefix(id) + STATE;
  }

  lemma GenesisIdsValid(gs: GenesisState, clientOk: LightClient -> bool, recordOk: ConsensusRecord -> bool)
    requires ValidGenesis(gs, clientOk, recordOk)
    ensures ValidIds(gs.clients) && ValidIds(gs.consensus) && forall c :: c in GenesisIds(gs) ==> ValidClientId(c)
  {
    hide ValidClientId, ParseClientIdentifier, ValidateClientType, Blank;
  }

  lemma MetadataIdsValid(gs: GenesisState, clientOk: LightClient -> bool, recordOk: ConsensusRecord -> bool)
    requires ValidGenesis(gs, clientOk, recordOk)
    ensures ValidIds(gs.metadata)
  {
    hide ValidClientId, ParseClientIdentifier, ValidateClientType, Blank;
  }

  // ---------------------------------------------------------------- freshness

  /** Validation guarantees that the counter is above everything in the store if and only if the
      counter is positive or no client carries the number zero: the check on the largest number is
      skipped when that number is zero. */
  lemma ValidatedGenesisIsBelow(gs: GenesisState, clientOk: LightClient -> bool, recordOk: ConsensusRecord -> bool)
    requires ValidGenesis(gs, clientOk, recordOk) && gs.next <= MAX_UINT64
    ensures InitGenesis(gs).Some?
    ensures Below(InitGenesis(gs).value) <==>
            gs.next > 0 || forall i, t :: 0 <= i < |gs.clients| ==> gs.clients[i].id != FormatClientIdentifier(t, 0)
  {
    hide ValidClientId, ParseClientIdentifier, ValidateClientType, Blank, Used, FormatClientIdentifier;
    ImportIsOwned(gs, clientOk, recordOk);
    var r := InitGenesis(gs).value;
    if gs.next > 0 || forall i, t :: 0 <= i < |gs.clients| ==> gs.clients[i].id != FormatClientIdentifier(t, 0) {
      forall t, n: nat | ValidClientId(FormatClientIdentifier(t, n)) && Used(r.kv, FormatClientIdentifier(t, n))
        ensures n < r.next
      {
        UsedAreClients(gs, clientOk, recordOk, FormatClientIdentifier(t, n));
        var i :| 0 <= i < |gs.clients| && gs.clients[i].id == FormatClientIdentifier(t, n);
        ParsedNumber(gs.clients[i].id, t, n);
      }
    } else {
      var i, t :| 0 <= i < |gs.clients| && gs.clients[i].id == FormatClientIdentifier(t, 0);
      UsedAreClients(gs, clientOk, recordOk, gs.clients[i].id);
    }
  }

  /** One client with the number zero, and a counter that starts at zero. */
  function ZeroGenesis(t: string, c: LightClient): GenesisState {
    GenesisState([Entry(FormatClientIdentifier(t, 0), c)], [], [], [t], false, 0)
  }

  lemma ZeroGenesisIsAccepted(t: string, c: LightClient)
    requires ValidateClientType(t) && c.clientType == t
    ensures ValidGenesis(ZeroGenesis(t, c), x => true, x => true) && ValidClientId(FormatClientIdentifier(t, 0))
  {
    ValidatedTypesGiveValidIds(t, 0);
    assert !Blank(t);
    hide ParseClientIdentifier, ValidateClientType, ValidClientId, Blank, FormatClientIdentifier;
  }

  /** For every client type there is a genesis that passes validation and after which the first
      created client gets an identifier that is already taken. */
  lemma AcceptedGenesisCanCollide(t: string, c: LightClient)
    requires ValidateClientType(t) && c.clientType == t
    ensures var gs := ZeroGenesis(t, c);
            && ValidGenesis(gs, x => true, x => true)
            && InitGenesis(gs).Some? && Used(InitGenesis(gs).value.kv, FormatClientIdentifier(t, InitGenesis(gs).value.next))
  {
    hide ValidGenesis, ValidClientId, ValidateClientType, Used, FormatClientIdentifier;
    var gs := ZeroGenesis(t, c);
    ZeroGenesisIsAccepted(t, c);
    UsedAreClients(gs, x => true, x => true, FormatClientIdentifier(t, 0));
    assert gs.clients[0].id == FormatClientIdentifier(t, 0);
  }

  /** From every accepted genesis with a positive counter, or without clients, over every run that
      creates too few clients to wrap the counter: the next identifier is one under which nothing is
      stored. */
  lemma ValidatedRunsStayFresh(gs: GenesisState, clientOk: LightClient -> bool, recordOk: ConsensusRecord -> bool, steps: seq<Step>, t: string)
    requires ValidGenesis(gs, clientOk, recordOk) && (gs.next > 0 || gs.clients == []) && gs.next <= MAX_UINT64 && ValidateClientType(t)
    requires InitGenesis(gs).Some? ==> gs.next + Creations(InitGenesis(gs).value, steps) <= MAX_UINT64
    ensures InitGenesis(gs).Some?
    ensures var r := Run(InitGenesis(gs).value, steps); !Used(r.kv, FormatClientIdentifier(t, r.next))
  {
    hide ValidGenesis, Used, FormatClientIdentifier, ValidateClientType, Below, Run, Creations;
    ValidatedGenesisIsBelow(gs, clientOk, recordOk);
    IdentifiersAreFresh(InitGenesis(gs).value, steps, t);
  }

  // ---------------------------------------------------------------- frozen clients after genesis

  /** A frozen client of an accepted genesis can be generated again exactly if the counter is zero
      and the client carries the number zero. */
  lemma FrozenAhead(gs: GenesisState, clientOk: LightClient -> bool, recordOk: ConsensusRecord -> bool, id: string)
    requires ValidGenesis(gs, clientOk, recordOk) && ValidClientId(id)
    requires InitGenesis(gs).Some? && IsFrozen(InitGenesis(gs).value.kv, id)
    ensures Ahead(id, gs.next) ==> gs.next == 0 && exists t :: t != LOCALHOST && id == FormatClientIdentifier(t, 0)
    ensures exists i :: 0 <= i < |gs.clients| && gs.clients[i].id == id && gs.clients[i].value.clientType in gs.allowed
                        && ParseClientIdentifier(id) == Some((gs.clients[i].value.clientType, ParseClientIdentifier(id).value.1))
                        && ValidateClientType(gs.clients[i].value.clientType)
  {
    hide ValidClientId, ParseClientIdentifier, ValidateClientType, Blank, Used, FormatClientIdentifier, InitGenesis, GetClient;
    ClientIsUsed(InitGenesis(gs).value.kv, id);
    UsedAreClients(gs, clientOk, recordOk, id);
    var i :| 0 <= i < |gs.clients| && gs.clients[i].id == id;
    assert ClientEntryOk(gs, gs.clients[i], clientOk) && SequenceOk(gs, gs.clients[i]);
  }

  /** Over all accepted geneses: every frozen client is stable if and only if the counter is positive
      or no frozen client that can be created carries the number zero. Whether the allow-list may
      change makes no difference, as genesis clients are on it. */
  lemma FrozenStableAfterGenesis(gs: GenesisState, clientOk: LightClient -> bool, recordOk: ConsensusRecord -> bool, params: bool)
    requires ValidGenesis(gs, clientOk, recordOk) && gs.next <= MAX_UINT64
    ensures InitGenesis(gs).Some?
    ensures var r := InitGenesis(gs).value;
            (forall id :: ValidClientId(id) && IsFrozen(r.kv, id) ==> Stable(r, id, params)) <==>
            gs.next > 0 || forall t :: t != LOCALHOST && ValidClientId(FormatClientIdentifier(t, 0)) ==> !IsFrozen(r.kv, FormatClientIdentifier(t, 0))
  {
    ImportIsOwned(gs, clientOk, recordOk);
    var r := InitGenesis(gs).value;
    assert r.next == gs.next && r.allowed == gs.allowed;
    hide ValidGenesis, ValidClientId, ParseClientIdentifier, ValidateClientType, FormatClientIdentifier, InitGenesis, IsFrozen, Stable, Owned;
    forall id | ValidClientId(id) && IsFrozen(r.kv, id)
      ensures Stable(r, id, params) <==> !Regenerable(r, id, params)
      ensures Regenerable(r, id, params) ==> gs.next == 0 && exists t :: t != LOCALHOST && id == FormatClientIdentifier(t, 0)
    {
      FrozenStableExactly(r, id, params);
      FrozenAhead(gs, clientOk, recordOk, id);
    }
    forall t | gs.next == 0 && t != LOCALHOST && ValidClientId(FormatClientIdentifier(t, 0)) && IsFrozen(r.kv, FormatClientIdentifier(t, 0))
      ensures Regenerable(r, FormatClientIdentifier(t, 0), params)
    {
      FrozenAhead(gs, clientOk, recordOk, FormatClientIdentifier(t, 0));
      ParsedNumber(FormatClientIdentifier(t, 0), t, 0);
    }
  }

  /** The failing case at its inputs: after every accepted genesis with a zero counter and a frozen
      client numbered zero, every well-formed creation of a client of that type is accepted and
      puts its client in the place of the frozen one. */
  lemma FrozenClientIsReplaced(gs: GenesisState, clientOk: LightClient -> bool, recordOk: ConsensusRecord -> bool,
                               c: LightClient, record: ConsensusRecord, w: Writes)
    requires ValidGenesis(gs, clientOk, recordOk) && gs.next == 0
    requires c.clientType != LOCALHOST && ValidClientId(FormatClientIdentifier(c.clientType, 0))
    requires record.clientType == c.clientType && LeavesState(w)
    requires InitGenesis(gs).Some? && IsFrozen(InitGenesis(gs).value.kv, FormatClientIdentifier(c.clientType, 0))
    ensures var m := Apply(InitGenesis(gs).value, Creating(c, record, w));
            m.Some? && GetClient(m.value.kv, FormatClientIdentifier(c.clientType, 0)) == Some(c)
  {
    var r, id := InitGenesis(gs).value, FormatClientIdentifier(c.clientType, 0);
    assert r.next == gs.next && r.allowed == gs.allowed;
    hide ValidGenesis, ValidClientId, ParseClientIdentifier, ValidateClientType, FormatClientIdentifier, InitGenesis, IsFrozen, Apply, GetClient, LeavesState;
    FrozenAhead(gs, clientOk, recordOk, id);
    ParsedNumber(id, c.clientType, 0);
    CreationReplaces(r, c, record, w);
  }

  /** There is such a genesis for every client type: `ZeroGenesis` with a frozen client. */
  lemma FrozenZeroGenesis(t: string, c: LightClient)
    requires ValidateClientType(t) && c.clientType == t && c.frozen
    ensures var gs := ZeroGenesis(t, c);
            ValidGenesis(gs, x => true, x => true) && InitGenesis(gs).Some? && IsFrozen(InitGenesis(gs).value.kv, FormatClientIdentifier(t, 0))
  {
    hide ValidGenesis, ValidClientId, ValidateClientType, FormatClientIdentifier, Put, GetClient, InitGenesis, ZeroGenesis;
    ZeroGenesisIsAccepted(t, c);
    ZeroImport(t, c);
    PutGets(map[], FormatClientIdentifier(t, 0), c);
  }

  lemma ZeroImport(t: string, c: LightClient)
    requires c.clientType == t
    ensures InitGenesis(ZeroGenesis(t, c)) == Some(Registry(Put(map[], FormatClientIdentifier(t, 0), STATE, ClientValue(c)), 0, [t]))
  {
    hide FormatClientIdentifier, Put;
    var gs, e := ZeroGenesis(t, c), Entry(FormatClientIdentifier(t, 0), c);
    var none: map<string, Value> := map[];
    var kv := Put(none, e.id, STATE, ClientValue(c));
    assert AllAllowed(gs);
    assert WithAllMetadata(none, gs.metadata) == none;
    assert gs.clients == [e] && [e][1..] == [];
    assert WithClients(kv, []) == kv;
    assert WithClients(none, [e]) == kv;
    assert WithGroups(kv, gs.consensus) == kv;
  }
}
