/** Every store that a run of messages can produce from an accepted genesis can be exported, and comes
    back on import. */
module ClientRuns {
  import opened Basics
  import opened Strings
  import opened Identifiers
  import opened Decimals
  import opened Heights
  import opened HostKeys
  import opened ClientIds
  import opened Clients
  import opened ClientGenesis
  import opened ClientExport
  import opened GenesisValidation

  /** An implementation does not store anything else under a name that reads like a client state or
      a consensus state. */
  ghost predicate PoliteWrites(w: Writes) {
    forall id, x :: ValidClientId(id) && x in w.sets ==> TidyEntry(ClientPrefix(id) + x, w.sets[x])
  }

  predicate Fits(h: Height) {
    h.revisionNumber <= MAX_UINT64 && h.revisionHeight <= MAX_UINT64
  }

  /** Polite writes, and heights of 64-bit numbers. */
  ghost predicate PoliteStep(s: Step) {
    match s
    case Create(client, _, _, _, w) => PoliteWrites(w) && Fits(client.latestHeight)
    case Update(_, _, header, _, w) => PoliteWrites(w) && (header.Some? ==> Fits(header.value))
    case Upgrade(_, _, verdict, w) => PoliteWrites(w) && (verdict.Some? ==> Fits(verdict.value.client.latestHeight))
    case Misbehaviour(_, _, _, _, w) => PoliteWrites(w)
    case Substitute(_, _, _, _, _, w) => PoliteWrites(w)
    case SetParams(_) => true
  }

  lemma StateEntryTidy(c: string, x: LightClient)
    requires ValidClientId(c)
    ensures TidyEntry(ClientPrefix(c) + STATE, ClientValue(x))
  {
    hide StateKey, ConsensusKey, ValidClientId, ParseHeight, Split, ClientPrefix;
    KeyParts(c, Height(0, 0));
    StateKeySplit(c);
  }

  lemma HeightIsNoState(h: Height)
    ensures HeightText(h) != STATE
  {
    FormatDigits(h.revisionNumber);
    assert HeightText(h)[0] == FormatUint(h.revisionNumber)[0];
    assert !IsDigit(STATE[0]);
  }

  lemma ConsensusEntryTidy(c: string, h: Height, x: ConsensusRecord)
    requires ValidClientId(c) && Fits(h)
    ensures TidyEntry(ClientPrefix(c) + ConsensusStatePath(h), ConsensusValue(x))
  {
    hide StateKey, ConsensusKey, ValidClientId, ParseHeight, Split, ClientPrefix, HeightText, ConsensusStatePath;
    KeyParts(c, h);
    ConsensusKeySplit(c, h);
    HeightTextParses(h);
    HeightIsNoState(h);
  }

  lemma PutTidy(kv: map<string, Value>, id: string, x: string, v: Value)
    requires Tidy(kv) && TidyEntry(ClientPrefix(id) + x, v)
    ensures Tidy(Put(kv, id, x, v))
  {
    hide TidyEntry;
  }

  lemma WrittenTidy(kv: map<string, Value>, id: string, w: Writes)
    requires Tidy(kv) && PoliteWrites(w) && ValidClientId(id)
    ensures Tidy(Written(kv, id, w))
  {
    hide TidyEntry, ValidClientId;
    var m, prefix := Written(kv, id, w), ClientPrefix(id);
    forall k | k in m
      ensures TidyKey(m, k)
    {
      if HasPrefix(k, prefix) && k[|prefix|..] in w.sets {
        assert k == prefix + k[|prefix|..];
      } else {
        assert TidyKey(kv, k);
      }
    }
  }

  /** A message keeps the store readable. */
  lemma StepKeepsTidy(r: Registry, s: Step)
    requires Tidy(r.kv) && PoliteStep(s) && r.next <= MAX_UINT64 && Apply(r, s).Some?
    ensures Tidy(Apply(r, s).value.kv) && Apply(r, s).value.next <= MAX_UINT64
  {
    hide Tidy, TidyEntry, Put, Written, GetClient, ValidClientId, ValidateClientType, FormatClientIdentifier, ConsensusStatePath, ClientPrefix, PoliteWrites, Fits;
    match s
    case SetParams(_) =>
    case Create(client, consensus, _, _, w) =>
      ValidatedTypesGiveValidIds(client.clientType, r.next);
      var id := FormatClientIdentifier(client.clientType, r.next);
      StateEntryTidy(id, client);
      PutTidy(r.kv, id, STATE, ClientValue(client));
      var kv := Put(r.kv, id, STATE, ClientValue(client));
      WrittenTidy(kv, id, w);
      if consensus.Some? {
        ConsensusEntryTidy(id, client.latestHeight, consensus.value);
        PutTidy(Written(kv, id, w), id, ConsensusStatePath(client.latestHeight), ConsensusValue(consensus.value));
      }
    case Update(id, _, header, verdict, w) =>
      TidyAfterWrites(r.kv, id, w, verdict.value.client);
      if header.Some? {
        ConsensusEntryTidy(id, header.value, verdict.value.record);
        PutTidy(Put(Written(r.kv, id, w), id, STATE, ClientValue(verdict.value.client)), id, ConsensusStatePath(header.value), ConsensusValue(verdict.value.record));
      }
    case Upgrade(id, _, verdict, w) =>
      TidyAfterWrites(r.kv, id, w, verdict.value.client);
      ConsensusEntryTidy(id, verdict.value.client.latestHeight, verdict.value.record);
      PutTidy(Put(Written(r.kv, id, w), id, STATE, ClientValue(verdict.value.client)), id,
              ConsensusStatePath(verdict.value.client.latestHeight), ConsensusValue(verdict.value.record));
    case Misbehaviour(id, _, _, judged, w) =>
      TidyAfterWrites(r.kv, id, w, judged.value);
    case Substitute(subject, _, _, _, judged, w) =>
      TidyAfterWrites(r.kv, subject, w, judged.value);
  }

  lemma TidyAfterWrites(kv: map<string, Value>, id: string, w: Writes, c: LightClient)
    requires Tidy(kv) && PoliteWrites(w) && ValidClientId(id)
    ensures Tidy(Put(Written(kv, id, w), id, STATE, ClientValue(c)))
  {
    hide Tidy, TidyEntry, Put, Written, ValidClientId, PoliteWrites;
    WrittenTidy(kv, id, w);
    StateEntryTidy(id, c);
    PutTidy(Written(kv, id, w), id, STATE, ClientValue(c));
  }

  lemma {:induction false} RunKeepsTidy(r: Registry, steps: seq<Step>)
    requires Tidy(r.kv) && r.next <= MAX_UINT64 && forall i :: 0 <= i < |steps| ==> PoliteStep(steps[i])
    ensures Tidy(Run(r, steps).kv) && Run(r, steps).next <= MAX_UINT64
    decreases |steps|
  {
    hide Tidy, Apply, PoliteStep;
    if steps != [] {
      var m := Apply(r, steps[0]);
      if m.Some? {
        StepKeepsTidy(r, steps[0]);
      }
      RunKeepsTidy(if m.Some? then m.value else r, steps[1..]);
    }
  }

  // ---------------------------------------------------------------- starting from a genesis

  /** Metadata whose key does not read like a client state or a consensus state. */
  predicate PoliteKey(key: string) {
    var parts := Split(key, '/');
    parts[|parts| - 1] != STATE && !(|parts| == 2 && parts[0] == "consensusStates")
  }

  ghost predicate PoliteEntries(entries: seq<Metadata>) {
    forall i :: 0 <= i < |entries| ==> PoliteKey(entries[i].key)
  }

  ghost predicate RecordsFit(records: seq<HeightRecord>) {
    forall i :: 0 <= i < |records| ==> Fits(records[i].height)
  }

  /** A genesis with polite metadata and heights of 64-bit numbers. */
  ghost predicate PoliteGenesis(gs: GenesisState) {
    && (forall i :: 0 <= i < |gs.metadata| ==> PoliteEntries(gs.metadata[i].value))
    && (forall i :: 0 <= i < |gs.consensus| ==> RecordsFit(gs.consensus[i].value))
  }

  lemma PoliteEntryTidy(id: string, key: string, v: Value)
    requires ValidClientId(id) && PoliteKey(key)
    ensures TidyEntry(ClientPrefix(id) + key, v)
  {
    hide ValidClientId, Split, StateKey, ConsensusKey, ParseHeight, ClientPrefix;
    PrefixSegments(ClientPrefix(id) + key, id, key);
    var parts, split := Split(key, '/'), ["clients"] + ([id] + Split(key, '/'));
    assert split[|split| - 1] == parts[|parts| - 1];
    assert |split| == 4 ==> split[2] == parts[0];
  }

  lemma {:induction false} MetadataTidy(kv: map<string, Value>, id: string, entries: seq<Metadata>)
    requires Tidy(kv) && ValidClientId(id) && PoliteEntries(entries)
    ensures Tidy(WithMetadata(kv, id, entries))
    decreases |entries|
  {
    hide Tidy, TidyEntry, Put, ValidClientId, PoliteKey;
    if entries != [] {
      PoliteEntryTidy(id, entries[0].key, MetaValue(entries[0].bytes));
      PutTidy(kv, id, entries[0].key, MetaValue(entries[0].bytes));
      MetadataTidy(Put(kv, id, entries[0].key, MetaValue(entries[0].bytes)), id, entries[1..]);
    }
  }

  lemma {:induction false} AllMetadataTidy(kv: map<string, Value>, groups: seq<Entry<seq<Metadata>>>)
    requires Tidy(kv) && ValidIds(groups) && forall i :: 0 <= i < |groups| ==> PoliteEntries(groups[i].value)
    ensures Tidy(WithAllMetadata(kv, groups))
    decreases |groups|
  {
    hide Tidy, ValidClientId, PoliteEntries;
    if groups != [] {
      MetadataTidy(kv, groups[0].id, groups[0].value);
      AllMetadataTidy(WithMetadata(kv, groups[0].id, groups[0].value), groups[1..]);
    }
  }

  lemma {:induction false} ClientsTidy(kv: map<string, Value>, clients: seq<Entry<LightClient>>)
    requires Tidy(kv) && ValidIds(clients)
    ensures Tidy(WithClients(kv, clients))
    decreases |clients|
  {
    hide Tidy, TidyEntry, Put, ValidClientId;
    if clients != [] {
      StateEntryTidy(clients[0].id, clients[0].value);
      PutTidy(kv, clients[0].id, STATE, ClientValue(clients[0].value));
      ClientsTidy(Put(kv, clients[0].id, STATE, ClientValue(clients[0].value)), clients[1..]);
    }
  }

  lemma {:induction false} RecordsTidy(kv: map<string, Value>, id: string, records: seq<HeightRecord>)
    requires Tidy(kv) && ValidClientId(id) && RecordsFit(records)
    ensures Tidy(WithRecords(kv, id, records))
    decreases |records|
  {
    hide Tidy, TidyEntry, Put, ValidClientId, ConsensusStatePath, Fits;
    if records != [] {
      var x, v := ConsensusStatePath(records[0].height), ConsensusValue(records[0].record);
      ConsensusEntryTidy(id, records[0].height, records[0].record);
      PutTidy(kv, id, x, v);
      RecordsTidy(Put(kv, id, x, v), id, records[1..]);
    }
  }

  lemma {:induction false} GroupsTidy(kv: map<string, Value>, groups: seq<Entry<seq<HeightRecord>>>)
    requires Tidy(kv) && ValidIds(groups) && forall i :: 0 <= i < |groups| ==> RecordsFit(groups[i].value)
    ensures Tidy(WithGroups(kv, groups))
    decreases |groups|
  {
    hide Tidy, ValidClientId, RecordsFit;
    if groups != [] {
      RecordsTidy(kv, groups[0].id, groups[0].value);
      GroupsTidy(WithRecords(kv, groups[0].id, groups[0].value), groups[1..]);
    }
  }

  /** The import of an accepted genesis is a store that can be exported. */
  lemma GenesisIsTidy(gs: GenesisState, clientOk: LightClient -> bool, recordOk: ConsensusRecord -> bool)
    requires ValidGenesis(gs, clientOk, recordOk) && PoliteGenesis(gs)
    ensures InitGenesis(gs).Some? && Tidy(InitGenesis(gs).value.kv)
  {
    ImportIsOwned(gs, clientOk, recordOk);
    GenesisIdsValid(gs, clientOk, recordOk);
    MetadataIdsValid(gs, clientOk, recordOk);
    hide ValidGenesis, ValidClientId, Owned, WithAllMetadata, WithClients, WithGroups, PoliteEntries, RecordsFit;
    var none: map<string, Value> := map[];
    assert Tidy(none);
    hide Tidy;
    AllMetadataTidy(none, gs.metadata);
    ClientsTidy(WithAllMetadata(none, gs.metadata), gs.clients);
    GroupsTidy(WithClients(WithAllMetadata(none, gs.metadata), gs.clients), gs.consensus);
  }

  /** Whatever is exported after a run from a readable store, and then imported, restores the counter
      and, for every client and height, the client state and the consensus state, present or
      absent; over clients that leave the keeper's names alone. */
  lemma RunsSurviveExport(r0: Registry, steps: seq<Step>, keys: seq<string>, gs: GenesisState, c: string, h: Height)
    requires Tidy(r0.kv) && r0.next <= MAX_UINT64 && forall i :: 0 <= i < |steps| ==> PoliteStep(steps[i])
    requires Iterates(keys, Run(r0, steps).kv) && Exported(Run(r0, steps), keys, gs)
    requires ValidIds(gs.metadata) && AllKeepOut(gs.metadata) && ValidClientId(c) && InitGenesis(gs).Some?
    ensures var r, s := Run(r0, steps), InitGenesis(gs).value;
            s.next == r.next && s.allowed == r.allowed && SameAt(r.kv, s.kv, StateKey(c)) && SameAt(r.kv, s.kv, ConsensusKey(c, h))
  {
    hide Run, PoliteStep, Iterates, Exported, ValidIds, AllKeepOut, ValidClientId, InitGenesis, StateKey, ConsensusKey, SameAt, Tidy;
    RunKeepsTidy(r0, steps);
    GenesisRoundTrip(Run(r0, steps), keys, gs, c, h);
  }

  lemma ImportedCounter(gs: GenesisState)
    ensures InitGenesis(gs).Some? ==> InitGenesis(gs).value.next == gs.next
  {
    hide WithGroups, WithClients, WithAllMetadata, AllAllowed;
  }

  /** So a chain started from any accepted genesis can be exported and restarted at any time. */
  lemma ChainsSurviveExport(start: GenesisState, clientOk: LightClient -> bool, recordOk: ConsensusRecord -> bool, steps: seq<Step>,
                            keys: seq<string>, gs: GenesisState, c: string, h: Height)
    requires ValidGenesis(start, clientOk, recordOk) && PoliteGenesis(start) && start.next <= MAX_UINT64
    requires forall i :: 0 <= i < |steps| ==> PoliteStep(steps[i])
    requires InitGenesis(start).Some? ==>
               Iterates(keys, Run(InitGenesis(start).value, steps).kv) && Exported(Run(InitGenesis(start).value, steps), keys, gs)
    requires ValidIds(gs.metadata) && AllKeepOut(gs.metadata) && ValidClientId(c) && InitGenesis(gs).Some?
    ensures InitGenesis(start).Some?
    ensures var r, s := Run(InitGenesis(start).value, steps), InitGenesis(gs).value;
            s.next == r.next && s.allowed == r.allowed && SameAt(r.kv, s.kv, StateKey(c)) && SameAt(r.kv, s.kv, ConsensusKey(c, h))
  {
    hide Run, PoliteStep, Iterates, Exported, ValidIds, AllKeepOut, ValidClientId, InitGenesis, StateKey, ConsensusKey, SameAt, Tidy, ValidGenesis, PoliteGenesis;
    GenesisIsTidy(start, clientOk, recordOk);
    ImportedCounter(start);
    RunsSurviveExport(InitGenesis(start).value, steps, keys, gs, c, h);
  }
}
