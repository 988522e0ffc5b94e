/** Genesis validation seen from the outside: the faults for which a genesis is refused, and what holds
    of the store that an accepted one is imported into. */
module GenesisFaults {
  import opened Basics
  import opened Strings
  import opened Identifiers
  import opened Decimals
  import opened Heights
  import opened HostKeys
  import opened ClientIds
  import opened Clients
  import opened ClientGenesis
  import opened GenesisValidation

  /** The identifier is the client's type, a dash, and one to twenty digits of a 64-bit number. */
  predicate NumberedBy(e: Entry<LightClient>, n: nat) {
    var front := e.value.clientType + "-";
    && HasPrefix(e.id, front)
    && var digits := e.id[|front|..];
    1 <= |digits| <= 20 && AllDigits(digits) && ValueOf(digits) == n && n <= MAX_UINT64
  }

  ghost predicate ClientFault(gs: GenesisState, e: Entry<LightClient>, clientOk: LightClient -> bool) {
    || !ValidClientId(e.id) || !clientOk(e.value)
    || e.value.clientType !in gs.allowed || !ValidateClientType(e.value.clientType)
    || (forall n: nat :: NumberedBy(e, n) ==> 0 < n && gs.next <= n)
  }

  ghost predicate Known(gs: GenesisState, id: string) {
    exists i :: 0 <= i < |gs.clients| && gs.clients[i].id == id
  }

  ghost predicate RecordFault(gs: GenesisState, id: string, x: HeightRecord, recordOk: ConsensusRecord -> bool) {
    || x.height == Height(0, 0) || !recordOk(x.record)
    || exists i :: 0 <= i < |gs.clients| && gs.clients[i].id == id && gs.clients[i].value.clientType != x.record.clientType
  }

  ghost predicate GroupFault(gs: GenesisState, g: Entry<seq<HeightRecord>>, recordOk: ConsensusRecord -> bool) {
    !Known(gs, g.id) || exists j :: 0 <= j < |g.value| && RecordFault(gs, g.id, g.value[j], recordOk)
  }

  ghost predicate MetadataFault(gs: GenesisState, g: Entry<seq<Metadata>>) {
    !Known(gs, g.id) || exists j :: 0 <= j < |g.value| && (|g.value[j].key| == 0 || |g.value[j].bytes| == 0)
  }

  ghost predicate Faulty(gs: GenesisState, clientOk: LightClient -> bool, recordOk: ConsensusRecord -> bool) {
    || (exists i :: 0 <= i < |gs.allowed| && Blank(gs.allowed[i]))
    || (exists i :: 0 <= i < |gs.clients| && ClientFault(gs, gs.clients[i], clientOk))
    || (exists i :: 0 <= i < |gs.consensus| && GroupFault(gs, gs.consensus[i], recordOk))
    || (exists i :: 0 <= i < |gs.metadata| && MetadataFault(gs, gs.metadata[i]))
    || (gs.createLocalhost && "09-localhost" !in gs.allowed)
  }

  // ---------------------------------------------------------------- identifiers

  lemma SplitsAtLast(id: string)
    requires '-' in id
    ensures id == Init(id, '-') + "-" + LastPart(id, '-')
  {
    var parts := Split(id, '-');
    JoinInvertsSplit(id, '-');
    SplitCount(id, '-');
    var front, last := parts[..|parts| - 1], parts[|parts| - 1];
    assert parts == front + [last];
    JoinAppend(front, [last], '-');
  }

  lemma SpeltParses(t: string, digits: string)
    requires TypeFormat(t) && !Blank(t) && 1 <= |digits| <= 20 && AllDigits(digits)
    ensures ParseClientIdentifier(t + "-" + digits) == if ValueOf(digits) <= MAX_UINT64 then Some((t, ValueOf(digits))) else None
  {
    hide TypeFormat, Blank, ValueOf, Init, LastPart;
    assert '-' !in digits;
    SplitAtLast(t, digits, '-');
    assert (t + "-" + digits)[|t|] == '-';
  }

  lemma ParsedIsSpelt(id: string)
    requires ParseClientIdentifier(id).Some?
    ensures var (t, n) := ParseClientIdentifier(id).value; var digits := LastPart(id, '-');
            && id == t + "-" + digits && 1 <= |digits| <= 20 && AllDigits(digits) && ValueOf(digits) == n && n <= MAX_UINT64
  {
    hide TypeFormat, Blank, ValueOf, Init, LastPart;
    SplitsAtLast(id);
  }

  lemma ValidTypeFormat(t: string)
    requires ValidateClientType(t)
    ensures TypeFormat(t) && !Blank(t)
  {
    hide ParseClientIdentifier, TypeFormat, Blank, ValidClientId, FormatClientIdentifier;
    ParseInvertsFormatIdentifier(t, 0);
  }

  /** For a valid type, parsing finds exactly what the identifier spells. */
  lemma ParsesExactly(e: Entry<LightClient>, n: nat)
    requires ValidateClientType(e.value.clientType)
    ensures ParseClientIdentifier(e.id) == Some((e.value.clientType, n)) <==> NumberedBy(e, n)
  {
    hide ParseClientIdentifier, ValidateClientType, TypeFormat, ValueOf, Blank, LastPart;
    var t := e.value.clientType;
    ValidTypeFormat(t);
    if NumberedBy(e, n) {
      var digits := e.id[|t| + 1..];
      assert e.id == t + "-" + digits;
      SpeltParses(t, digits);
    }
    if ParseClientIdentifier(e.id) == Some((t, n)) {
      ParsedIsSpelt(e.id);
      assert e.id[|t| + 1..] == LastPart(e.id, '-');
    }
  }

  lemma ClientFaultExactly(gs: GenesisState, e: Entry<LightClient>, clientOk: LightClient -> bool)
    ensures ClientEntryOk(gs, e, clientOk) && SequenceOk(gs, e) <==> !ClientFault(gs, e, clientOk)
  {
    hide ValidClientId, ParseClientIdentifier, ValidateClientType, NumberedBy;
    if ValidateClientType(e.value.clientType) {
      forall n: nat
        ensures ParseClientIdentifier(e.id) == Some((e.value.clientType, n)) <==> NumberedBy(e, n)
      {
        ParsesExactly(e, n);
      }
    }
  }

  lemma KnownExactly(gs: GenesisState, id: string)
    ensures IsClient(gs, id) <==> Known(gs, id)
  {
  }

  lemma RecordFaultExactly(gs: GenesisState, g: Entry<seq<HeightRecord>>, clientOk: LightClient -> bool, recordOk: ConsensusRecord -> bool)
    requires forall i :: 0 <= i < |gs.clients| ==> ClientEntryOk(gs, gs.clients[i], clientOk)
    ensures GroupOk(gs, g, recordOk) <==> !GroupFault(gs, g, recordOk)
  {
    hide ValidClientId, ParseClientIdentifier, ValidateClientType;
    KnownExactly(gs, g.id);
    if Known(gs, g.id) {
      var i :| 0 <= i < |gs.clients| && gs.clients[i].id == g.id;
      assert ClientEntryOk(gs, gs.clients[i], clientOk);
      forall j | 0 <= j < |g.value|
        ensures (!g.value[j].height.IsZero() && recordOk(g.value[j].record) && g.value[j].record.clientType == ParseClientIdentifier(g.id).value.0)
                <==> !RecordFault(gs, g.id, g.value[j], recordOk)
      {
      }
      hide RecordFault;
    }
  }

  lemma MetadataFaultExactly(gs: GenesisState, g: Entry<seq<Metadata>>)
    ensures MetadataOk(gs, g) <==> !MetadataFault(gs, g)
  {
    KnownExactly(gs, g.id);
    hide IsClient, Known;
  }

  /** A genesis is accepted if and only if it has none of the faults. */
  lemma AcceptedUnlessFaulty(gs: GenesisState, clientOk: LightClient -> bool, recordOk: ConsensusRecord -> bool)
    ensures ValidGenesis(gs, clientOk, recordOk) <==> !Faulty(gs, clientOk, recordOk)
  {
    hide ClientEntryOk, SequenceOk, ClientFault, GroupOk, GroupFault, MetadataOk, MetadataFault, ParseClientIdentifier, Blank;
    assert forall e, f :: ClientEntryOk(gs, e, f) ==> ParseClientIdentifier(e.id).Some? by { EntriesParse(gs); }
    forall e
      ensures ClientEntryOk(gs, e, clientOk) && SequenceOk(gs, e) <==> !ClientFault(gs, e, clientOk)
    {
      ClientFaultExactly(gs, e, clientOk);
    }
    forall g
      ensures MetadataOk(gs, g) <==> !MetadataFault(gs, g)
    {
      MetadataFaultExactly(gs, g);
    }
    if forall i :: 0 <= i < |gs.clients| ==> ClientEntryOk(gs, gs.clients[i], clientOk) {
      forall g
        ensures GroupOk(gs, g, recordOk) <==> !GroupFault(gs, g, recordOk)
      {
        RecordFaultExactly(gs, g, clientOk, recordOk);
      }
    }
  }

  lemma EntriesParse(gs: GenesisState)
    ensures forall e, f :: ClientEntryOk(gs, e, f) ==> ParseClientIdentifier(e.id).Some?
  {
  }

  // ---------------------------------------------------------------- the imported store

  ghost predicate OnlyMeta(kv: map<string, Value>) {
    forall k :: k in kv ==> kv[k].MetaValue?
  }

  lemma {:induction false} MetadataIsMeta(kv: map<string, Value>, id: string, entries: seq<Metadata>)
    requires OnlyMeta(kv)
    ensures OnlyMeta(WithMetadata(kv, id, entries))
    decreases |entries|
  {
    hide ClientPrefix;
    if entries != [] {
      MetadataIsMeta(Put(kv, id, entries[0].key, MetaValue(entries[0].bytes)), id, entries[1..]);
    }
  }

  lemma {:induction false} AllMetadataIsMeta(kv: map<string, Value>, groups: seq<Entry<seq<Metadata>>>)
    requires OnlyMeta(kv)
    ensures OnlyMeta(WithAllMetadata(kv, groups))
    decreases |groups|
  {
    hide OnlyMeta;
    if groups != [] {
      MetadataIsMeta(kv, groups[0].id, groups[0].value);
      AllMetadataIsMeta(WithMetadata(kv, groups[0].id, groups[0].value), groups[1..]);
    }
  }

  lemma ClientAfterImport(gs: GenesisState, id: string)
    requires AllAllowed(gs) && ValidIds(gs.clients) && ValidIds(gs.consensus) && ValidClientId(id)
    ensures var kv := InitGenesis(gs).value.kv;
            && (GetClient(kv, id).Some? <==> exists c :: Entry(id, c) in gs.clients)
            && (GetClient(kv, id).Some? ==> Entry(id, GetClient(kv, id).value) in gs.clients)
  {
    hide ValidClientId, Path, WithClients, WithGroups, WithAllMetadata, ListsSome, AllAllowed, ValidIds;
    var kv0, k := WithAllMetadata(map[], gs.metadata), ClientState(id);
    AllMetadataIsMeta(map[], gs.metadata);
    ConsensusKeyValid(id, Height(0, 0));
    ClientsAt(kv0, gs.clients, k);
    GroupsAt(WithClients(kv0, gs.clients), gs.consensus, k);
  }

  lemma RecordAfterImport(gs: GenesisState, id: string, h: Height)
    requires AllAllowed(gs) && ValidIds(gs.clients) && ValidIds(gs.consensus) && ValidClientId(id)
    requires var kv := InitGenesis(gs).value.kv; ConsensusKey(id, h) in kv && kv[ConsensusKey(id, h)].ConsensusValue?
    ensures Lists(gs.consensus, id, HeightRecord(h, InitGenesis(gs).value.kv[ConsensusKey(id, h)].record))
  {
    hide ValidClientId, Path, WithClients, WithGroups, WithAllMetadata, Lists, AllAllowed, ValidIds;
    var kv0, k := WithAllMetadata(map[], gs.metadata), ConsensusState(id, h);
    AllMetadataIsMeta(map[], gs.metadata);
    ConsensusKeyValid(id, h);
    ClientsAt(kv0, gs.clients, k);
    GroupsAt(WithClients(kv0, gs.clients), gs.consensus, k);
  }

  lemma AcceptedIsAllowed(gs: GenesisState, clientOk: LightClient -> bool, recordOk: ConsensusRecord -> bool)
    requires ValidGenesis(gs, clientOk, recordOk)
    ensures AllAllowed(gs)
  {
    hide ValidClientId, ParseClientIdentifier, ValidateClientType, Blank;
  }

  lemma EntryIsOk(gs: GenesisState, clientOk: LightClient -> bool, recordOk: ConsensusRecord -> bool, e: Entry<LightClient>)
    requires ValidGenesis(gs, clientOk, recordOk) && e in gs.clients
    ensures ClientEntryOk(gs, e, clientOk)
  {
    hide ClientEntryOk, GroupOk, MetadataOk, Blank;
  }

  /** A client state of the imported store passed validation and has an allowed, valid type. */
  lemma ImportedClientsAreValid(gs: GenesisState, clientOk: LightClient -> bool, recordOk: ConsensusRecord -> bool, id: string)
    requires ValidGenesis(gs, clientOk, recordOk) && ValidClientId(id)
    requires InitGenesis(gs).Some? && GetClient(InitGenesis(gs).value.kv, id).Some?
    ensures var c := GetClient(InitGenesis(gs).value.kv, id).value;
            clientOk(c) && c.clientType in gs.allowed && ValidateClientType(c.clientType) && exists n :: NumberedBy(Entry(id, c), n)
  {
    hide ValidGenesis, ValidClientId, ValidateClientType, ParseClientIdentifier, InitGenesis, GetClient, NumberedBy, AllAllowed, ValidIds;
    GenesisIdsValid(gs, clientOk, recordOk);
    AcceptedIsAllowed(gs, clientOk, recordOk);
    ClientAfterImport(gs, id);
    var c := GetClient(InitGenesis(gs).value.kv, id).value;
    EntryIsOk(gs, clientOk, recordOk, Entry(id, c));
    ParsesExactly(Entry(id, c), ParseClientIdentifier(id).value.1);
  }

  lemma GroupIsOk(gs: GenesisState, clientOk: LightClient -> bool, recordOk: ConsensusRecord -> bool, id: string, x: HeightRecord)
    requires ValidGenesis(gs, clientOk, recordOk) && Lists(gs.consensus, id, x)
    ensures x.height != Height(0, 0) && recordOk(x.record) && IsClient(gs, id)
    ensures ParseClientIdentifier(id).Some? && x.record.clientType == ParseClientIdentifier(id).value.0
  {
    hide ClientEntryOk, MetadataOk, Blank, IsClient, ParseClientIdentifier;
    var g :| 0 <= g < |gs.consensus| && gs.consensus[g].id == id && x in gs.consensus[g].value;
    assert GroupOk(gs, gs.consensus[g], recordOk);
  }

  /** Every consensus state of the imported store is valid, at a height other than zero, and of the type
      of the client state stored under the same identifier. */
  lemma ImportedStatesMatch(gs: GenesisState, clientOk: LightClient -> bool, recordOk: ConsensusRecord -> bool, id: string, h: Height)
    requires ValidGenesis(gs, clientOk, recordOk) && ValidClientId(id)
    requires InitGenesis(gs).Some? && ConsensusKey(id, h) in InitGenesis(gs).value.kv
    requires InitGenesis(gs).value.kv[ConsensusKey(id, h)].ConsensusValue?
    ensures var kv := InitGenesis(gs).value.kv;
            && h != Height(0, 0) && recordOk(kv[ConsensusKey(id, h)].record)
            && GetClient(kv, id).Some? && GetClient(kv, id).value.clientType == kv[ConsensusKey(id, h)].record.clientType
  {
    hide ValidGenesis, ValidClientId, ValidateClientType, ParseClientIdentifier, InitGenesis, GetClient, ConsensusKey, Lists, AllAllowed, ValidIds;
    GenesisIdsValid(gs, clientOk, recordOk);
    AcceptedIsAllowed(gs, clientOk, recordOk);
    RecordAfterImport(gs, id, h);
    var kv := InitGenesis(gs).value.kv;
    GroupIsOk(gs, clientOk, recordOk, id, HeightRecord(h, kv[ConsensusKey(id, h)].record));
    ClientAfterImport(gs, id);
    var i :| 0 <= i < |gs.clients| && gs.clients[i].id == id;
    assert Entry(id, gs.clients[i].value) in gs.clients;
    EntryIsOk(gs, clientOk, recordOk, Entry(id, GetClient(kv, id).value));
  }
}
