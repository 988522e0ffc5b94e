/** Genesis of the client module: validation, import, export, and what they promise together
    (modules/core/02-client/types/genesis.go, modules/core/02-client/genesis.go and
    modules/core/02-client/keeper/keeper.go). */
module ClientGenesis {
  import opened Basics
  import opened Strings
  import opened Identifiers
  import opened Heights
  import opened HostKeys
  import opened Clients

  datatype Entry<+T> = Entry(id: string, value: T)

  datatype HeightRecord = HeightRecord(height: Height, record: ConsensusRecord)

  datatype Metadata = Metadata(key: string, bytes: string)

  datatype GenesisState = GenesisState(
    clients: seq<Entry<LightClient>>,
    consensus: seq<Entry<seq<HeightRecord>>>,
    metadata: seq<Entry<seq<Metadata>>>,
    allowed: seq<string>,
    createLocalhost: bool,
    next: nat)

  // ---------------------------------------------------------------- import

  function WithMetadata(kv: map<string, Value>, id: string, entries: seq<Metadata>): map<string, Value>
    decreases |entries|
  {
    if entries == [] then kv
    else WithMetadata(Put(kv, id, entries[0].key, MetaValue(entries[0].bytes)), id, entries[1..])
  }

  function WithAllMetadata(kv: map<string, Value>, groups: seq<Entry<seq<Metadata>>>): map<string, Value>
    decreases |groups|
  {
    if groups == [] then kv else WithAllMetadata(WithMetadata(kv, groups[0].id, groups[0].value), groups[1..])
  }

  function WithClients(kv: map<string, Value>, clients: seq<Entry<LightClient>>): map<string, Value>
    decreases |clients|
  {
    if clients == [] then kv else WithClients(Put(kv, clients[0].id, STATE, ClientValue(clients[0].value)), clients[1..])
  }

  function WithRecords(kv: map<string, Value>, id: string, records: seq<HeightRecord>): map<string, Value>
    decreases |records|
  {
    if records == [] then kv
    else WithRecords(Put(kv, id, ConsensusStatePath(records[0].height), ConsensusValue(records[0].record)), id, records[1..])
  }

  function WithGroups(kv: map<string, Value>, groups: seq<Entry<seq<HeightRecord>>>): map<string, Value>
    decreases |groups|
  {
    if groups == [] then kv else WithGroups(WithRecords(kv, groups[0].id, groups[0].value), groups[1..])
  }

  predicate AllAllowed(gs: GenesisState) {
    forall i :: 0 <= i < |gs.clients| ==> gs.clients[i].value.clientType in gs.allowed
  }

  /** `InitGenesis` on an empty store; `None` is the panic on a client type off the allow-list. */
  function InitGenesis(gs: GenesisState): Option<Registry> {
    if AllAllowed(gs)
    then Some(Registry(WithGroups(WithClients(WithAllMetadata(map[], gs.metadata), gs.clients), gs.consensus), gs.next, gs.allowed))
    else None
  }

  // ---------------------------------------------------------------- what import leaves at a key

  /** A consensus state that the genesis lists. */
  ghost predicate Lists(groups: seq<Entry<seq<HeightRecord>>>, c: string, x: HeightRecord) {
    exists j :: 0 <= j < |groups| && groups[j].id == c && x in groups[j].value
  }

  ghost predicate ListsSome(groups: seq<Entry<seq<HeightRecord>>>, c: string, h: Height) {
    exists rec :: Lists(groups, c, HeightRecord(h, rec))
  }

  function ConsensusKey(c: string, h: Height): string {
    Path(ConsensusState(c, h))
  }

  function StateKey(c: string): string {
    Path(ClientState(c))
  }

  /** `b` has what `a` has at key `k`, or nothing if `a` has nothing. */
  ghost predicate SameAt(a: map<string, Value>, b: map<string, Value>, k: string) {
    (k in a <==> k in b) && (k in a ==> a[k] == b[k])
  }

  lemma PutAt(kv: map<string, Value>, a: Key, k: Key, x: string, v: Value)
    requires Valid(a) && Valid(k) && a.OfClient() && Path(a) == ClientPrefix(a.client) + x
    ensures var m := Put(kv, a.client, x, v);
            if a == k then Path(k) in m && m[Path(k)] == v else SameAt(kv, m, Path(k))
  {
    hide Path, Valid;
    KeysNeverCollide(a, k);
  }

  lemma KeyParts(c: string, h: Height)
    ensures ConsensusKey(c, h) == ClientPrefix(c) + ConsensusStatePath(h)
    ensures StateKey(c) == ClientPrefix(c) + STATE
  {
  }

  lemma {:induction false} RecordsAt(kv: map<string, Value>, id: string, records: seq<HeightRecord>, k: Key)
    requires ValidClientId(id) && Valid(k)
    ensures var m := WithRecords(kv, id, records);
            if k.ConsensusState? && k.client == id && exists rec :: HeightRecord(k.height, rec) in records
            then Path(k) in m && m[Path(k)].ConsensusValue? && HeightRecord(k.height, m[Path(k)].record) in records
            else SameAt(kv, m, Path(k))
    decreases |records|
  {
    hide Path, Valid, ValidClientId, Put, ConsensusStatePath;
    if records != [] {
      var a, x := ConsensusState(id, records[0].height), ConsensusStatePath(records[0].height);
      var kv1 := Put(kv, id, x, ConsensusValue(records[0].record));
      KeyParts(id, records[0].height);
      assert Valid(a) by { ConsensusKeyValid(id, records[0].height); }
      PutAt(kv, a, k, x, ConsensusValue(records[0].record));
      RecordsAt(kv1, id, records[1..], k);
      assert records == [records[0]] + records[1..];
      if k == a {
        assert HeightRecord(k.height, records[0].record) in records;
      }
    }
  }

  lemma ConsensusKeyValid(id: string, h: Height)
    ensures Valid(ConsensusState(id, h)) == ValidClientId(id) && Valid(ClientState(id)) == ValidClientId(id)
  {
  }

  ghost predicate ValidIds<T>(groups: seq<Entry<T>>) {
    forall i :: 0 <= i < |groups| ==> ValidClientId(groups[i].id)
  }

  lemma ListsCons(groups: seq<Entry<seq<HeightRecord>>>, c: string, x: HeightRecord)
    requires groups != []
    ensures Lists(groups, c, x) <==> (groups[0].id == c && x in groups[0].value) || Lists(groups[1..], c, x)
  {
    if j :| 0 <= j < |groups| && groups[j].id == c && x in groups[j].value {
      if j > 0 {
        assert groups[1..][j - 1] == groups[j];
      }
    }
    if j :| 0 <= j < |groups[1..]| && groups[1..][j].id == c && x in groups[1..][j].value {
      assert groups[j + 1] == groups[1..][j];
    }
  }

  /** After the consensus states are written, a consensus key holds a listed state if one is
      listed for it, and every other key what it held before. */
  lemma {:induction false} GroupsAt(kv: map<string, Value>, groups: seq<Entry<seq<HeightRecord>>>, k: Key)
    requires ValidIds(groups) && Valid(k)
    ensures var m := WithGroups(kv, groups);
            if k.ConsensusState? && ListsSome(groups, k.client, k.height)
            then Path(k) in m && m[Path(k)].ConsensusValue? && Lists(groups, k.client, HeightRecord(k.height, m[Path(k)].record))
            else SameAt(kv, m, Path(k))
    decreases |groups|
  {
    hide Path, Valid, ValidClientId, WithRecords, Lists;
    if groups == [] {
      assert forall c, x :: !Lists([], c, x) by { ListsNothing(); }
    } else {
      var g, rest := groups[0], groups[1..];
      var kv1 := WithRecords(kv, g.id, g.value);
      RecordsAt(kv, g.id, g.value, k);
      GroupsAt(kv1, rest, k);
      forall c, x
        ensures Lists(groups, c, x) <==> (g.id == c && x in g.value) || Lists(rest, c, x)
      {
        ListsCons(groups, c, x);
      }
    }
  }

  lemma ListsNothing()
    ensures forall c, x :: !Lists([], c, x)
  {
  }

  lemma {:induction false} ClientsAt(kv: map<string, Value>, clients: seq<Entry<LightClient>>, k: Key)
    requires ValidIds(clients) && Valid(k)
    ensures var m := WithClients(kv, clients);
            if k.ClientState? && exists c :: Entry(k.client, c) in clients
            then Path(k) in m && m[Path(k)].ClientValue? && Entry(k.client, m[Path(k)].client) in clients
            else SameAt(kv, m, Path(k))
    decreases |clients|
  {
    hide Path, Valid, ValidClientId, Put;
    if clients != [] {
      var a, v := ClientState(clients[0].id), ClientValue(clients[0].value);
      KeyParts(clients[0].id, Height(0, 0));
      assert Valid(a) by { ConsensusKeyValid(clients[0].id, Height(0, 0)); }
      PutAt(kv, a, k, STATE, v);
      ClientsAt(Put(kv, clients[0].id, STATE, v), clients[1..], k);
      assert clients == [clients[0]] + clients[1..];
      if k == a {
        assert Entry(k.client, clients[0].value) in clients;
      }
    }
  }

  // ---------------------------------------------------------------- export

  /** Lexicographic order of Go strings. */
  predicate Less(a: string, b: string) {
    b != "" && (a == "" || a[0] < b[0] || (a[0] == b[0] && Less(a[1..], b[1..])))
  }

  lemma {:induction false} LessTotal(a: string, b: string)
    ensures Less(a, b) || Less(b, a) || a == b
    ensures !(Less(a, b) && Less(b, a)) && !Less(a, a)
  {
    if a != "" {
      LessTotal(a[1..], a[1..]);
      if b != "" {
        LessTotal(a[1..], b[1..]);
        assert a == [a[0]] + a[1..] && b == [b[0]] + b[1..];
      }
    }
  }

  lemma {:induction false} LessTransitive(a: string, b: string, c: string)
    requires Less(a, b) && Less(b, c)
    ensures Less(a, c)
  {
    if a != "" && a[0] == b[0] && b[0] == c[0] {
      LessTransitive(a[1..], b[1..], c[1..]);
    }
  }

  function Insert<T>(e: Entry<T>, xs: seq<Entry<T>>): seq<Entry<T>> {
    if xs == [] then [e] else if Less(xs[0].id, e.id) then [xs[0]] + Insert(e, xs[1..]) else [e] + xs
  }

  /** `sort.Sort` by client identifier. */
  function Sort<T>(xs: seq<Entry<T>>): seq<Entry<T>> {
    if xs == [] then [] else Insert(xs[0], Sort(xs[1..]))
  }

  ghost predicate StrictlySorted<T>(xs: seq<Entry<T>>) {
    forall i, j :: 0 <= i < j < |xs| ==> Less(xs[i].id, xs[j].id)
  }

  ghost predicate DistinctIds<T>(xs: seq<Entry<T>>) {
    forall i, j :: 0 <= i < j < |xs| ==> xs[i].id != xs[j].id
  }

  lemma {:induction false} InsertMember<T>(e: Entry<T>, xs: seq<Entry<T>>, x: Entry<T>)
    ensures x in Insert(e, xs) <==> x == e || x in xs
  {
    if xs != [] {
      InsertMember(e, xs[1..], x);
      assert xs == [xs[0]] + xs[1..];
    }
  }

  lemma {:induction false} InsertSorted<T>(e: Entry<T>, xs: seq<Entry<T>>)
    requires StrictlySorted(xs) && forall i :: 0 <= i < |xs| ==> xs[i].id != e.id
    ensures StrictlySorted(Insert(e, xs))
  {
    hide Less;
    if xs != [] {
      LessTotal(xs[0].id, e.id);
      if Less(xs[0].id, e.id) {
        var rest := Insert(e, xs[1..]);
        InsertSorted(e, xs[1..]);
        forall j | 0 <= j < |rest|
          ensures Less(xs[0].id, rest[j].id)
        {
          InsertMember(e, xs[1..], rest[j]);
        }
      } else {
        forall j | 0 <= j < |xs|
          ensures Less(e.id, xs[j].id)
        {
          if j > 0 {
            LessTransitive(e.id, xs[0].id, xs[j].id);
          }
        }
      }
    }
  }

  lemma {:induction false} SortMember<T>(xs: seq<Entry<T>>, x: Entry<T>)
    ensures x in Sort(xs) <==> x in xs
  {
    if xs != [] {
      SortMember(xs[1..], x);
      InsertMember(xs[0], Sort(xs[1..]), x);
      assert xs == [xs[0]] + xs[1..];
    }
  }

  /** Sorting keeps the entries and puts distinct ones in strictly increasing order. */
  lemma {:induction false} SortSorts<T>(xs: seq<Entry<T>>)
    requires DistinctIds(xs)
    ensures StrictlySorted(Sort(xs))
    ensures forall i :: 0 <= i < |Sort(xs)| ==> Sort(xs)[i] in xs
    ensures forall i :: 0 <= i < |xs| ==> xs[i] in Sort(xs)
  {
    forall i | 0 <= i < |Sort(xs)|
      ensures Sort(xs)[i] in xs
    {
      SortMember(xs, Sort(xs)[i]);
    }
    forall i | 0 <= i < |xs|
      ensures xs[i] in Sort(xs)
    {
      SortMember(xs, xs[i]);
    }
    if xs != [] {
      var rest := Sort(xs[1..]);
      SortSorts(xs[1..]);
      forall i | 0 <= i < |rest|
        ensures rest[i].id != xs[0].id
      {
        assert rest[i] in xs[1..];
      }
      InsertSorted(xs[0], rest);
    }
  }

  /** What the iterating reads of the keeper demand of the store (they panic otherwise): a key that
      looks like a client or consensus state to them is one. */
  ghost predicate Tidy(kv: map<string, Value>) {
    forall k :: k in kv ==> TidyKey(kv, k)
  }

  ghost predicate TidyKey(kv: map<string, Value>, k: string)
    requires k in kv
  {
    TidyEntry(k, kv[k])
  }

  ghost predicate TidyEntry(k: string, v: Value) {
    var split := Split(k, '/');
    && (split[|split| - 1] == STATE ==>
          |split| >= 2 && ValidClientId(split[1]) && k == StateKey(split[1]) && v.ClientValue?)
    && (|split| == 4 && split[2] == "consensusStates" ==>
          ParseHeight(split[3]).Some? && ValidClientId(split[1]) && k == ConsensusKey(split[1], ParseHeight(split[3]).value) && v.ConsensusValue?)
  }

  /** An iterator over the store: every key once, in some order. */
  ghost predicate Iterates(keys: seq<string>, kv: map<string, Value>) {
    && (forall i :: 0 <= i < |keys| ==> keys[i] in kv)
    && (forall k :: k in kv ==> k in keys)
    && (forall i, j :: 0 <= i < j < |keys| ==> keys[i] != keys[j])
  }

  /** The list has exactly the clients of the store among `keys`. */
  ghost predicate ClientsListed(kv: map<string, Value>, keys: seq<string>, list: seq<Entry<LightClient>>) {
    forall c, x :: Entry(c, x) in list <==> ValidClientId(c) && StateKey(c) in keys && StateKey(c) in kv && kv[StateKey(c)] == ClientValue(x)
  }

  /** The groups have exactly the consensus states of the store among `keys`. */
  ghost predicate StatesListed(kv: map<string, Value>, keys: seq<string>, groups: seq<Entry<seq<HeightRecord>>>) {
    forall c, x :: Lists(groups, c, x) <==>
                   ValidClientId(c) && ConsensusKey(c, x.height) in keys && ConsensusKey(c, x.height) in kv
                   && kv[ConsensusKey(c, x.height)] == ConsensusValue(x.record)
  }

  /** One group per client, not empty, one state per height in it. */
  ghost predicate EachOnce(groups: seq<Entry<seq<HeightRecord>>>) {
    && DistinctIds(groups)
    && (forall g :: 0 <= g < |groups| ==> groups[g].value != [])
    && forall g, i, j :: 0 <= g < |groups| && 0 <= i < j < |groups[g].value| ==> groups[g].value[i].height != groups[g].value[j].height
  }
}
