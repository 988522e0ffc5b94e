/** The light clients of a chain in their shared key-value store (modules/core/02-client/keeper):
    what each message does to it, and what holds over every run of messages.

    What a light client implementation decides (is the header valid, is the client expired, what
    does it write into its own store) arrives with the message, unconstrained. */
module Clients {
  import opened Basics
  import opened Strings
  import opened Identifiers
  import opened Heights
  import opened HostKeys
  import opened ClientIds

  const LOCALHOST := "09-localhost"

  /** The parts of a client state that the keeper looks at; `rest` is everything else. */
  datatype LightClient = LightClient(clientType: string, latestHeight: Height, frozen: bool, rest: string)

  datatype ConsensusRecord = ConsensusRecord(clientType: string, content: string)

  datatype Value = ClientValue(client: LightClient) | ConsensusValue(record: ConsensusRecord) | MetaValue(bytes: string)

  datatype Status = Active | Frozen | Expired

  function StatusOf(c: LightClient, expired: bool): Status {
    if c.frozen then Frozen else if expired then Expired else Active
  }

  /** What an implementation writes and deletes in the store it is given. */
  datatype Writes = Writes(sets: map<string, Value>, deletes: set<string>)

  datatype Verdict = Verdict(client: LightClient, record: ConsensusRecord)

  datatype Registry = Registry(kv: map<string, Value>, next: nat, allowed: seq<string>)

  datatype Step =
    | Create(client: LightClient, consensus: Option<ConsensusRecord>, basic: bool, initialized: bool, writes: Writes)
    | Update(id: string, expired: bool, header: Option<Height>, verdict: Option<Verdict>, writes: Writes)
    | Upgrade(id: string, expired: bool, verdict: Option<Verdict>, writes: Writes)
    | Misbehaviour(id: string, expired: bool, basic: bool, judged: Option<LightClient>, writes: Writes)
    | Substitute(subject: string, substitute: string, subjectExpired: bool, substituteExpired: bool, judged: Option<LightClient>, writes: Writes)
    | SetParams(allowed: seq<string>)

  // ---------------------------------------------------------------- the client-prefixed store

  const STATE := "clientState"

  function Put(kv: map<string, Value>, id: string, x: string, v: Value): map<string, Value> {
    kv[ClientPrefix(id) + x := v]
  }

  function Written(kv: map<string, Value>, id: string, w: Writes): map<string, Value> {
    var prefix := ClientPrefix(id);
    map k | k in kv.Keys + (set x | x in w.sets :: prefix + x)
            && ((HasPrefix(k, prefix) && k[|prefix|..] in w.sets) || (k in kv && !(HasPrefix(k, prefix) && k[|prefix|..] in w.deletes)))
      :: if HasPrefix(k, prefix) && k[|prefix|..] in w.sets then w.sets[k[|prefix|..]] else kv[k]
  }

  function GetClient(kv: map<string, Value>, id: string): Option<LightClient> {
    var key := Path(ClientState(id));
    if key in kv && kv[key].ClientValue? then Some(kv[key].client) else None
  }

  /** Two stores hold the same under one client's prefix. */
  ghost predicate SameStore(a: map<string, Value>, b: map<string, Value>, id: string) {
    forall x :: (ClientPrefix(id) + x in a <==> ClientPrefix(id) + x in b)
                && (ClientPrefix(id) + x in a ==> a[ClientPrefix(id) + x] == b[ClientPrefix(id) + x])
  }

  /** Something is stored under the client's prefix. */
  ghost predicate Used(kv: map<string, Value>, id: string) {
    exists x :: ClientPrefix(id) + x in kv
  }

  // ---------------------------------------------------------------- messages

  function CreateClient(r: Registry, client: LightClient, consensus: Option<ConsensusRecord>, initialized: bool, w: Writes): Option<Registry> {
    if client.clientType !in r.allowed then None
    else
      var id := FormatClientIdentifier(client.clientType, r.next);
      var kv := Written(Put(r.kv, id, STATE, ClientValue(client)), id, w);
      if !initialized then None
      else
        Some(Registry(if consensus.Some? then Put(kv, id, ConsensusStatePath(client.latestHeight), ConsensusValue(consensus.value)) else kv,
                      (r.next + 1) % (MAX_UINT64 + 1), r.allowed))
  }

  function UpdateClient(r: Registry, id: string, expired: bool, header: Option<Height>, verdict: Option<Verdict>, w: Writes): Option<Registry> {
    var c := GetClient(r.kv, id);
    if c.None? || StatusOf(c.value, expired) != Active || verdict.None? then None
    else
      var kv := Put(Written(r.kv, id, w), id, STATE, ClientValue(verdict.value.client));
      if !verdict.value.client.frozen && header.Some? && id != LOCALHOST then
        Some(r.(kv := Put(kv, id, ConsensusStatePath(header.value), ConsensusValue(verdict.value.record))))
      else Some(r.(kv := kv))
  }

  function UpgradeClient(r: Registry, id: string, expired: bool, verdict: Option<Verdict>, w: Writes): Option<Registry> {
    var c := GetClient(r.kv, id);
    if c.None? || StatusOf(c.value, expired) != Active || verdict.None? then None
    else
      var kv := Put(Written(r.kv, id, w), id, STATE, ClientValue(verdict.value.client));
      Some(r.(kv := Put(kv, id, ConsensusStatePath(verdict.value.client.latestHeight), ConsensusValue(verdict.value.record))))
  }

  function CheckMisbehaviour(r: Registry, id: string, expired: bool, basic: bool, judged: Option<LightClient>, w: Writes): Option<Registry> {
    var c := GetClient(r.kv, id);
    if c.None? || StatusOf(c.value, expired) != Active || !basic || judged.None? then None
    else Some(r.(kv := Put(Written(r.kv, id, w), id, STATE, ClientValue(judged.value))))
  }

  function ClientUpdateProposal(r: Registry, subject: string, substitute: string, subjectExpired: bool, substituteExpired: bool,
                                judged: Option<LightClient>, w: Writes): Option<Registry> {
    if subject == LOCALHOST || substitute == LOCALHOST then None
    else
      var c, d := GetClient(r.kv, subject), GetClient(r.kv, substitute);
      if c.None? || StatusOf(c.value, subjectExpired) == Active then None
      else if d.None? || c.value.latestHeight.GTE(d.value.latestHeight) then None
      else if StatusOf(d.value, substituteExpired) != Active || judged.None? then None
      else Some(r.(kv := Put(Written(r.kv, subject, w), subject, STATE, ClientValue(judged.value))))
  }

  /** What `MsgCreateClient.ValidateBasic` asks for; `basic` is the implementation's own validation of
      the client state and the consensus state. */
  predicate CreateBasic(client: LightClient, consensus: Option<ConsensusRecord>, basic: bool) {
    && basic && client.clientType != LOCALHOST
    && consensus.Some? && consensus.value.clientType == client.clientType
    && ValidateClientType(client.clientType)
  }

  /** A message as it is delivered: basic validation, then the keeper. `None` is a rejected message.
      A proposal's identifiers are checked by parsing only; no client is stored under one that the
      validator refuses. */
  function Apply(r: Registry, s: Step): Option<Registry> {
    match s
    case Create(client, consensus, basic, initialized, w) =>
      if CreateBasic(client, consensus, basic) then CreateClient(r, client, consensus, initialized, w) else None
    case Update(id, expired, header, verdict, w) => if ValidClientId(id) then UpdateClient(r, id, expired, header, verdict, w) else None
    case Upgrade(id, expired, verdict, w) => if ValidClientId(id) then UpgradeClient(r, id, expired, verdict, w) else None
    case Misbehaviour(id, expired, basic, judged, w) => if ValidClientId(id) then CheckMisbehaviour(r, id, expired, basic, judged, w) else None
    case Substitute(subject, substitute, se, te, judged, w) =>
      if subject != substitute && ValidClientId(subject) && ValidClientId(substitute)
      then ClientUpdateProposal(r, subject, substitute, se, te, judged, w) else None
    case SetParams(allowed) => Some(r.(allowed := allowed))
  }

  function Run(r: Registry, steps: seq<Step>): Registry
    decreases |steps|
  {
    if steps == [] then r
    else
      var m := Apply(r, steps[0]);
      Run(if m.Some? then m.value else r, steps[1..])
  }

  /** How many clients a run creates. */
  function Creations(r: Registry, steps: seq<Step>): nat
    decreases |steps|
  {
    if steps == [] then 0
    else
      var m := Apply(r, steps[0]);
      (if steps[0].Create? && m.Some? then 1 else 0) + Creations(if m.Some? then m.value else r, steps[1..])
  }

  // ---------------------------------------------------------------- isolation

  /** `b` differs from `a` at most under the prefix of `id`. */
  ghost predicate OnlyUnder(a: map<string, Value>, b: map<string, Value>, id: string) {
    forall k :: (k in a && k !in b) || (k in b && k !in a) || (k in a && k in b && a[k] != b[k]) ==> HasPrefix(k, ClientPrefix(id))
  }

  lemma PutOnlyUnder(a: map<string, Value>, b: map<string, Value>, id: string, x: string, v: Value)
    requires OnlyUnder(a, b, id)
    ensures OnlyUnder(a, Put(b, id, x, v), id)
  {
    assert HasPrefix(ClientPrefix(id) + x, ClientPrefix(id));
  }

  lemma WrittenOnlyUnder(a: map<string, Value>, b: map<string, Value>, id: string, w: Writes)
    requires OnlyUnder(a, b, id)
    ensures OnlyUnder(a, Written(b, id, w), id)
  {
    var c := Written(b, id, w);
    forall k | (k in b && k !in c) || (k in c && k !in b) || (k in b && k in c && b[k] != c[k])
      ensures HasPrefix(k, ClientPrefix(id))
    {
      hide ClientPrefix;
    }
  }

  /** Writing under one client's prefix leaves every other client's store alone. */
  lemma OthersUntouched(a: map<string, Value>, b: map<string, Value>, id: string, other: string)
    requires OnlyUnder(a, b, id) && ValidClientId(id) && ValidClientId(other) && id != other
    ensures SameStore(a, b, other)
  {
    hide ClientPrefix, ValidClientId;
    forall x
      ensures !HasPrefix(ClientPrefix(other) + x, ClientPrefix(id))
    {
      var k := ClientPrefix(other) + x;
      if HasPrefix(k, ClientPrefix(id)) {
        var y := k[|ClientPrefix(id)|..];
        ClientStoresAreIsolated(other, id, x, y);
      }
    }
  }

  /** The client a message is about. */
  function Target(r: Registry, s: Step): string
    requires !s.SetParams?
  {
    match s
    case Create(client, _, _, _, _) => FormatClientIdentifier(client.clientType, r.next)
    case Update(id, _, _, _, _) => id
    case Upgrade(id, _, _, _) => id
    case Misbehaviour(id, _, _, _, _) => id
    case Substitute(subject, _, _, _, _, _) => subject
  }

  lemma UpdateOnlyUnder(r: Registry, s: Step)
    requires (s.Update? || s.Upgrade? || s.Misbehaviour? || s.Substitute?) && Apply(r, s).Some?
    ensures OnlyUnder(r.kv, Apply(r, s).value.kv, Target(r, s))
    ensures ValidClientId(Target(r, s)) && GetClient(r.kv, Target(r, s)).Some?
    ensures Apply(r, s).value.next == r.next
  {
    hide Put, Written, GetClient, ValidClientId, OnlyUnder, ConsensusStatePath;
    var id, w := Target(r, s), s.writes;
    assert OnlyUnder(r.kv, r.kv, id) by { OnlyUnderReflexive(r.kv, id); }
    WrittenOnlyUnder(r.kv, r.kv, id, w);
    var kv := Written(r.kv, id, w);
    var c := if s.Update? || s.Upgrade? then s.verdict.value.client else s.judged.value;
    PutOnlyUnder(r.kv, kv, id, STATE, ClientValue(c));
    if s.Update? && s.header.Some? {
      PutOnlyUnder(r.kv, Put(kv, id, STATE, ClientValue(c)), id, ConsensusStatePath(s.header.value), ConsensusValue(s.verdict.value.record));
    } else if s.Upgrade? {
      PutOnlyUnder(r.kv, Put(kv, id, STATE, ClientValue(c)), id, ConsensusStatePath(c.latestHeight), ConsensusValue(s.verdict.value.record));
    }
  }

  lemma OnlyUnderReflexive(a: map<string, Value>, id: string)
    ensures OnlyUnder(a, a, id)
  {
  }

  lemma CreateOnlyUnder(r: Registry, s: Step)
    requires s.Create? && Apply(r, s).Some? && r.next <= MAX_UINT64
    ensures OnlyUnder(r.kv, Apply(r, s).value.kv, Target(r, s)) && ValidClientId(Target(r, s))
    ensures Apply(r, s).value.next == (r.next + 1) % (MAX_UINT64 + 1)
  {
    hide Put, Written, ValidClientId, OnlyUnder, ConsensusStatePath, ValidateClientType, FormatClientIdentifier;
    var id := Target(r, s);
    ValidatedTypesGiveValidIds(s.client.clientType, r.next);
    OnlyUnderReflexive(r.kv, id);
    PutOnlyUnder(r.kv, r.kv, id, STATE, ClientValue(s.client));
    var kv := Put(r.kv, id, STATE, ClientValue(s.client));
    WrittenOnlyUnder(r.kv, kv, id, s.writes);
    if s.consensus.Some? {
      PutOnlyUnder(r.kv, Written(kv, id, s.writes), id, ConsensusStatePath(s.client.latestHeight), ConsensusValue(s.consensus.value));
    }
  }

  // ---------------------------------------------------------------- fresh identifiers

  /** Every number that occurs in the store, under any type, is below the counter. */
  ghost predicate Below(r: Registry) {
    && r.next <= MAX_UINT64
    && forall t, n: nat :: ValidClientId(FormatClientIdentifier(t, n)) && Used(r.kv, FormatClientIdentifier(t, n)) ==> n < r.next
  }

  lemma StaysUnused(a: map<string, Value>, b: map<string, Value>, id: string, other: string)
    requires OnlyUnder(a, b, id) && ValidClientId(id) && ValidClientId(other) && id != other
    ensures Used(b, other) ==> Used(a, other)
  {
    hide ValidClientId, ClientPrefix;
    OthersUntouched(a, b, id, other);
    if Used(b, other) {
      var x :| ClientPrefix(other) + x in b;
      assert ClientPrefix(other) + x in a;
    }
  }

  lemma ClientIsUsed(kv: map<string, Value>, id: string)
    requires GetClient(kv, id).Some?
    ensures Used(kv, id)
  {
    assert Path(ClientState(id)) == ClientPrefix(id) + STATE;
  }

  /** The counter stays above everything in the store, as long as it does not wrap. */
  lemma StepKeepsBelow(r: Registry, s: Step)
    requires Below(r) && Apply(r, s).Some? && (s.Create? ==> r.next < MAX_UINT64)
    ensures Below(Apply(r, s).value)
    ensures Apply(r, s).value.next == r.next + if s.Create? then 1 else 0
  {
    hide Apply, ValidClientId, Used, OnlyUnder, FormatClientIdentifier, GetClient;
    if s.SetParams? {
      SetParamsKeeps(r, s);
    } else {
      var m, id := Apply(r, s).value, Target(r, s);
      if s.Create? {
        CreateOnlyUnder(r, s);
      } else {
        UpdateOnlyUnder(r, s);
        ClientIsUsed(r.kv, id);
      }
      forall t, n: nat | ValidClientId(FormatClientIdentifier(t, n)) && Used(m.kv, FormatClientIdentifier(t, n))
        ensures n < m.next
      {
        if FormatClientIdentifier(t, n) == id {
          if s.Create? {
            FormatIdentifierInjective(t, n, s.client.clientType, r.next);
          }
        } else {
          StaysUnused(r.kv, m.kv, id, FormatClientIdentifier(t, n));
        }
      }
    }
  }

  lemma SetParamsKeeps(r: Registry, s: Step)
    requires s.SetParams?
    ensures Apply(r, s).Some? && Apply(r, s).value.kv == r.kv && Apply(r, s).value.next == r.next
  {
  }

  /** Over every run that creates too few clients to wrap the counter, the identifier that the next
      creation generates is one under which nothing is stored. */
  lemma {:induction false} IdentifiersAreFresh(r: Registry, steps: seq<Step>, t: string)
    requires Below(r) && r.next + Creations(r, steps) <= MAX_UINT64 && ValidateClientType(t)
    ensures Below(Run(r, steps)) && !Used(Run(r, steps).kv, FormatClientIdentifier(t, Run(r, steps).next))
    decreases |steps|
  {
    hide Apply, ValidateClientType, ValidClientId, Used, FormatClientIdentifier;
    if steps == [] {
      ValidatedTypesGiveValidIds(t, r.next);
    } else {
      var m := Apply(r, steps[0]);
      if m.Some? {
        StepKeepsBelow(r, steps[0]);
        hide Below;
        IdentifiersAreFresh(m.value, steps[1..], t);
      } else {
        hide Below;
        IdentifiersAreFresh(r, steps[1..], t);
      }
    }
  }

  // ---------------------------------------------------------------- frozen clients

  ghost predicate IsFrozen(kv: map<string, Value>, id: string) {
    GetClient(kv, id).Some? && GetClient(kv, id).value.frozen
  }

  /** The only way out of being frozen. */
  ghost predicate Substitutes(r: Registry, s: Step, id: string) {
    && s.Substitute? && s.subject == id && s.substitute != id
    && GetClient(r.kv, id).Some? && GetClient(r.kv, s.substitute).Some?
    && StatusOf(GetClient(r.kv, s.substitute).value, s.substituteExpired) == Active
    && GetClient(r.kv, id).value.latestHeight.LT(GetClient(r.kv, s.substitute).value.latestHeight)
  }

  lemma SameStoreReflexive(a: map<string, Value>, id: string)
    ensures SameStore(a, a, id)
  {
  }

  lemma AcceptedOnFrozen(r: Registry, s: Step, id: string)
    requires IsFrozen(r.kv, id) && Apply(r, s).Some? && !s.SetParams? && !s.Create? && Target(r, s) == id
    ensures Substitutes(r, s, id)
  {
    hide Put, Written, GetClient, ValidClientId;
  }

  /** A message for any client leaves everything stored for a frozen client as it is, unless it is
      a proposal that substitutes it by an active client with a greater height, or the creation of
      a client under the very same identifier. */
  lemma StepKeepsFrozen(r: Registry, s: Step, id: string)
    requires r.next <= MAX_UINT64 && ValidClientId(id) && IsFrozen(r.kv, id) && Apply(r, s).Some?
    ensures SameStore(r.kv, Apply(r, s).value.kv, id) || Substitutes(r, s, id) || (s.Create? && Target(r, s) == id)
  {
    hide Apply, ValidClientId, OnlyUnder, FormatClientIdentifier, Substitutes, SameStore, GetClient, Used;
    if s.SetParams? {
      SetParamsKeeps(r, s);
      SameStoreReflexive(r.kv, id);
    } else if Target(r, s) == id {
      if !s.Create? {
        AcceptedOnFrozen(r, s, id);
      }
    } else {
      if s.Create? {
        CreateOnlyUnder(r, s);
      } else {
        UpdateOnlyUnder(r, s);
      }
      OthersUntouched(r.kv, Apply(r, s).value.kv, Target(r, s), id);
    }
  }

  lemma SameStoreFrozen(a: map<string, Value>, b: map<string, Value>, id: string)
    requires SameStore(a, b, id) && IsFrozen(a, id)
    ensures IsFrozen(b, id) && GetClient(b, id) == GetClient(a, id)
  {
    assert Path(ClientState(id)) == ClientPrefix(id) + STATE;
  }

  lemma SameStoreTransitive(a: map<string, Value>, b: map<string, Value>, c: map<string, Value>, id: string)
    requires SameStore(a, b, id) && SameStore(b, c, id)
    ensures SameStore(a, c, id)
  {
    hide ClientPrefix;
  }

  /** Some creation can still generate this identifier: it is written as the keeper writes them, for
      a type that can be created, with a number that the counter has not passed. */
  predicate Ahead(id: string, next: nat) {
    && ParseClientIdentifier(id).Some?
    && var (t, n) := ParseClientIdentifier(id).value;
    && id == FormatClientIdentifier(t, n) && t != LOCALHOST && ValidateClientType(t) && next <= n
  }

  /** The identifier can be generated again: right away if its type is on the allow-list, and, where
      `params` says that the allow-list may change, in any case. */
  predicate Regenerable(r: Registry, id: string, params: bool) {
    Ahead(id, r.next) && (params || ParseClientIdentifier(id).value.0 in r.allowed)
  }

  lemma CreatedIsAhead(r: Registry, s: Step, params: bool)
    requires s.Create? && Apply(r, s).Some? && r.next <= MAX_UINT64
    ensures Regenerable(r, Target(r, s), params)
  {
    hide Put, Written, ValidateClientType, FormatClientIdentifier, ParseClientIdentifier;
    ValidatedTypesGiveValidIds(s.client.clientType, r.next);
  }

  lemma NextAfter(r: Registry, s: Step)
    requires Apply(r, s).Some? && r.next <= MAX_UINT64
    ensures Apply(r, s).value.next == if s.Create? then (r.next + 1) % (MAX_UINT64 + 1) else r.next
    ensures !s.SetParams? ==> Apply(r, s).value.allowed == r.allowed
  {
    hide Put, Written, GetClient, ValidateClientType, ValidClientId;
  }

  /** No proposal about the client, and no change of the allow-list unless `params` allows it. */
  ghost predicate Leaves(steps: seq<Step>, id: string, params: bool) {
    forall i :: 0 <= i < |steps| ==> !(steps[i].Substitute? && steps[i].subject == id) && (params || !steps[i].SetParams?)
  }

  /** Over every such run a frozen client keeps its client state, all its consensus states and all its
      metadata, if its identifier cannot be generated again and the counter does not generate
      anything after wrapping. */
  lemma {:induction false} FrozenClientsAreStable(r: Registry, steps: seq<Step>, id: string, params: bool)
    requires r.next <= MAX_UINT64 && ValidClientId(id) && IsFrozen(r.kv, id) && Leaves(steps, id, params)
    requires Creations(r, steps) > 0 ==> !Regenerable(r, id, params) && r.next + Creations(r, steps) <= MAX_UINT64 + 1
    ensures SameStore(r.kv, Run(r, steps).kv, id) && IsFrozen(Run(r, steps).kv, id)
    decreases |steps|
  {
    hide Apply, ValidClientId, SameStore, IsFrozen, FormatClientIdentifier, ParseClientIdentifier, ValidateClientType, Target;
    if steps == [] {
      SameStoreReflexive(r.kv, id);
    } else {
      var m := Apply(r, steps[0]);
      var q := if m.Some? then m.value else r;
      if m.Some? {
        StepKeepsFrozen(r, steps[0], id);
        NextAfter(r, steps[0]);
        if steps[0].Create? {
          CreatedIsAhead(r, steps[0], params);
        }
        SameStoreFrozen(r.kv, q.kv, id);
      } else {
        SameStoreReflexive(r.kv, id);
      }
      FrozenClientsAreStable(q, steps[1..], id, params);
      SameStoreTransitive(r.kv, q.kv, Run(r, steps).kv, id);
    }
  }

  /** Before the counter wraps, nothing but a proposal about this client changes what is stored for
      it; without `params`, runs that change the allow-list are left aside as well. */
  ghost predicate Stable(r: Registry, id: string, params: bool) {
    forall steps :: Leaves(steps, id, params) && r.next + Creations(r, steps) <= MAX_UINT64 + 1 ==> SameStore(r.kv, Run(r, steps).kv, id)
  }

  // ---------------------------------------------------------------- creations that replace a client

  predicate LeavesState(w: Writes) {
    STATE !in w.sets && STATE !in w.deletes
  }

  lemma PutGets(kv: map<string, Value>, id: string, c: LightClient)
    ensures GetClient(Put(kv, id, STATE, ClientValue(c)), id) == Some(c)
  {
    assert Path(ClientState(id)) == ClientPrefix(id) + STATE;
    hide ClientPrefix, Path;
  }

  lemma WritesLeaveClient(kv: map<string, Value>, id: string, w: Writes)
    requires LeavesState(w)
    ensures GetClient(Written(kv, id, w), id) == GetClient(kv, id)
  {
    assert Path(ClientState(id)) == ClientPrefix(id) + STATE;
    hide ClientPrefix, Path;
    var k := ClientPrefix(id) + STATE;
    assert HasPrefix(k, ClientPrefix(id)) && k[|ClientPrefix(id)|..] == STATE;
  }

  lemma ConsensusLeavesClient(kv: map<string, Value>, id: string, h: Height, v: Value)
    ensures GetClient(Put(kv, id, ConsensusStatePath(h), v), id) == GetClient(kv, id)
  {
    assert Path(ClientState(id)) == ClientPrefix(id) + STATE;
    assert ConsensusStatePath(h)[1] == 'o' && STATE[1] == 'l';
    hide ClientPrefix, Path, ConsensusStatePath;
    assert (ClientPrefix(id) + ConsensusStatePath(h))[|ClientPrefix(id)|..] == ConsensusStatePath(h);
    assert (ClientPrefix(id) + STATE)[|ClientPrefix(id)|..] == STATE;
  }

  /** A well-formed creation message of the client `c`. */
  function Creating(c: LightClient, record: ConsensusRecord, w: Writes): Step {
    Create(c, Some(record), true, true, w)
  }

  /** Every well-formed creation of an allowed type is accepted, and stores its client under the
      identifier of the counter, whatever was there. */
  lemma CreationReplaces(r: Registry, c: LightClient, record: ConsensusRecord, w: Writes)
    requires c.clientType in r.allowed && c.clientType != LOCALHOST && ValidateClientType(c.clientType) && r.next <= MAX_UINT64
    requires record.clientType == c.clientType && LeavesState(w)
    ensures var m := Apply(r, Creating(c, record, w));
            && m.Some? && m.value.next == (r.next + 1) % (MAX_UINT64 + 1) && m.value.allowed == r.allowed
            && GetClient(m.value.kv, FormatClientIdentifier(c.clientType, r.next)) == Some(c)
  {
    hide ValidateClientType, FormatClientIdentifier, Put, Written, GetClient, ConsensusStatePath, LeavesState;
    var id := FormatClientIdentifier(c.clientType, r.next);
    var kv := Put(r.kv, id, STATE, ClientValue(c));
    PutGets(r.kv, id, c);
    WritesLeaveClient(kv, id, w);
    ConsensusLeavesClient(Written(kv, id, w), id, c.latestHeight, ConsensusValue(record));
  }

  /** The same creation `k + 1` times. */
  function Overtaking(s: Step, k: nat): seq<Step> {
    if k == 0 then [s] else [s] + Overtaking(s, k - 1)
  }

  lemma {:induction false} OvertakingArrives(r: Registry, c: LightClient, record: ConsensusRecord, w: Writes, k: nat)
    requires c.clientType in r.allowed && c.clientType != LOCALHOST && ValidateClientType(c.clientType) && r.next + k <= MAX_UINT64
    requires record.clientType == c.clientType && LeavesState(w)
    ensures Creations(r, Overtaking(Creating(c, record, w), k)) == k + 1
    ensures GetClient(Run(r, Overtaking(Creating(c, record, w), k)).kv, FormatClientIdentifier(c.clientType, r.next + k)) == Some(c)
    decreases k
  {
    hide Apply, ValidateClientType, FormatClientIdentifier, GetClient, LeavesState;
    CreationReplaces(r, c, record, w);
    var s := Creating(c, record, w);
    var steps, m := Overtaking(s, k), Apply(r, s).value;
    if k == 0 {
      assert steps[1..] == [];
      assert Run(m, []) == m && Creations(m, []) == 0;
    } else {
      assert steps[1..] == Overtaking(s, k - 1);
      OvertakingArrives(m, c, record, w, k - 1);
    }
  }

  lemma {:induction false} OnlyRepeats(s: Step, k: nat)
    ensures forall i :: 0 <= i < |Overtaking(s, k)| ==> Overtaking(s, k)[i] == s
  {
    if k > 0 {
      OnlyRepeats(s, k - 1);
    }
  }

  lemma SetParamsFirst(r: Registry, list: seq<string>, steps: seq<Step>)
    ensures Run(r, [SetParams(list)] + steps) == Run(r.(allowed := list), steps)
    ensures Creations(r, [SetParams(list)] + steps) == Creations(r.(allowed := list), steps)
  {
    hide CreateClient, UpdateClient, UpgradeClient, CheckMisbehaviour, ClientUpdateProposal, ValidateClientType, ValidClientId;
    assert Apply(r, SetParams(list)) == Some(r.(allowed := list));
    hide Apply;
    assert ([SetParams(list)] + steps)[1..] == steps;
  }

  lemma ParsedFits(id: string)
    requires ParseClientIdentifier(id).Some?
    ensures ParseClientIdentifier(id).value.1 <= MAX_UINT64
  {
  }

  /** If the identifier can be generated again, then for every client of its type there is a run of
      creations that puts that client in its place. */
  lemma RegenerableIsOverwritten(r: Registry, id: string, params: bool, c: LightClient, record: ConsensusRecord, w: Writes)
    returns (steps: seq<Step>)
    requires r.next <= MAX_UINT64 && Regenerable(r, id, params)
    requires c.clientType == ParseClientIdentifier(id).value.0 && record.clientType == c.clientType && LeavesState(w)
    ensures Leaves(steps, id, params) && r.next + Creations(r, steps) <= MAX_UINT64 + 1
    ensures GetClient(Run(r, steps).kv, id) == Some(c)
  {
    hide ValidateClientType, FormatClientIdentifier, GetClient, Creations, Run, ParseClientIdentifier, LeavesState;
    var n := ParseClientIdentifier(id).value.1;
    ParsedFits(id);
    var s := Creating(c, record, w);
    var creations := Overtaking(s, n - r.next);
    OnlyRepeats(s, n - r.next);
    if params {
      steps := [SetParams([c.clientType])] + creations;
      SetParamsFirst(r, [c.clientType], creations);
      OvertakingArrives(r.(allowed := [c.clientType]), c, record, w, n - r.next);
    } else {
      steps := creations;
      OvertakingArrives(r, c, record, w, n - r.next);
    }
  }

  /** A frozen client is stable if and only if its identifier cannot be generated again. */
  lemma FrozenStableExactly(r: Registry, id: string, params: bool)
    requires r.next <= MAX_UINT64 && ValidClientId(id) && IsFrozen(r.kv, id)
    ensures Stable(r, id, params) <==> !Regenerable(r, id, params)
  {
    hide ValidClientId, SameStore, Run, Creations, Leaves, GetClient, ParseClientIdentifier, FormatClientIdentifier, ValidateClientType;
    if Regenerable(r, id, params) {
      var t := ParseClientIdentifier(id).value.0;
      var c := LightClient(t, Height(0, 1), false, "");
      var steps := RegenerableIsOverwritten(r, id, params, c, ConsensusRecord(t, ""), Writes(map[], {}));
      if SameStore(r.kv, Run(r, steps).kv, id) {
        SameStoreFrozen(r.kv, Run(r, steps).kv, id);
      }
    } else {
      forall steps | Leaves(steps, id, params) && r.next + Creations(r, steps) <= MAX_UINT64 + 1
        ensures SameStore(r.kv, Run(r, steps).kv, id)
      {
        FrozenClientsAreStable(r, steps, id, params);
      }
    }
  }
}
