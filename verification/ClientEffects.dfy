/** What each client message asks for and what it stores: exactly when it is accepted, and what is under
    every key of the store afterwards. */
module ClientEffects {
  import opened Basics
  import opened Strings
  import opened Identifiers
  import opened Decimals
  import opened Heights
  import opened HostKeys
  import opened ClientIds
  import opened Clients
  import opened ClientGenesis

  /** A client that may be used: stored, not frozen, not expired. */
  predicate Usable(kv: map<string, Value>, id: string, expired: bool) {
    GetClient(kv, id).Some? && !GetClient(kv, id).value.frozen && !expired
  }

  /** `after` is `kv` after the writes of the light client implementation for `id`, except that it holds
      this client state and, if given, this consensus state. */
  ghost predicate Holds(kv: map<string, Value>, w: Writes, after: map<string, Value>, id: string, c: LightClient, at: Option<HeightRecord>) {
    && GetClient(after, id) == Some(c)
    && (at.Some? ==> ConsensusKey(id, at.value.height) in after && after[ConsensusKey(id, at.value.height)] == ConsensusValue(at.value.record))
    && forall k :: k != StateKey(id) && (at.Some? ==> k != ConsensusKey(id, at.value.height)) ==> AsWritten(kv, w, after, id, k)
  }

  /** At key `k`, the writes and deletions under the client's prefix took effect and nothing else. */
  ghost predicate AsWritten(kv: map<string, Value>, w: Writes, after: map<string, Value>, id: string, k: string) {
    var own := HasPrefix(k, "clients/" + id + "/");
    var x := if own then k[|id| + 9..] else "";
    if own && x in w.sets then k in after && after[k] == w.sets[x]
    else if own && x in w.deletes then k !in after
    else (k in after <==> k in kv) && (k in kv ==> after[k] == kv[k])
  }

  lemma WrittenAt(kv: map<string, Value>, id: string, w: Writes, k: string)
    ensures AsWritten(kv, w, Written(kv, id, w), id, k)
  {
    assert ClientPrefix(id) == "clients/" + id + "/";
    assert |ClientPrefix(id)| == |id| + 9;
    if HasPrefix(k, ClientPrefix(id)) {
      assert k == ClientPrefix(id) + k[|ClientPrefix(id)|..];
    }
    hide ClientPrefix, HasPrefix;
  }

  lemma PutHolds(kv: map<string, Value>, w: Writes, id: string, c: LightClient)
    ensures Holds(kv, w, Put(Written(kv, id, w), id, STATE, ClientValue(c)), id, c, None)
  {
    hide Written, Put, GetClient, AsWritten, StateKey, ConsensusKey;
    var b := Written(kv, id, w);
    var after := Put(b, id, STATE, ClientValue(c));
    PutGets(b, id, c);
    KeyParts(id, Height(0, 0));
    forall k | k != StateKey(id)
      ensures AsWritten(kv, w, after, id, k)
    {
      WrittenAt(kv, id, w, k);
      OtherKeyStays(kv, w, b, id, STATE, ClientValue(c), k);
    }
  }

  lemma OtherKeyStays(kv: map<string, Value>, w: Writes, b: map<string, Value>, id: string, x: string, v: Value, k: string)
    requires AsWritten(kv, w, b, id, k) && k != ClientPrefix(id) + x
    ensures AsWritten(kv, w, Put(b, id, x, v), id, k)
  {
    hide ClientPrefix, HasPrefix;
  }

  lemma PutRecordHolds(kv: map<string, Value>, w: Writes, b: map<string, Value>, id: string, c: LightClient, x: HeightRecord)
    requires Holds(kv, w, b, id, c, None)
    ensures Holds(kv, w, Put(b, id, ConsensusStatePath(x.height), ConsensusValue(x.record)), id, c, Some(x))
  {
    hide GetClient, AsWritten, StateKey, ConsensusKey, ConsensusStatePath, Put;
    var after := Put(b, id, ConsensusStatePath(x.height), ConsensusValue(x.record));
    ConsensusLeavesClient(b, id, x.height, ConsensusValue(x.record));
    KeyParts(id, x.height);
    PutAtKey(b, id, ConsensusStatePath(x.height), ConsensusValue(x.record));
    forall k | k != StateKey(id) && k != ConsensusKey(id, x.height)
      ensures AsWritten(kv, w, after, id, k)
    {
      OtherKeyStays(kv, w, b, id, ConsensusStatePath(x.height), ConsensusValue(x.record), k);
    }
  }

  lemma PutAtKey(b: map<string, Value>, id: string, x: string, v: Value)
    ensures ClientPrefix(id) + x in Put(b, id, x, v) && Put(b, id, x, v)[ClientPrefix(id) + x] == v
  {
  }

  // ---------------------------------------------------------------- the messages

  /** An update is accepted exactly for a usable client and a header that its implementation approves. It
      stores the new client state, and the new consensus state at the header's height exactly if the
      new client is not frozen, there is a header, and the client is not the localhost. */
  lemma UpdateStores(r: Registry, id: string, expired: bool, header: Option<Height>, verdict: Option<Verdict>, w: Writes)
    ensures var m := Apply(r, Update(id, expired, header, verdict, w));
            && (m.Some? <==> ValidClientId(id) && Usable(r.kv, id, expired) && verdict.Some?)
            && (m.Some? ==>
                  && m.value.next == r.next && m.value.allowed == r.allowed
                  && var stored := !verdict.value.client.frozen && header.Some? && id != "09-localhost";
                  Holds(r.kv, w, m.value.kv, id, verdict.value.client,
                        if stored then Some(HeightRecord(header.value, verdict.value.record)) else None))
  {
    hide Written, Put, GetClient, Holds, ValidClientId, ConsensusStatePath;
    if verdict.Some? {
      PutHolds(r.kv, w, id, verdict.value.client);
      if header.Some? {
        PutRecordHolds(r.kv, w, Put(Written(r.kv, id, w), id, STATE, ClientValue(verdict.value.client)), id, verdict.value.client,
                       HeightRecord(header.value, verdict.value.record));
      }
    }
  }

  /** An upgrade stores the upgraded client and its consensus state at the upgraded client's height. */
  lemma UpgradeStores(r: Registry, id: string, expired: bool, verdict: Option<Verdict>, w: Writes)
    ensures var m := Apply(r, Upgrade(id, expired, verdict, w));
            && (m.Some? <==> ValidClientId(id) && Usable(r.kv, id, expired) && verdict.Some?)
            && (m.Some? ==>
                  && m.value.next == r.next && m.value.allowed == r.allowed
                  && Holds(r.kv, w, m.value.kv, id, verdict.value.client, Some(HeightRecord(verdict.value.client.latestHeight, verdict.value.record))))
  {
    hide Written, Put, GetClient, Holds, ValidClientId, ConsensusStatePath;
    if verdict.Some? {
      PutHolds(r.kv, w, id, verdict.value.client);
      PutRecordHolds(r.kv, w, Put(Written(r.kv, id, w), id, STATE, ClientValue(verdict.value.client)), id, verdict.value.client,
                     HeightRecord(verdict.value.client.latestHeight, verdict.value.record));
    }
  }

  /** Misbehaviour stores the judged client state and no consensus state. */
  lemma MisbehaviourStores(r: Registry, id: string, expired: bool, basic: bool, judged: Option<LightClient>, w: Writes)
    ensures var m := Apply(r, Misbehaviour(id, expired, basic, judged, w));
            && (m.Some? <==> ValidClientId(id) && Usable(r.kv, id, expired) && basic && judged.Some?)
            && (m.Some? ==> m.value.next == r.next && m.value.allowed == r.allowed && Holds(r.kv, w, m.value.kv, id, judged.value, None))
  {
    hide Written, Put, GetClient, Holds, ValidClientId;
    if judged.Some? {
      PutHolds(r.kv, w, id, judged.value);
    }
  }

  /** A proposal is accepted exactly if the subject is not usable, the substitute is, and the subject's
      latest height is strictly earlier; it stores the judged client state for the subject. */
  lemma SubstituteStores(r: Registry, subject: string, substitute: string, se: bool, te: bool, judged: Option<LightClient>, w: Writes)
    ensures var m := Apply(r, Substitute(subject, substitute, se, te, judged, w));
            && (m.Some? <==>
                  && ValidClientId(subject) && ValidClientId(substitute) && subject != substitute
                  && subject != "09-localhost" && substitute != "09-localhost"
                  && GetClient(r.kv, subject).Some? && !Usable(r.kv, subject, se) && Usable(r.kv, substitute, te) && judged.Some?
                  && Earlier(GetClient(r.kv, subject).value.latestHeight, GetClient(r.kv, substitute).value.latestHeight))
            && (m.Some? ==> m.value.next == r.next && m.value.allowed == r.allowed && Holds(r.kv, w, m.value.kv, subject, judged.value, None))
  {
    hide Written, Put, GetClient, Holds, ValidClientId, Height.GTE, Earlier;
    if judged.Some? {
      PutHolds(r.kv, w, subject, judged.value);
    }
    if GetClient(r.kv, subject).Some? && GetClient(r.kv, substitute).Some? {
      OrderIsLexicographic(GetClient(r.kv, subject).value.latestHeight, GetClient(r.kv, substitute).value.latestHeight);
    }
  }

  /** A creation is accepted exactly if its type is valid, allowed and not the localhost's, both states
      are present, valid and of one type, and the implementation initialises; the counter moves on. */
  lemma CreateStores(r: Registry, c: LightClient, consensus: Option<ConsensusRecord>, basic: bool, initialized: bool, w: Writes)
    requires r.next <= MAX_UINT64
    ensures var m, id := Apply(r, Create(c, consensus, basic, initialized, w)), c.clientType + "-" + FormatUint(r.next);
            && (m.Some? <==>
                  && ValidateClientType(c.clientType) && c.clientType != "09-localhost" && c.clientType in r.allowed
                  && consensus.Some? && consensus.value.clientType == c.clientType && basic && initialized)
            && (m.Some? ==>
                  && m.value.next == (if r.next < MAX_UINT64 then r.next + 1 else 0) && m.value.allowed == r.allowed
                  && ConsensusKey(id, c.latestHeight) in m.value.kv
                  && m.value.kv[ConsensusKey(id, c.latestHeight)] == ConsensusValue(consensus.value)
                  && (STATE !in w.sets && STATE !in w.deletes ==> GetClient(m.value.kv, id) == Some(c))
                  && forall k :: k != StateKey(id) && k != ConsensusKey(id, c.latestHeight) ==> AsWritten(r.kv, w, m.value.kv, id, k))
  {
    hide ValidateClientType, Written, Put, GetClient, FormatUint, AsWritten, StateKey, ConsensusKey, ConsensusStatePath;
    var id := FormatClientIdentifier(c.clientType, r.next);
    if consensus.Some? {
      var b := Put(r.kv, id, STATE, ClientValue(c));
      var x, v := ConsensusStatePath(c.latestHeight), ConsensusValue(consensus.value);
      KeyParts(id, c.latestHeight);
      PutAtKey(Written(b, id, w), id, x, v);
      if LeavesState(w) {
        PutGets(r.kv, id, c);
        WritesLeaveClient(b, id, w);
        ConsensusLeavesClient(Written(b, id, w), id, c.latestHeight, v);
      }
      forall k | k != StateKey(id) && k != ConsensusKey(id, c.latestHeight)
        ensures AsWritten(r.kv, w, Put(Written(b, id, w), id, x, v), id, k)
      {
        WrittenAt(b, id, w, k);
        StateIsElsewhere(r.kv, w, Written(b, id, w), id, ClientValue(c), k);
        OtherKeyStays(r.kv, w, Written(b, id, w), id, x, v, k);
      }
    }
  }

  lemma StateIsElsewhere(kv: map<string, Value>, w: Writes, after: map<string, Value>, id: string, v: Value, k: string)
    requires AsWritten(Put(kv, id, STATE, v), w, after, id, k) && k != ClientPrefix(id) + STATE
    ensures AsWritten(kv, w, after, id, k)
  {
    hide ClientPrefix, HasPrefix;
  }
}
