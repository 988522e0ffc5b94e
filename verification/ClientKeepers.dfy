/** The client keeper as the program runs it: a mutable store, checks with early returns, writes one
    after another (modules/core/02-client/keeper/client.go, keeper.go and proposal.go). */
module ClientKeepers {
  import opened Basics
  import opened Identifiers
  import opened Heights
  import opened HostKeys
  import opened ClientIds
  import opened Clients

  class Keeper {
    var kv: map<string, Value>
    var nextClientSequence: nat
    var allowed: seq<string>

    function View(): Registry
      reads this
    {
      Registry(kv, nextClientSequence, allowed)
    }

    constructor (r: Registry)
      ensures View() == r
    {
      kv, nextClientSequence, allowed := r.kv, r.next, r.allowed;
    }

    method GenerateClientIdentifier(clientType: string) returns (id: string)
      modifies this`nextClientSequence
      ensures id == FormatClientIdentifier(clientType, old(nextClientSequence))
      ensures nextClientSequence == (old(nextClientSequence) + 1) % (MAX_UINT64 + 1)
    {
      id := FormatClientIdentifier(clientType, nextClientSequence);
      nextClientSequence := (nextClientSequence + 1) % (MAX_UINT64 + 1);
    }

    method GetClientState(id: string) returns (c: Option<LightClient>)
      ensures c == GetClient(kv, id)
    {
      var key := Path(ClientState(id));
      if key !in kv || !kv[key].ClientValue? {
        return None;
      }
      return Some(kv[key].client);
    }

    method SetClientState(id: string, client: LightClient)
      modifies this`kv
      ensures kv == Put(old(kv), id, STATE, ClientValue(client))
    {
      kv := kv[Path(ClientState(id)) := ClientValue(client)];
    }

    method SetClientConsensusState(id: string, height: Height, record: ConsensusRecord)
      modifies this`kv
      ensures kv == Put(old(kv), id, ConsensusStatePath(height), ConsensusValue(record))
    {
      kv := kv[Path(ConsensusState(id, height)) := ConsensusValue(record)];
    }

    /** What the light client implementation does to the prefixed store it is handed. */
    method LightClientWrites(id: string, w: Writes)
      modifies this`kv
      ensures kv == Written(old(kv), id, w)
    {
      kv := Written(kv, id, w);
    }

    method CreateClient(client: LightClient, consensus: Option<ConsensusRecord>, initialized: bool, w: Writes) returns (ok: bool)
      modifies this
      ensures ok <==> Clients.CreateClient(old(View()), client, consensus, initialized, w).Some?
      ensures ok ==> View() == Clients.CreateClient(old(View()), client, consensus, initialized, w).value
    {
      hide Put, Written, FormatClientIdentifier, ConsensusStatePath;
      if client.clientType !in allowed {
        return false;
      }
      var id := GenerateClientIdentifier(client.clientType);
      SetClientState(id, client);
      LightClientWrites(id, w);
      if !initialized {
        return false;
      }
      if consensus.Some? {
        SetClientConsensusState(id, client.latestHeight, consensus.value);
      }
      return true;
    }

    method UpdateClient(id: string, expired: bool, header: Option<Height>, verdict: Option<Verdict>, w: Writes) returns (ok: bool)
      modifies this
      ensures ok <==> Clients.UpdateClient(old(View()), id, expired, header, verdict, w).Some?
      ensures ok ==> View() == Clients.UpdateClient(old(View()), id, expired, header, verdict, w).value
    {
      hide Put, Written, GetClient, ConsensusStatePath;
      var client := GetClientState(id);
      if client.None? {
        return false;
      }
      if StatusOf(client.value, expired) != Active {
        return false;
      }
      if verdict.None? {
        return false;
      }
      LightClientWrites(id, w);
      SetClientState(id, verdict.value.client);
      if StatusOf(verdict.value.client, expired) != Frozen {
        if header.Some? && id != LOCALHOST {
          SetClientConsensusState(id, header.value, verdict.value.record);
        }
      }
      return true;
    }

    method UpgradeClient(id: string, expired: bool, verdict: Option<Verdict>, w: Writes) returns (ok: bool)
      modifies this
      ensures ok <==> Clients.UpgradeClient(old(View()), id, expired, verdict, w).Some?
      ensures ok ==> View() == Clients.UpgradeClient(old(View()), id, expired, verdict, w).value
    {
      hide Put, Written, GetClient, ConsensusStatePath;
      var client := GetClientState(id);
      if client.None? {
        return false;
      }
      if StatusOf(client.value, expired) != Active {
        return false;
      }
      if verdict.None? {
        return false;
      }
      LightClientWrites(id, w);
      SetClientState(id, verdict.value.client);
      SetClientConsensusState(id, verdict.value.client.latestHeight, verdict.value.record);
      return true;
    }

    method CheckMisbehaviourAndUpdateState(id: string, expired: bool, basic: bool, judged: Option<LightClient>, w: Writes) returns (ok: bool)
      modifies this
      ensures ok <==> CheckMisbehaviour(old(View()), id, expired, basic, judged, w).Some?
      ensures ok ==> View() == CheckMisbehaviour(old(View()), id, expired, basic, judged, w).value
    {
      hide Put, Written, GetClient;
      var client := GetClientState(id);
      if client.None? {
        return false;
      }
      if StatusOf(client.value, expired) != Active {
        return false;
      }
      if !basic {
        return false;
      }
      if judged.None? {
        return false;
      }
      LightClientWrites(id, w);
      SetClientState(id, judged.value);
      return true;
    }

    method ClientUpdateProposal(subject: string, substitute: string, subjectExpired: bool, substituteExpired: bool,
                                judged: Option<LightClient>, w: Writes) returns (ok: bool)
      modifies this
      ensures ok <==> Clients.ClientUpdateProposal(old(View()), subject, substitute, subjectExpired, substituteExpired, judged, w).Some?
      ensures ok ==> View() == Clients.ClientUpdateProposal(old(View()), subject, substitute, subjectExpired, substituteExpired, judged, w).value
    {
      hide Put, Written, GetClient, Height.GTE;
      if subject == LOCALHOST || substitute == LOCALHOST {
        return false;
      }
      var subjectClient := GetClientState(subject);
      if subjectClient.None? {
        return false;
      }
      if StatusOf(subjectClient.value, subjectExpired) == Active {
        return false;
      }
      var substituteClient := GetClientState(substitute);
      if substituteClient.None? {
        return false;
      }
      if subjectClient.value.latestHeight.GTE(substituteClient.value.latestHeight) {
        return false;
      }
      if StatusOf(substituteClient.value, substituteExpired) != Active {
        return false;
      }
      if judged.None? {
        return false;
      }
      LightClientWrites(subject, w);
      SetClientState(subject, judged.value);
      return true;
    }

    /** A transaction of one message: kept if the handler succeeds, dropped otherwise. */
    method Deliver(s: Step) returns (ok: bool)
      modifies this
      ensures ok <==> Apply(old(View()), s).Some?
      ensures View() == if ok then Apply(old(View()), s).value else old(View())
    {
      hide CreateBasic, ValidClientId, Clients.CreateClient, Clients.UpdateClient, Clients.UpgradeClient, CheckMisbehaviour, Clients.ClientUpdateProposal;
      var saved := View();
      match s {
        case Create(client, consensus, basic, initialized, w) =>
          ok := CreateBasic(client, consensus, basic);
          if ok {
            ok := CreateClient(client, consensus, initialized, w);
          }
        case Update(id, expired, header, verdict, w) =>
          ok := ValidClientId(id);
          if ok {
            ok := UpdateClient(id, expired, header, verdict, w);
          }
        case Upgrade(id, expired, verdict, w) =>
          ok := ValidClientId(id);
          if ok {
            ok := UpgradeClient(id, expired, verdict, w);
          }
        case Misbehaviour(id, expired, basic, judged, w) =>
          ok := ValidClientId(id);
          if ok {
            ok := CheckMisbehaviourAndUpdateState(id, expired, basic, judged, w);
          }
        case Substitute(subject, substitute, se, te, judged, w) =>
          ok := subject != substitute && ValidClientId(subject) && ValidClientId(substitute);
          if ok {
            ok := ClientUpdateProposal(subject, substitute, se, te, judged, w);
          }
        case SetParams(list) =>
          ok, allowed := true, list;
      }
      if !ok {
        kv, nextClientSequence, allowed := saved.kv, saved.next, saved.allowed;
      }
    }
  }
}
