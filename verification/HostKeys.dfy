/** The key space of the core store (modules/core/24-host/keys.go): how keys are spelt, why no two
    of them collide, and how the parsers of modules/core/24-host/parse.go read them back. */
module HostKeys {
  import opened Basics
  import opened Strings
  import opened Identifiers
  import opened Decimals
  import opened Heights

  datatype Key =
    | ClientState(client: string)
    | ConsensusState(client: string, height: Height)
    | ClientConnections(client: string)
    | Connection(connection: string)
    | ChannelEnd(port: string, channel: string)
    | ChannelCapability(port: string, channel: string)
    | NextSequenceSend(port: string, channel: string)
    | NextSequenceRecv(port: string, channel: string)
    | NextSequenceAck(port: string, channel: string)
    | PacketCommitment(port: string, channel: string, sequence: nat)
    | PacketAcknowledgement(port: string, channel: string, sequence: nat)
    | PacketReceipt(port: string, channel: string, sequence: nat)
    | Port(port: string)
  {
    predicate OfClient() { ClientState? || ConsensusState? || ClientConnections? }

    predicate OfChannel() { !OfClient() && !Connection? && !Port? }
  }

  /** `Height.String`. */
  function HeightText(h: Height): string {
    FormatUint(h.revisionNumber) + "-" + FormatUint(h.revisionHeight)
  }

  function ParseHeight(s: string): Option<Height> {
    var parts := Split(s, '-');
    if |parts| != 2 then None
    else
      var n, h := ParseUint(parts[0]), ParseUint(parts[1]);
      if n.None? || h.None? then None else Some(Height(n.value, h.value))
  }

  function FullClientPath(client: string, path: string): string {
    "clients" + "/" + client + "/" + path
  }

  function ConsensusStatePath(h: Height): string {
    "consensusStates" + "/" + HeightText(h)
  }

  function ChannelPath(port: string, channel: string): string {
    "ports" + "/" + port + "/" + "channels" + "/" + channel
  }

  function SequencePath(sequence: nat): string {
    "sequences" + "/" + FormatUint(sequence)
  }

  function Path(k: Key): string {
    match k
    case ClientState(c) => FullClientPath(c, "clientState")
    case ConsensusState(c, h) => FullClientPath(c, ConsensusStatePath(h))
    case ClientConnections(c) => FullClientPath(c, "connections")
    case Connection(c) => "connections" + "/" + c
    case ChannelEnd(p, c) => "channelEnds" + "/" + ChannelPath(p, c)
    case ChannelCapability(p, c) => "capabilities" + "/" + ChannelPath(p, c)
    case NextSequenceSend(p, c) => "nextSequenceSend" + "/" + ChannelPath(p, c)
    case NextSequenceRecv(p, c) => "nextSequenceRecv" + "/" + ChannelPath(p, c)
    case NextSequenceAck(p, c) => "nextSequenceAck" + "/" + ChannelPath(p, c)
    case PacketCommitment(p, c, n) => "commitments" + "/" + ChannelPath(p, c) + "/" + "sequences" + "/" + FormatUint(n)
    case PacketAcknowledgement(p, c, n) => "acks" + "/" + ChannelPath(p, c) + "/" + "sequences" + "/" + FormatUint(n)
    case PacketReceipt(p, c, n) => "receipts" + "/" + ChannelPath(p, c) + "/" + SequencePath(n)
    case Port(p) => "ports" + "/" + p
  }

  /** The identifiers in a key passed their validators. */
  predicate Valid(k: Key) {
    match k
    case ClientState(c) => ValidClientId(c)
    case ConsensusState(c, _) => ValidClientId(c)
    case ClientConnections(c) => ValidClientId(c)
    case Connection(c) => ValidConnectionId(c)
    case Port(p) => ValidPortId(p)
    case _ => ValidPortId(k.port) && ValidChannelId(k.channel)
  }

  // ---------------------------------------------------------------- keys as lists of segments

  function Family(k: Key): string {
    match k
    case ClientState(_) => "clients"
    case ConsensusState(_, _) => "clients"
    case ClientConnections(_) => "clients"
    case Connection(_) => "connections"
    case ChannelEnd(_, _) => "channelEnds"
    case ChannelCapability(_, _) => "capabilities"
    case NextSequenceSend(_, _) => "nextSequenceSend"
    case NextSequenceRecv(_, _) => "nextSequenceRecv"
    case NextSequenceAck(_, _) => "nextSequenceAck"
    case PacketCommitment(_, _, _) => "commitments"
    case PacketAcknowledgement(_, _, _) => "acks"
    case PacketReceipt(_, _, _) => "receipts"
    case Port(_) => "ports"
  }

  predicate Sequenced(k: Key) { k.PacketCommitment? || k.PacketAcknowledgement? || k.PacketReceipt? }

  /** The segments after the first. */
  function Tail(k: Key): seq<string> {
    match k
    case ClientState(c) => [c, "clientState"]
    case ConsensusState(c, h) => [c, "consensusStates", HeightText(h)]
    case ClientConnections(c) => [c, "connections"]
    case Connection(c) => [c]
    case Port(p) => [p]
    case _ => if Sequenced(k) then ["ports", k.port, "channels", k.channel, "sequences", FormatUint(k.sequence)]
              else ["ports", k.port, "channels", k.channel]
  }

  lemma HeightTextFree(h: Height)
    ensures '/' !in HeightText(h)
  {
    DigitsAvoid(h.revisionNumber, '/');
    DigitsAvoid(h.revisionHeight, '/');
  }

  lemma ValidIsFree(id: string, min: nat, max: nat)
    requires ValidIdentifier(id, min, max)
    ensures '/' !in id
  {
    hide Blank, IsIdChar;
  }

  lemma TailFree(k: Key)
    requires Valid(k)
    ensures AllFree(Tail(k), '/') && '/' !in Family(k)
  {
    hide FormatUint, HeightText, ValidIdentifier;
    if k.OfClient() {
      ValidIsFree(k.client, 9, MAX_LENGTH);
      if k.ConsensusState? {
        HeightTextFree(k.height);
      }
    } else if k.Connection? {
      ValidIsFree(k.connection, 10, MAX_LENGTH);
    } else {
      ValidIsFree(k.port, 2, MAX_PORT_LENGTH);
      if k.OfChannel() {
        ValidIsFree(k.channel, 8, MAX_LENGTH);
      }
      if Sequenced(k) {
        DigitsAvoid(k.sequence, '/');
      }
    }
  }

  lemma Join1(a: string)
    ensures Join([a], '/') == a
  {
  }

  lemma Join2(a: string, b: string)
    ensures Join([a, b], '/') == a + "/" + b
  {
  }

  lemma Join3(a: string, b: string, c: string)
    ensures Join([a, b, c], '/') == a + "/" + b + "/" + c
  {
    Join2(b, c);
    assert [a, b, c][1..] == [b, c];
    Assoc(a, b, c);
  }

  lemma Assoc(a: string, b: string, c: string)
    ensures a + "/" + (b + "/" + c) == a + "/" + b + "/" + c
  {
  }

  lemma Join4(a: string, b: string, c: string, d: string)
    ensures Join([a, b, c, d], '/') == a + "/" + b + "/" + c + "/" + d
  {
    Join2(a, b);
    Join2(c, d);
    JoinAppend([a, b], [c, d], '/');
    assert [a, b] + [c, d] == [a, b, c, d];
    Assoc(a + "/" + b, c, d);
  }

  lemma TailIsPath(k: Key)
    ensures Path(k) == Family(k) + "/" + Join(Tail(k), '/')
  {
    hide FormatUint, HeightText, Join;
    if Sequenced(k) {
      SequencedPath(k);
    } else if k.OfChannel() {
      Join4("ports", k.port, "channels", k.channel);
    } else if k.OfClient() {
      ClientPathJoins(k);
    } else {
      Join1(if k.Port? then k.port else k.connection);
    }
  }

  lemma ClientPathJoins(k: Key)
    requires k.OfClient()
    ensures Path(k) == Family(k) + "/" + Join(Tail(k), '/')
  {
    hide FormatUint, HeightText, Join;
    Join2(k.client, "clientState");
    Join2(k.client, "connections");
    Assoc("clients", k.client, "clientState");
    Assoc("clients", k.client, "connections");
    if k.ConsensusState? {
      Join3(k.client, "consensusStates", HeightText(k.height));
      Assoc(k.client, "consensusStates", HeightText(k.height));
      Assoc("clients", k.client, ConsensusStatePath(k.height));
    }
  }

  lemma SequencedPath(k: Key)
    requires Sequenced(k)
    ensures Path(k) == Family(k) + "/" + Join(Tail(k), '/')
  {
    var front, back := ["ports", k.port, "channels", k.channel], ["sequences", FormatUint(k.sequence)];
    Join4("ports", k.port, "channels", k.channel);
    Join2("sequences", FormatUint(k.sequence));
    JoinAppend(front, back, '/');
    assert front + back == Tail(k);
    hide ChannelPath, FormatUint, Join;
    var f, x, n := Family(k), ChannelPath(k.port, k.channel), FormatUint(k.sequence);
    assert Path(k) == f + "/" + x + "/" + "sequences" + "/" + n || Path(k) == f + "/" + x + "/" + ("sequences" + "/" + n);
    Assoc(f + "/" + x, "sequences", n);
    Assoc(f, x, "sequences" + "/" + n);
  }

  /** Splitting a key at its slashes gives back its segments. */
  lemma PathSplits(k: Key)
    requires Valid(k)
    ensures Split(Path(k), '/') == [Family(k)] + Tail(k)
  {
    TailIsPath(k);
    TailFree(k);
    hide Path, Family, Tail, Valid;
    SplitFirst(Family(k), Join(Tail(k), '/'), '/');
    TailNotEmpty(k);
    SplitInvertsJoin(Tail(k), '/');
  }

  lemma TailNotEmpty(k: Key)
    ensures Tail(k) != []
  {
  }

  lemma HeightTextInjective(a: Height, b: Height)
    requires HeightText(a) == HeightText(b)
    ensures a == b
  {
    DigitsAvoid(a.revisionNumber, '-');
    DigitsAvoid(b.revisionNumber, '-');
    FirstPartUnique(FormatUint(a.revisionNumber), FormatUint(b.revisionNumber),
                    FormatUint(a.revisionHeight), FormatUint(b.revisionHeight), '-');
    FormatInjective(a.revisionNumber, b.revisionNumber);
    FormatInjective(a.revisionHeight, b.revisionHeight);
  }

  /** Reading a printed height gives it back when both numbers fit 64 bits. */
  lemma HeightTextParses(h: Height)
    ensures ParseHeight(HeightText(h)) == if h.revisionNumber <= MAX_UINT64 && h.revisionHeight <= MAX_UINT64 then Some(h) else None
  {
    var n, m := FormatUint(h.revisionNumber), FormatUint(h.revisionHeight);
    DigitsAvoid(h.revisionNumber, '-');
    DigitsAvoid(h.revisionHeight, '-');
    SplitFirst(n, m, '-');
    SplitWithoutSeparator(m, '-');
    assert [n] + [m] == [n, m];
    ParseInvertsFormat(h.revisionNumber);
    ParseInvertsFormat(h.revisionHeight);
  }

  // ---------------------------------------------------------------- what the key space promises

  /** Segments determine the key. */
  lemma SegmentsInjective(a: Key, b: Key)
    requires Family(a) == Family(b) && Tail(a) == Tail(b)
    ensures a == b
  {
    FamiliesDiffer(a, b);
    if a.OfClient() {
      assert Tail(a)[0] == a.client && Tail(b)[0] == b.client && Tail(a)[1] == Tail(b)[1];
      if a.ConsensusState? && b.ConsensusState? {
        assert Tail(a)[2] == HeightText(a.height) && Tail(b)[2] == HeightText(b.height);
        HeightTextInjective(a.height, b.height);
      }
    } else if a.OfChannel() {
      assert Tail(a)[1] == a.port && Tail(b)[1] == b.port && Tail(a)[3] == a.channel && Tail(b)[3] == b.channel;
      if Sequenced(a) {
        assert Tail(a)[5] == FormatUint(a.sequence) && Tail(b)[5] == FormatUint(b.sequence);
        FormatInjective(a.sequence, b.sequence);
      }
    } else {
      assert Tail(a)[0] == Tail(b)[0];
    }
  }

  predicate SameFamily(a: Key, b: Key) {
    || (a.OfClient() && b.OfClient())
    || (a.Connection? && b.Connection?) || (a.ChannelEnd? && b.ChannelEnd?) || (a.ChannelCapability? && b.ChannelCapability?)
    || (a.NextSequenceSend? && b.NextSequenceSend?) || (a.NextSequenceRecv? && b.NextSequenceRecv?)
    || (a.NextSequenceAck? && b.NextSequenceAck?) || (a.PacketCommitment? && b.PacketCommitment?)
    || (a.PacketAcknowledgement? && b.PacketAcknowledgement?) || (a.PacketReceipt? && b.PacketReceipt?) || (a.Port? && b.Port?)
  }

  lemma FamiliesDiffer(a: Key, b: Key)
    ensures Family(a) == Family(b) <==> SameFamily(a, b)
  {
  }

  /** No two different keys of any kind are stored under the same path. */
  lemma KeysNeverCollide(a: Key, b: Key)
    requires Valid(a) && Valid(b)
    ensures Path(a) == Path(b) <==> a == b
  {
    if Path(a) == Path(b) {
      PathSplits(a);
      PathSplits(b);
      hide Path, Family, Tail, Valid;
      var s, t := [Family(a)] + Tail(a), [Family(b)] + Tail(b);
      assert s[0] == Family(a) && t[0] == Family(b);
      assert s[1..] == Tail(a) && t[1..] == Tail(b);
      SegmentsInjective(a, b);
    }
  }

  /** The prefix of a client's own store (modules/core/02-client/keeper/keeper.go). */
  function ClientPrefix(client: string): string {
    "clients" + "/" + client + "/"
  }

  /** What is written through one client's store is never read through another's, whatever the
      keys inside the stores are. */
  lemma ClientStoresAreIsolated(a: string, b: string, x: string, y: string)
    requires ValidClientId(a) && ValidClientId(b)
    ensures ClientPrefix(a) + x == ClientPrefix(b) + y <==> a == b && x == y
  {
    if ClientPrefix(a) + x == ClientPrefix(b) + y {
      assert ClientPrefix(a) + x == "clients" + "/" + (a + "/" + x);
      assert ClientPrefix(b) + y == "clients" + "/" + (b + "/" + y);
      FirstPartUnique("clients", "clients", a + "/" + x, b + "/" + y, '/');
      FirstPartUnique(a, b, x, y, '/');
    }
  }

  /** Of all keys of the host, a client's store contains exactly that client's own. */
  lemma ClientStoreHoldsOwnKeys(k: Key, client: string)
    requires Valid(k) && ValidClientId(client)
    ensures HasPrefix(Path(k), ClientPrefix(client)) <==> k.OfClient() && k.client == client
  {
    hide FormatUint, HeightText, Path, Valid, ValidClientId, ValidIdentifier, Tail, Family;
    PathSplits(k);
    var s := [Family(k)] + Tail(k);
    if HasPrefix(Path(k), ClientPrefix(client)) {
      var rest := Path(k)[|ClientPrefix(client)|..];
      PrefixSegments(Path(k), client, rest);
      assert s[0] == "clients" && s[1] == client;
      assert s[1] == Tail(k)[0];
      SecondSegment(k, client);
    }
    if k.OfClient() && k.client == client {
      ClientPathPrefix(k);
    }
  }

  lemma PrefixSegments(path: string, client: string, rest: string)
    requires ValidClientId(client) && path == ClientPrefix(client) + rest
    ensures Split(path, '/') == ["clients"] + ([client] + Split(rest, '/'))
  {
    assert path == "clients" + "/" + (client + "/" + rest);
    SplitFirst("clients", client + "/" + rest, '/');
    SplitFirst(client, rest, '/');
  }

  lemma SecondSegment(k: Key, client: string)
    requires Family(k) == "clients"
    ensures k.OfClient() && Tail(k) != [] && Tail(k)[0] == k.client
  {
    FamiliesDiffer(k, ClientState(client));
  }

  lemma ClientPathPrefix(k: Key)
    requires k.OfClient()
    ensures HasPrefix(Path(k), ClientPrefix(k.client))
  {
    hide HeightText;
    var rest := match k case ClientState(_) => "clientState" case ConsensusState(_, h) => ConsensusStatePath(h) case _ => "connections";
    assert Path(k) == FullClientPath(k.client, rest) == ClientPrefix(k.client) + rest;
  }

  // ---------------------------------------------------------------- parsers

  function ParseConnectionPath(path: string): Option<string> {
    var split := Split(path, '/');
    if |split| != 2 then None else Some(split[1])
  }

  function ParseChannelPath(path: string): Option<(string, string)> {
    var split := Split(path, '/');
    if |split| < 5 then None
    else if split[1] != "ports" || split[3] != "channels" then None
    else Some((split[2], split[4]))
  }

  /** On the host's keys, the channel parser accepts exactly the keys of a channel and returns that
      channel; the connection parser returns the connection, and takes a port's key for one. */
  lemma ParsersRecoverIdentifiers(k: Key)
    requires Valid(k)
    ensures ParseChannelPath(Path(k)) == if k.OfChannel() then Some((k.port, k.channel)) else None
    ensures ParseConnectionPath(Path(k)) == if k.Connection? then Some(k.connection) else if k.Port? then Some(k.port) else None
  {
    hide Path, Valid, Tail, Family, Split;
    PathSplits(k);
    TailShape(k);
    var s, t := [Family(k)] + Tail(k), Tail(k);
    assert |s| == |t| + 1 && s[1] == t[0];
    if k.OfChannel() {
      assert s[2] == t[1] && s[3] == t[2] && s[4] == t[3];
    }
  }

  lemma TailShape(k: Key)
    ensures k.OfChannel() ==> |Tail(k)| >= 4 && Tail(k)[0] == "ports" && Tail(k)[1] == k.port && Tail(k)[2] == "channels" && Tail(k)[3] == k.channel
    ensures k.Connection? ==> Tail(k) == [k.connection]
    ensures k.Port? ==> Tail(k) == [k.port]
    ensures k.OfClient() ==> 2 <= |Tail(k)| <= 3
  {
    hide FormatUint, HeightText;
  }
}
