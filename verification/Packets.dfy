/** What each handler does to the packet stores of a channel, and why every packet is settled at
    most once: a receipt excludes a timeout, and a timeout excludes a later receipt. */
module Packets {
  import opened Basics
  import opened Denoms
  import opened Heights
  import opened Banking
  import opened Chains
  import opened Network

  /** Time, block history and trace store of a chain only grow. */
  ghost predicate Grows(c: Chain, d: Chain) {
    && d.hrp == c.hrp
    && (forall h :: h in c.traces ==> h in d.traces)
    && (forall h :: h in c.blockTimes ==> h in d.blockTimes && d.blockTimes[h] == c.blockTimes[h])
    && d.height.GTE(c.height) && d.Time() >= c.Time()
  }

  lemma GTETransitive(a: Height, b: Height, c: Height)
    requires a.GTE(b) && b.GTE(c)
    ensures a.GTE(c)
  {
  }

  lemma ExpiredStays(c: Chain, d: Chain, r: ChannelEnd, t: ChannelEnd, m: Commitment)
    requires Grows(c, d) && (r.closedAt.Some? ==> t.closedAt.Some?) && Expired(c, r, m)
    ensures Expired(d, t, m)
  {
    if c.height.GTE(m.timeoutHeight) {
      GTETransitive(d.height, c.height, m.timeoutHeight);
    }
  }

  lemma HonestStays(c: Chain, d: Chain, source: Hop, payload: Payload)
    requires Grows(c, d) && HonestPayload(c, source, payload)
    ensures HonestPayload(d, source, payload)
  {
  }

  lemma TimelyStays(c: Chain, d: Chain, r: ChannelEnd, t: ChannelEnd, m: Commitment, h: Height)
    requires Grows(c, d) && Timely(c, r, m, h) && c.height.GTE(h)
    requires t.closedAt == r.closedAt || t.closedAt == Some(c.height)
    ensures Timely(d, t, m, h)
  {
  }

  /** Nothing but the surroundings changes: other ends' stores, other chains, later blocks. */
  lemma SurroundingsChange(s: ChannelEnd, r: ChannelEnd, cs: Chain, cr: Chain, log: multiset<Event>, e: End,
                           t: ChannelEnd, u: ChannelEnd, ds: Chain, dr: Chain, log': multiset<Event>)
    requires PacketsOk(s, r, cs, cr, e, log)
    requires Grows(cs, ds) && Grows(cr, dr)
    requires t.commitments == s.commitments && t.history == s.history && t.nextSequenceSend == s.nextSequenceSend
    requires u.receipts == r.receipts && u.acks == r.acks
    requires u.closedAt == r.closedAt || (r.closedAt.None? && u.closedAt == Some(cr.height))
    requires forall h :: h in cr.blockTimes ==> cr.height.GTE(h)
    requires forall k :: log'[Credited(e, k)] == log[Credited(e, k)] && log'[Refunded(e, k)] == log[Refunded(e, k)]
    ensures PacketsOk(t, u, ds, dr, e, log')
  {
    hide HonestPayload, Expired, Timely, Grows, StoresAgree, Delivered, PaidBack, Height.GTE;
    StoresAgreeStay(s, r, t, u);
    assert t.history == s.history && t.commitments == s.commitments;
    forall k | k in s.history
      ensures HonestPayload(ds, e.id, s.history[k].payload)
    {
      HonestStays(cs, ds, e.id, s.history[k].payload);
    }
    forall k | k in s.history && k !in s.commitments && k !in r.acks
      ensures Expired(dr, u, s.history[k])
    {
      ExpiredStays(cr, dr, r, u, s.history[k]);
    }
    forall k | k in r.receipts
      ensures Timely(dr, u, s.history[k], r.receipts[k])
    {
      TimelyKnown(cr, r, s.history[k], r.receipts[k]);
      TimelyStays(cr, dr, r, u, s.history[k], r.receipts[k]);
    }
    forall k
      ensures Delivered(u, k) == Delivered(r, k) && PaidBack(t, u, k) == PaidBack(s, r, k)
    {
      PaymentsStay(s, r, t, u, k);
    }
  }

  lemma StoresAgreeStay(s: ChannelEnd, r: ChannelEnd, t: ChannelEnd, u: ChannelEnd)
    requires StoresAgree(s, r)
    requires t.commitments == s.commitments && t.history == s.history && t.nextSequenceSend == s.nextSequenceSend
    requires u.receipts == r.receipts && u.acks == r.acks
    ensures StoresAgree(t, u) && forall k :: k in r.receipts ==> k in s.history
  {
  }

  lemma TimelyKnown(c: Chain, r: ChannelEnd, m: Commitment, h: Height)
    requires Timely(c, r, m, h)
    ensures h in c.blockTimes
  {
  }

  lemma PaymentsStay(s: ChannelEnd, r: ChannelEnd, t: ChannelEnd, u: ChannelEnd, k: nat)
    requires t.commitments == s.commitments && t.history == s.history && u.acks == r.acks
    ensures Delivered(u, k) == Delivered(r, k) && PaidBack(t, u, k) == PaidBack(s, r, k)
  {
  }

  lemma Send(s: ChannelEnd, r: ChannelEnd, cs: Chain, cr: Chain, e: End, log: multiset<Event>, m: Commitment, t: ChannelEnd)
    requires PacketsOk(s, r, cs, cr, e, log) && s.nextSequenceSend != 0
    requires HonestPayload(cs, e.id, m.payload)
    requires var k := s.nextSequenceSend;
             t == s.(nextSequenceSend := (k + 1) % TWO_TO_THE_64, commitments := s.commitments[k := m], history := s.history[k := m])
    ensures PacketsOk(t, r, cs, cr, e, log)
    ensures s.nextSequenceSend !in s.commitments && s.nextSequenceSend !in r.acks
  {
    hide HonestPayload, Expired, Timely;
    var n := s.nextSequenceSend;
    assert n !in s.history && n !in r.receipts && n !in r.acks;
    assert StoresAgree(t, r);
    forall k
      ensures log[Refunded(e, k)] == if PaidBack(t, r, k) then 1 else 0
    {
      assert log[Refunded(e, k)] == if PaidBack(s, r, k) then 1 else 0;
    }
    hide StoresAgree, Delivered, PaidBack;
    assert forall k :: k in r.receipts ==> t.history[k] == s.history[k];
    assert forall k :: k in t.history && k !in t.commitments ==> k in s.history && t.history[k] == s.history[k];
  }

  /** A packet that the receiving end accepts is still committed: it was neither refunded nor
      settled before. */
  lemma AcceptedIsCommitted(s: ChannelEnd, r: ChannelEnd, cs: Chain, cr: Chain, e: End, log: multiset<Event>, p: Packet)
    requires PacketsOk(s, r, cs, cr, e, log) && p.dest in cr.channels && cr.channels[p.dest] == r
    requires p.sequence in s.history && s.history[p.sequence] == CommitPacket(p)
    requires ReceiveError(cr, p).None? && p.sequence !in r.receipts
    ensures p.sequence in s.commitments && s.commitments[p.sequence] == CommitPacket(p) && p.sequence !in r.acks
  {
  }

  lemma Receive(s: ChannelEnd, r: ChannelEnd, cs: Chain, cr: Chain, e: End, log: multiset<Event>, p: Packet, ack: Ack, u: ChannelEnd)
    requires PacketsOk(s, r, cs, cr, e, log) && p.dest in cr.channels && cr.channels[p.dest] == r && cr.height in cr.blockTimes
    requires p.sequence in s.history && s.history[p.sequence] == CommitPacket(p)
    requires ReceiveError(cr, p).None? && p.sequence !in r.receipts
    requires u == r.(receipts := r.receipts[p.sequence := cr.height], acks := r.acks[p.sequence := ack])
    ensures PacketsOk(s, u, cs, cr, e, if ack.ResultAck? then log + multiset{Credited(e, p.sequence)} else log)
  {
    hide HonestPayload;
    AcceptedIsCommitted(s, r, cs, cr, e, log, p);
    var log' := if ack.ResultAck? then log + multiset{Credited(e, p.sequence)} else log;
    assert Timely(cr, u, s.history[p.sequence], cr.height);
    forall k
      ensures log'[Credited(e, k)] == if Delivered(u, k) then 1 else 0
      ensures log'[Refunded(e, k)] == if PaidBack(s, u, k) then 1 else 0
    {
      assert log[Credited(e, k)] == if Delivered(r, k) then 1 else 0;
      assert log[Refunded(e, k)] == if PaidBack(s, r, k) then 1 else 0;
    }
  }

  /** Removing a commitment: after a success acknowledgement nothing is paid back, after an error
      acknowledgement or a timeout the sender is. */
  lemma Remove(s: ChannelEnd, r: ChannelEnd, cs: Chain, cr: Chain, e: End, log: multiset<Event>, k: nat, refunded: bool, t: ChannelEnd)
    requires PacketsOk(s, r, cs, cr, e, log) && k in s.commitments
    requires t == s.(commitments := s.commitments - {k})
    requires k in r.acks || Expired(cr, r, s.history[k])
    requires refunded <==> !Delivered(r, k)
    ensures PacketsOk(t, r, cs, cr, e, if refunded then log + multiset{Refunded(e, k)} else log)
  {
    hide HonestPayload, Expired, Timely;
    var log' := if refunded then log + multiset{Refunded(e, k)} else log;
    forall j
      ensures log'[Credited(e, j)] == if Delivered(r, j) then 1 else 0
      ensures log'[Refunded(e, j)] == if PaidBack(t, r, j) then 1 else 0
    {
      assert log[Credited(e, j)] == if Delivered(r, j) then 1 else 0;
      assert log[Refunded(e, j)] == if PaidBack(s, r, j) then 1 else 0;
    }
  }

  /** The timeout of `m` had passed at height `h`. */
  predicate TimedOutAt(c: Chain, m: Commitment, h: Height)
    requires h in c.blockTimes
  {
    || (!m.timeoutHeight.IsZero() && !h.LT(m.timeoutHeight))
    || (m.timeoutTimestamp != 0 && c.blockTimes[h] >= m.timeoutTimestamp)
  }

  /** A receipt that came in time is older than any height at which the timeout had passed. */
  lemma TimelyBeforeTimeout(c: Chain, r: ChannelEnd, m: Commitment, x: Height, h: Height)
    requires ChainOk(c) && Timely(c, r, m, x) && h in c.blockTimes && TimedOutAt(c, m, h)
    ensures x.LT(h)
  {
    hide Bank.Conserved, Bank.Balance, Bank.Supply, GoodTrace;
    assert x.LT(h) || x == h || h.LT(x);
  }

  lemma TimedOutIsExpired(c: Chain, r: ChannelEnd, m: Commitment, h: Height)
    requires ChainOk(c) && h in c.blockTimes && TimedOutAt(c, m, h)
    ensures Expired(c, r, m)
  {
    hide Bank.Conserved, Bank.Balance, Bank.Supply, GoodTrace;
    assert c.height.GTE(h);
    assert c.height == h || h.LT(c.height);
  }

  /** An honest proof that the packet was absent when its timeout had passed shows that it was not
      received and never will be. */
  lemma TimeoutExcludesReceipt(s: ChannelEnd, r: ChannelEnd, cs: Chain, cr: Chain, e: End, log: multiset<Event>, k: nat, h: Height)
    requires PacketsOk(s, r, cs, cr, e, log) && ChainOk(cr) && k in s.history
    requires h in cr.blockTimes && !(k in r.receipts && r.receipts[k].LT(h))
    requires TimedOutAt(cr, s.history[k], h)
    ensures k !in r.receipts && k !in r.acks && Expired(cr, r, s.history[k])
  {
    hide ChainOk, TimedOutAt, Timely, Expired, HonestPayload, Delivered, PaidBack;
    TimedOutIsExpired(cr, r, s.history[k], h);
    if k in r.receipts {
      TimelyBeforeTimeout(cr, r, s.history[k], r.receipts[k], h);
    }
  }

  /** The same for a proof that the channel was closed and the packet absent. */
  lemma ClosureExcludesReceipt(s: ChannelEnd, r: ChannelEnd, cs: Chain, cr: Chain, e: End, log: multiset<Event>, k: nat, h: Height)
    requires PacketsOk(s, r, cs, cr, e, log) && k in s.history
    requires !(k in r.receipts && r.receipts[k].LT(h))
    requires r.closedAt.Some? && r.closedAt.value.LT(h)
    ensures k !in r.receipts && k !in r.acks && Expired(cr, r, s.history[k])
  {
    if k in r.receipts {
      assert Timely(cr, r, s.history[k], r.receipts[k]);
      LTTransitiveLeft(r.receipts[k], r.closedAt.value, h);
    }
  }

  lemma LTTransitiveLeft(a: Height, b: Height, c: Height)
    requires b.GTE(a) && b.LT(c)
    ensures a.LT(c)
  {
  }
}
