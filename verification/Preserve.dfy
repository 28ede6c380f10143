/** One step of one node keeps the group's invariant, provided the node, its
    messages, answers and reads are justified by a history that grew. */
module Preserve {
  import opened Types
  import opened Quorum
  import opened LogSpec
  import opened DiskSpec
  import opened CommitRule
  import opened Replica
  import opened Cluster
  import opened Link
  import opened Frames
  import C = Consensus

  /** Everything but the acting node's own state and what it newly produced. */
  ghost predicate SameGroup(s: Group, s': Group, n: NodeId) {
    && s'.peers == s.peers
    && s'.machine == s.machine
    && s'.now == s.now + 1
    && n in s.nodes
    && n in s'.nodes
    && s'.nodes == s.nodes[n := s'.nodes[n]]
  }

  ghost predicate NewOk(s: Group, s': Group, h': C.History) {
    && (forall m :: m in s'.net && m !in s.net ==> MsgOk(h', s.machine, m) && SentAt(m) <= s.now)
    && (forall p :: p in s'.prepared && p !in s.prepared ==> PreparedOk(h', s.machine, p))
    && s'.intents <= s.intents
    && (forall a :: a in s'.answered && a !in s.answered ==> AnswerOk(h', s.machine, a))
    && (forall rd :: rd in s'.begun && rd !in s.begun ==> ReadOk(h', rd) && rd.start <= s.now)
    && s.begun <= s'.begun
    && (forall rd :: rd in s'.confirmed && rd !in s.confirmed ==> rd in s'.begun && Covers(h'.commits, rd))
  }

  lemma Preserves(s: Group, h: C.History, s': Group, h': C.History, n: NodeId)
    requires Linked(s, h)
    requires Extends(h, h', s.now) && ActsFor(h, h', n)
    requires SameGroup(s, s', n) && NewOk(s, s', h')
    requires NodeOk(h', s.machine, s'.now, Others(s.peers, n), n, s'.nodes[n])
    ensures Linked(s', h')
  {
    PreservesFixed(s, h, s', h', n);
    PreservesNodes(s, h, s', h', n);
    PreservesMsgs(s, h, s', h');
    PreservesClients(s, h, s', h');
  }

  lemma PreservesFixed(s: Group, h: C.History, s': Group, h': C.History, n: NodeId)
    requires Fixed(s, h) && Extends(h, h', s.now) && SameGroup(s, s', n)
    ensures Fixed(s', h')
  {
  }

  lemma PreservesNodes(s: Group, h: C.History, s': Group, h': C.History, n: NodeId)
    requires NodesOk(s, h)
    requires Extends(h, h', s.now) && ActsFor(h, h', n)
    requires SameGroup(s, s', n)
    requires NodeOk(h', s.machine, s'.now, Others(s.peers, n), n, s'.nodes[n])
    ensures NodesOk(s', h')
  {
    hide NodeOk, Extends, ActsFor;
    forall m | m in s'.nodes
      ensures NodeOk(h', s'.machine, s'.now, Others(s'.peers, m), m, s'.nodes[m])
    {
      if m != n {
        NodeFrame(h, h', s.machine, s.now, n, Others(s.peers, m), m, s.nodes[m]);
      }
    }
  }

  lemma PreservesMsgs(s: Group, h: C.History, s': Group, h': C.History)
    requires MsgsOk(s, h)
    requires Extends(h, h', s.now)
    requires s'.machine == s.machine && s'.now == s.now + 1 && NewOk(s, s', h')
    ensures MsgsOk(s', h')
  {
    forall m | m in s'.net
      ensures MsgOk(h', s'.machine, m) && SentAt(m) < s'.now
    {
      if m in s.net {
        MsgFrame(h, h', s.machine, s.now, m);
      }
    }
    forall p | p in s'.prepared
      ensures PreparedOk(h', s'.machine, p)
    {
      if p in s.prepared {
        PreparedFrame(h, h', s.machine, s.now, p);
      }
    }
    forall it | it in s'.intents
      ensures IntentOk(h', it)
    {
      IntentFrame(h, h', s.now, it);
    }
  }

  lemma PreservesClients(s: Group, h: C.History, s': Group, h': C.History)
    requires ClientsOk(s, h)
    requires Extends(h, h', s.now)
    requires s'.machine == s.machine && s'.now == s.now + 1 && NewOk(s, s', h')
    ensures ClientsOk(s', h')
  {
    forall a | a in s'.answered
      ensures AnswerOk(h', s'.machine, a)
    {
      if a in s.answered {
        AnswerFrame(h, h', s.machine, s.now, a);
      }
    }
    forall rd | rd in s.begun
      ensures ReadOk(h', rd) && (Covers(h.commits, rd) ==> Covers(h'.commits, rd))
    {
      ReadFrame(h, h', s.now, rd);
    }
  }

  // ------------------------------------------------------------------
  // The consensus actions grow the history on behalf of one node
  // ------------------------------------------------------------------

  lemma RaiseTermGrows(h: C.History, n: NodeId, t: nat, now: nat)
    ensures Extends(h, C.RaiseTerm(h, n, t), now) && ActsFor(h, C.RaiseTerm(h, n, t), n)
  {
  }

  lemma CampaignGrows(h: C.History, n: NodeId, now: nat)
    requires (n, C.TermOf(h.term, n) + 1) !in h.campaigns
    ensures Extends(h, C.Campaign(h, n), now) && ActsFor(h, C.Campaign(h, n), n)
  {
  }

  lemma CastVoteGrows(h: C.History, n: NodeId, c: NodeId, now: nat)
    ensures Extends(h, C.CastVote(h, n, c), now) && ActsFor(h, C.CastVote(h, n, c), n)
  {
  }

  lemma ElectGrows(h: C.History, n: NodeId, q: set<NodeId>, now: nat)
    requires C.MayLead(h, n, q) && h.elections.Keys == h.leaderLog.Keys
    ensures Extends(h, C.Elect(h, n, q, now), now) && ActsFor(h, C.Elect(h, n, q, now), n)
  {
  }

  lemma ExtendGrows(h: C.History, n: NodeId, es: seq<Entry>, now: nat)
    requires C.MayExtend(h, n, es) && C.AcksOk(h.term, h.leaderLog, h.logs, h.acks)
    ensures Extends(h, C.Extend(h, n, es), now) && ActsFor(h, C.Extend(h, n, es), n)
  {
    C.AcksBounded(h);
  }

  lemma AcceptGrows(h: C.History, n: NodeId, len: nat, now: nat)
    requires C.MayAccept(h, n, len)
    ensures Extends(h, C.Accept(h, n, len), now) && ActsFor(h, C.Accept(h, n, len), n)
  {
    hide C.Merge;
  }

  lemma SettleGrows(h: C.History, n: NodeId, c: C.Commit)
    requires c.term in h.elections && h.elections[c.term].leader == n
    ensures Extends(h, C.Settle(h, c), c.at) && ActsFor(h, C.Settle(h, c), n)
  {
  }
}
