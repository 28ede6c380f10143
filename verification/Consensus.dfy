/** The consensus core of one Raft group, over uncompacted logs.

    A `History` is what an observer who forgets nothing would know: every
    node's term, vote and full log, and everything that ever happened
    (campaigns, votes, elections, the log each leader ever wrote,
    acknowledgements, commits). Nodes and messages do not appear here; the
    cluster model maps each of its steps to the seven actions below. */
module Consensus {
  import opened Types
  import opened Quorum

  datatype Grant = Grant(voter: NodeId, term: nat, cand: NodeId)

  datatype Election = Election(leader: NodeId, voters: set<NodeId>, at: nat)

  datatype Commit = Commit(term: nat, len: nat, at: nat)

  type LeaderLogs = map<nat, seq<Entry>>
  type Campaigns = map<(NodeId, nat), seq<Entry>>
  type Acks = map<(NodeId, nat), nat>

  datatype History = History(
    peers: set<NodeId>,
    term: map<NodeId, nat>,
    vote: map<NodeId, NodeId>,
    logs: map<NodeId, seq<Entry>>,
    campaigns: Campaigns,
    grants: set<Grant>,
    elections: map<nat, Election>,
    leaderLog: LeaderLogs,
    acks: Acks,
    commits: set<Commit>)

  function Acked(acks: Acks, v: NodeId, t: nat): nat {
    if (v, t) in acks then acks[(v, t)] else 0
  }

  function TermOf(term: map<NodeId, nat>, v: NodeId): nat {
    if v in term then term[v] else 0
  }

  function LogOf(logs: map<NodeId, seq<Entry>>, n: NodeId): seq<Entry> {
    if n in logs then logs[n] else []
  }

  // ------------------------------------------------------------------
  // The invariant
  // ------------------------------------------------------------------

  /** Every entry of the log pins the whole prefix up to it to the log of the
      leader that created it. This is the log matching property. */
  ghost predicate Good(ll: LeaderLogs, log: seq<Entry>) {
    forall i :: 0 <= i < |log| ==> log[i].term in ll && Agree(log, ll[log[i].term], i + 1)
  }

  ghost predicate TermsAtMost(log: seq<Entry>, t: nat) {
    forall i :: 0 <= i < |log| ==> log[i].term <= t
  }

  ghost predicate Domains(peers: set<NodeId>, term: map<NodeId, nat>, vote: map<NodeId, NodeId>,
                          logs: map<NodeId, seq<Entry>>) {
    && term.Keys == peers
    && vote.Keys == peers
    && logs.Keys == peers
    && NO_NODE !in peers
  }

  ghost predicate GrantOk(term: map<NodeId, nat>, vote: map<NodeId, NodeId>, g: Grant) {
    && g.voter in term
    && g.voter in vote
    && g.term <= term[g.voter]
    && (g.term == term[g.voter] ==> vote[g.voter] == g.cand)
  }

  ghost predicate GrantsOk(term: map<NodeId, nat>, vote: map<NodeId, NodeId>, grants: set<Grant>) {
    && (forall g :: g in grants ==> GrantOk(term, vote, g))
    && (forall g, k :: g in grants && k in grants && g.voter == k.voter && g.term == k.term ==> g == k)
  }

  /** Every vote went to a node that campaigned in that term. */
  ghost predicate GrantsCampaign(grants: set<Grant>, campaigns: Campaigns) {
    forall g :: g in grants ==> (g.cand, g.term) in campaigns
  }

  ghost predicate CampaignsOk(term: map<NodeId, nat>, campaigns: Campaigns) {
    forall c, t :: (c, t) in campaigns ==>
                     c in term && 0 < t <= term[c] && TermsAtMost(campaigns[(c, t)], t - 1)
  }

  ghost predicate CampaignsGood(ll: LeaderLogs, campaigns: Campaigns) {
    forall ct :: ct in campaigns ==> Good(ll, campaigns[ct])
  }

  ghost predicate ElectionOk(peers: set<NodeId>, grants: set<Grant>, t: nat, e: Election) {
    && IsQuorum(peers, e.voters)
    && forall v :: v in e.voters ==> Grant(v, t, e.leader) in grants
  }

  ghost predicate ElectionsOk(peers: set<NodeId>, grants: set<Grant>, elections: map<nat, Election>) {
    forall t :: t in elections ==> ElectionOk(peers, grants, t, elections[t])
  }

  /** A leader's log is the log it campaigned with, then entries of its term. */
  ghost predicate Grown(base: seq<Entry>, log: seq<Entry>, t: nat) {
    && Agree(base, log, |base|)
    && forall i :: |base| <= i < |log| ==> log[i].term == t
  }

  ghost predicate LeadersGrown(elections: map<nat, Election>, ll: LeaderLogs, campaigns: Campaigns) {
    && elections.Keys == ll.Keys
    && forall t :: t in elections ==>
                     && (elections[t].leader, t) in campaigns
                     && Grown(campaigns[(elections[t].leader, t)], ll[t], t)
  }

  ghost predicate LeaderLogsOk(ll: LeaderLogs) {
    forall t :: t in ll ==> Good(ll, ll[t]) && Indexed(ll[t])
  }

  ghost predicate LogsOk(ll: LeaderLogs, logs: map<NodeId, seq<Entry>>) {
    forall n :: n in logs ==> Good(ll, logs[n]) && Indexed(logs[n])
  }

  ghost predicate TermBound(term: map<NodeId, nat>, logs: map<NodeId, seq<Entry>>) {
    forall n :: n in logs ==> TermsAtMost(logs[n], TermOf(term, n))
  }

  ghost predicate AckOk(term: map<NodeId, nat>, ll: LeaderLogs, logs: map<NodeId, seq<Entry>>, v: NodeId, t: nat,
                        k: nat) {
    && v in term
    && v in logs
    && t in ll
    && t <= term[v]
    && k <= |ll[t]|
    && (t == term[v] ==> Agree(ll[t], logs[v], k))
  }

  ghost predicate AcksOk(term: map<NodeId, nat>, ll: LeaderLogs, logs: map<NodeId, seq<Entry>>, acks: Acks) {
    forall v, t :: (v, t) in acks ==> AckOk(term, ll, logs, v, t, acks[(v, t)])
  }

  /** `k` is a length at which the leader of term `t` wrote an entry of its
      own term, hence a length it may commit. */
  ghost predicate Marked(ll: LeaderLogs, t: nat, k: nat) {
    t in ll && 0 < k <= |ll[t]| && ll[t][k - 1].term == t
  }

  /** Nodes that acknowledged length `k` in term `t`. */
  ghost function Ackers(peers: set<NodeId>, acks: Acks, t: nat, k: nat): set<NodeId> {
    set v | v in peers && Acked(acks, v, t) >= k
  }

  /** Nodes that acknowledged length `k` in term `t` or may still do so. */
  ghost function Potential(h: History, t: nat, k: nat): set<NodeId> {
    set v | v in h.peers && (Acked(h.acks, v, t) >= k || TermOf(h.term, v) <= t)
  }

  ghost predicate Choosable(h: History, t: nat, k: nat) {
    IsQuorum(h.peers, Potential(h, t, k))
  }

  /** `log` contains the first `k` entries of term `t`'s leader, unless no
      majority can acknowledge them any more. */
  ghost predicate Holds(h: History, t: nat, k: nat, log: seq<Entry>) {
    Choosable(h, t, k) && t in h.leaderLog ==> Agree(h.leaderLog[t], log, k)
  }

  ghost predicate Retained(h: History) {
    forall v, t: nat, k: nat ::
      v in h.logs && Marked(h.leaderLog, t, k) && k <= Acked(h.acks, v, t) ==> Holds(h, t, k, h.logs[v])
  }

  ghost predicate Complete(h: History) {
    forall t: nat, u, k: nat ::
      Marked(h.leaderLog, t, k) && u in h.leaderLog && t < u ==> Holds(h, t, k, h.leaderLog[u])
  }

  ghost predicate GrantsComplete(h: History) {
    forall g, t: nat, k: nat ::
      g in h.grants && (g.cand, g.term) in h.campaigns && t < g.term
      && Marked(h.leaderLog, t, k) && k <= Acked(h.acks, g.voter, t) ==>
        Holds(h, t, k, h.campaigns[(g.cand, g.term)])
  }

  ghost predicate CommitOk(peers: set<NodeId>, ll: LeaderLogs, acks: Acks, c: Commit) {
    && Marked(ll, c.term, c.len)
    && IsQuorum(peers, Ackers(peers, acks, c.term, c.len))
  }

  ghost predicate CommitsOk(peers: set<NodeId>, ll: LeaderLogs, acks: Acks, commits: set<Commit>) {
    forall c :: c in commits ==> CommitOk(peers, ll, acks, c)
  }

  ghost predicate Shape(h: History) {
    && Domains(h.peers, h.term, h.vote, h.logs)
    && GrantsOk(h.term, h.vote, h.grants)
    && GrantsCampaign(h.grants, h.campaigns)
    && CampaignsOk(h.term, h.campaigns)
    && CampaignsGood(h.leaderLog, h.campaigns)
    && ElectionsOk(h.peers, h.grants, h.elections)
    && LeadersGrown(h.elections, h.leaderLog, h.campaigns)
    && LeaderLogsOk(h.leaderLog)
    && LogsOk(h.leaderLog, h.logs)
    && TermBound(h.term, h.logs)
    && AcksOk(h.term, h.leaderLog, h.logs, h.acks)
  }

  ghost predicate Inv(h: History) {
    && Shape(h)
    && Retained(h)
    && Complete(h)
    && GrantsComplete(h)
    && CommitsOk(h.peers, h.leaderLog, h.acks, h.commits)
  }

  // ------------------------------------------------------------------
  // Facts about quorums
  // ------------------------------------------------------------------

  /** A majority that has moved past term `t` without acknowledging `k` rules it out. */
  lemma PassedOver(h: History, t: nat, k: nat, q: set<NodeId>)
    requires IsQuorum(h.peers, q)
    requires forall v :: v in q ==> TermOf(h.term, v) > t && Acked(h.acks, v, t) < k
    ensures !Choosable(h, t, k)
  {
    if Choosable(h, t, k) {
      var x := QuorumsIntersect(h.peers, q, Potential(h, t, k));
      assert false;
    }
  }

  /** A committed length stays choosable for ever. */
  lemma CommitChoosable(h: History, c: Commit)
    requires CommitOk(h.peers, h.leaderLog, h.acks, c)
    ensures Choosable(h, c.term, c.len)
  {
    SubsetSize(Ackers(h.peers, h.acks, c.term, c.len), Potential(h, c.term, c.len));
  }

  /** Terms only rise, and acknowledgements of term `t` only come from nodes
      that are in term `t`. */
  ghost predicate OnlyFromTerm(h: History, h': History) {
    && h'.peers == h.peers
    && (forall v :: TermOf(h.term, v) <= TermOf(h'.term, v))
    && (forall v, t: nat :: Acked(h'.acks, v, t) > Acked(h.acks, v, t) ==> TermOf(h.term, v) <= t)
  }

  /** What is no longer choosable never becomes choosable again. */
  lemma ChoosableShrinks(h: History, h': History, t: nat, k: nat)
    requires OnlyFromTerm(h, h')
    requires Choosable(h', t, k)
    ensures Choosable(h, t, k)
  {
    SubsetSize(Potential(h', t, k), Potential(h, t, k));
  }

  lemma VotersInTerm(h: History, t: nat, v: NodeId)
    requires GrantsOk(h.term, h.vote, h.grants) && ElectionsOk(h.peers, h.grants, h.elections)
    requires t in h.elections && v in h.elections[t].voters
    ensures TermOf(h.term, v) >= t
  {
    assert ElectionOk(h.peers, h.grants, t, h.elections[t]);
    assert GrantOk(h.term, h.vote, Grant(v, t, h.elections[t].leader));
  }

  // ------------------------------------------------------------------
  // Facts about logs
  // ------------------------------------------------------------------

  /** No leader writes entries of a later term. */
  lemma LeaderTerms(h: History, t: nat)
    requires CampaignsOk(h.term, h.campaigns) && LeadersGrown(h.elections, h.leaderLog, h.campaigns)
    requires t in h.leaderLog
    ensures TermsAtMost(h.leaderLog[t], t)
    ensures t > 0
  {
    var base := h.campaigns[(h.elections[t].leader, t)];
    assert TermsAtMost(base, t - 1) && Grown(base, h.leaderLog[t], t);
  }

  /** A log is a prefix of the log of the leader that wrote its last entry. */
  lemma GoodLast(ll: LeaderLogs, log: seq<Entry>)
    requires Good(ll, log) && 0 < |log|
    ensures LastTerm(log) in ll && Agree(log, ll[LastTerm(log)], |log|)
  {
    assert log[|log| - 1].term in ll;
  }

  /** Log matching: equal index and term imply equal prefixes. */
  lemma LogMatching(ll: LeaderLogs, a: seq<Entry>, b: seq<Entry>, k: nat)
    requires Good(ll, a) && Good(ll, b)
    requires k <= |a| && k <= |b| && TermAt(a, k) == TermAt(b, k)
    ensures Agree(a, b, k)
  {
    if k > 0 {
      assert Agree(a, ll[a[k - 1].term], k);
      assert Agree(b, ll[b[k - 1].term], k);
    }
  }

  /** Terms never decrease along a log. */
  lemma TermsMonotone(h: History, log: seq<Entry>, i: nat, j: nat)
    requires CampaignsOk(h.term, h.campaigns) && LeadersGrown(h.elections, h.leaderLog, h.campaigns)
    requires Good(h.leaderLog, log)
    requires i <= j < |log|
    ensures log[i].term <= log[j].term
  {
    LeaderTerms(h, log[j].term);
    assert Agree(log, h.leaderLog[log[j].term], j + 1);
    assert log[i] == h.leaderLog[log[j].term][i];
  }

  /** Leader logs only grow at the end. */
  ghost predicate LeadersExtend(ll: LeaderLogs, ll': LeaderLogs) {
    forall t :: t in ll ==> t in ll' && Agree(ll[t], ll'[t], |ll[t]|)
  }

  lemma GoodExtends(ll: LeaderLogs, ll': LeaderLogs, log: seq<Entry>)
    requires Good(ll, log) && LeadersExtend(ll, ll')
    ensures Good(ll', log)
  {
    forall i | 0 <= i < |log|
      ensures log[i].term in ll' && Agree(log, ll'[log[i].term], i + 1)
    {
      var t := log[i].term;
      assert Agree(log, ll[t], i + 1) && Agree(ll[t], ll'[t], |ll[t]|);
    }
  }

  lemma GoodPrefix(ll: LeaderLogs, log: seq<Entry>, len: nat)
    requires Good(ll, log) && len <= |log|
    ensures Good(ll, log[..len])
  {
    var p := log[..len];
    forall i | 0 <= i < |p|
      ensures p[i].term in ll && Agree(p, ll[p[i].term], i + 1)
    {
      assert p[i] == log[i] && Agree(log, ll[log[i].term], i + 1);
    }
  }

  // ------------------------------------------------------------------
  // Actions
  // ------------------------------------------------------------------

  /** A node learns of a later term. */
  function RaiseTerm(h: History, n: NodeId, t: nat): History {
    h.(term := h.term[n := t], vote := h.vote[n := NO_NODE])
  }

  /** A node starts an election: new term, vote for itself. */
  function Campaign(h: History, n: NodeId): History {
    var t := TermOf(h.term, n) + 1;
    h.(term := h.term[n := t],
       vote := h.vote[n := n],
       campaigns := h.campaigns[(n, t) := LogOf(h.logs, n)],
       grants := h.grants + {Grant(n, t, n)})
  }

  /** A node votes for a candidate of its current term. */
  function CastVote(h: History, v: NodeId, c: NodeId): History {
    h.(vote := h.vote[v := c], grants := h.grants + {Grant(v, TermOf(h.term, v), c)})
  }

  /** A candidate with a majority of votes becomes leader of its term. */
  function Elect(h: History, c: NodeId, q: set<NodeId>, at: nat): History {
    var t := TermOf(h.term, c);
    h.(elections := h.elections[t := Election(c, q, at)],
       leaderLog := h.leaderLog[t := LogOf(h.logs, c)])
  }

  /** A leader appends entries of its own term to its log. */
  function Extend(h: History, c: NodeId, es: seq<Entry>): History {
    var t := TermOf(h.term, c);
    var log := LogOf(h.logs, c) + es;
    h.(logs := h.logs[c := log],
       leaderLog := h.leaderLog[t := log],
       acks := h.acks[(c, t) := |log|])
  }

  /** What a log becomes when it must contain `prefix`: unchanged if it
      already does, otherwise exactly `prefix`. */
  function Merge(log: seq<Entry>, prefix: seq<Entry>): seq<Entry> {
    if prefix <= log then log else prefix
  }

  /** A node in the leader's term takes over the first `len` entries of the
      leader's log and acknowledges them. */
  function Accept(h: History, n: NodeId, len: nat): History {
    var t := TermOf(h.term, n);
    if t in h.leaderLog && len <= |h.leaderLog[t]| then
      h.(logs := h.logs[n := Merge(LogOf(h.logs, n), h.leaderLog[t][..len])],
         acks := h.acks[(n, t) := Max(Acked(h.acks, n, t), len)])
    else h
  }

  /** A leader commits. */
  function Settle(h: History, c: Commit): History {
    h.(commits := h.commits + {c})
  }

  // ------------------------------------------------------------------
  // Frames
  // ------------------------------------------------------------------

  /** A step that changes no log, acknowledgement, leader log or vote. */
  lemma SameLogsKeep(h: History, h': History)
    requires Retained(h) && Complete(h) && GrantsComplete(h)
    requires OnlyFromTerm(h, h')
    requires h'.logs == h.logs && h'.leaderLog == h.leaderLog && h'.acks == h.acks
    requires h'.grants == h.grants && h'.campaigns == h.campaigns
    ensures Retained(h') && Complete(h') && GrantsComplete(h')
  {
    forall t: nat, k: nat, log | Holds(h, t, k, log)
      ensures Holds(h', t, k, log)
    {
      if Choosable(h', t, k) {
        ChoosableShrinks(h, h', t, k);
      }
    }
  }

  /** A step that adds one vote, for a log that holds all the voter acknowledged. */
  lemma GrantAdded(h: History, h': History, g0: Grant)
    requires Retained(h) && Complete(h) && GrantsComplete(h) && GrantsCampaign(h.grants, h.campaigns)
    requires OnlyFromTerm(h, h')
    requires h'.logs == h.logs && h'.leaderLog == h.leaderLog && h'.acks == h.acks
    requires h'.grants == h.grants + {g0} && (g0.cand, g0.term) in h'.campaigns
    requires forall ct :: ct in h.campaigns ==> ct in h'.campaigns && h'.campaigns[ct] == h.campaigns[ct]
    requires forall t: nat, k: nat :: Marked(h.leaderLog, t, k) && k <= Acked(h.acks, g0.voter, t) ==>
                                        Holds(h, t, k, h'.campaigns[(g0.cand, g0.term)])
    ensures Retained(h') && Complete(h') && GrantsComplete(h')
  {
    forall t: nat, k: nat, log | Holds(h, t, k, log)
      ensures Holds(h', t, k, log)
    {
      if Choosable(h', t, k) {
        ChoosableShrinks(h, h', t, k);
      }
    }
  }

  /** A vote cast by a node that had not voted for another in that term. */
  lemma GrantsOkAdded(h: History, term': map<NodeId, nat>, vote': map<NodeId, NodeId>, g0: Grant)
    requires GrantsOk(h.term, h.vote, h.grants)
    requires forall v :: v in h.term ==> v in term' && h.term[v] <= term'[v]
    requires forall v :: v in h.vote && v != g0.voter ==>
               v in vote' && vote'[v] == h.vote[v] && TermOf(term', v) == TermOf(h.term, v)
    requires GrantOk(term', vote', g0) && g0.term == term'[g0.voter]
    requires g0.voter in h.term && g0.voter in h.vote
    requires h.term[g0.voter] == g0.term ==> forall g :: g in h.grants && g.voter == g0.voter && g.term == g0.term ==>
               g == g0
    ensures GrantsOk(term', vote', h.grants + {g0})
  {
    forall g | g in h.grants
      ensures GrantOk(term', vote', g) && (g.voter == g0.voter && g.term == g0.term ==> g == g0)
    {
      assert GrantOk(h.term, h.vote, g);
    }
  }

  lemma ElectionsKeep(peers: set<NodeId>, grants: set<Grant>, grants': set<Grant>, elections: map<nat, Election>)
    requires ElectionsOk(peers, grants, elections) && grants <= grants'
    ensures ElectionsOk(peers, grants', elections)
  {
    forall u | u in elections
      ensures ElectionOk(peers, grants', u, elections[u])
    {
      assert ElectionOk(peers, grants, u, elections[u]);
    }
  }

  lemma AcksKeepTerms(h: History, term': map<NodeId, nat>)
    requires AcksOk(h.term, h.leaderLog, h.logs, h.acks)
    requires forall v :: v in h.term ==> v in term' && h.term[v] <= term'[v]
    ensures AcksOk(term', h.leaderLog, h.logs, h.acks)
  {
    forall v, u | (v, u) in h.acks
      ensures AckOk(term', h.leaderLog, h.logs, v, u, h.acks[(v, u)])
    {
      assert AckOk(h.term, h.leaderLog, h.logs, v, u, h.acks[(v, u)]);
    }
  }

  // ------------------------------------------------------------------
  // RaiseTerm
  // ------------------------------------------------------------------

  lemma RaiseTermKeeps(h: History, n: NodeId, t: nat)
    requires Inv(h) && n in h.peers && TermOf(h.term, n) < t
    ensures Inv(RaiseTerm(h, n, t))
  {
    var h' := RaiseTerm(h, n, t);
    RaiseTermShape(h, n, t);
    SameLogsKeep(h, h');
  }

  lemma RaiseTermShape(h: History, n: NodeId, t: nat)
    requires Shape(h) && n in h.peers && TermOf(h.term, n) < t
    ensures Shape(RaiseTerm(h, n, t))
  {
    var h' := RaiseTerm(h, n, t);
    forall g | g in h'.grants
      ensures GrantOk(h'.term, h'.vote, g)
    {
      assert GrantOk(h.term, h.vote, g);
    }
    AcksKeepTerms(h, h'.term);
  }

  // ------------------------------------------------------------------
  // Campaign
  // ------------------------------------------------------------------

  lemma CampaignKeeps(h: History, n: NodeId)
    requires Inv(h) && n in h.peers
    ensures Inv(Campaign(h, n))
  {
    CampaignShape(h, n);
    CampaignComplete(h, n);
  }

  lemma CampaignShape(h: History, n: NodeId)
    requires Shape(h) && n in h.peers
    ensures Shape(Campaign(h, n))
  {
    hide Good, Indexed, AcksOk, ElectionsOk, GrantsOk, LeadersGrown, LeaderLogsOk, LogsOk;
    var h' := Campaign(h, n);
    var t := TermOf(h.term, n) + 1;
    assert (n, t) !in h.campaigns;
    CampaignGrants(h, n);
    ElectionsKeep(h.peers, h.grants, h'.grants, h.elections);
    AcksKeepTerms(h, h'.term);
    CampaignLogs(h, n);
  }

  lemma CampaignGrants(h: History, n: NodeId)
    requires Domains(h.peers, h.term, h.vote, h.logs) && GrantsOk(h.term, h.vote, h.grants) && n in h.peers
    ensures GrantsOk(Campaign(h, n).term, Campaign(h, n).vote, Campaign(h, n).grants)
  {
    var h' := Campaign(h, n);
    GrantsOkAdded(h, h'.term, h'.vote, Grant(n, TermOf(h.term, n) + 1, n));
  }

  lemma CampaignLogs(h: History, n: NodeId)
    requires Domains(h.peers, h.term, h.vote, h.logs) && LogsOk(h.leaderLog, h.logs) && n in h.peers
    requires CampaignsOk(h.term, h.campaigns) && LeadersGrown(h.elections, h.leaderLog, h.campaigns)
    ensures Good(h.leaderLog, h.logs[n])
    ensures LeadersGrown(h.elections, h.leaderLog, Campaign(h, n).campaigns)
  {
    hide Good, Grown, TermsAtMost;
  }

  lemma CampaignComplete(h: History, n: NodeId)
    requires Inv(h) && n in h.peers
    ensures Retained(Campaign(h, n)) && Complete(Campaign(h, n)) && GrantsComplete(Campaign(h, n))
  {
    var h' := Campaign(h, n);
    var t := TermOf(h.term, n) + 1;
    assert (n, t) !in h.campaigns;
    GrantAdded(h, h', Grant(n, t, n));
  }

  // ------------------------------------------------------------------
  // CastVote
  // ------------------------------------------------------------------

  /** The candidate's log is at least as up to date (section 5.4.1 of the Raft paper). */
  predicate UpToDate(cand: seq<Entry>, mine: seq<Entry>) {
    if LastTerm(cand) != LastTerm(mine) then LastTerm(cand) > LastTerm(mine) else |cand| >= |mine|
  }

  ghost predicate MayVote(h: History, v: NodeId, c: NodeId) {
    && v in h.peers
    && v in h.vote && v in h.logs
    && (h.vote[v] == NO_NODE || h.vote[v] == c)
    && (c, TermOf(h.term, v)) in h.campaigns
    && UpToDate(h.campaigns[(c, TermOf(h.term, v))], h.logs[v])
  }

  lemma CastVoteKeeps(h: History, v: NodeId, c: NodeId)
    requires Inv(h) && MayVote(h, v, c)
    ensures Inv(CastVote(h, v, c))
  {
    CastVoteShape(h, v, c);
    CastVoteComplete(h, v, c);
  }

  lemma CastVoteShape(h: History, v: NodeId, c: NodeId)
    requires Shape(h) && MayVote(h, v, c)
    ensures Shape(CastVote(h, v, c))
  {
    var h' := CastVote(h, v, c);
    var g0 := Grant(v, TermOf(h.term, v), c);
    forall g | g in h.grants && g.voter == v && g.term == g0.term
      ensures g == g0
    {
      assert GrantOk(h.term, h.vote, g) && (g.cand, g.term) in h.campaigns;
    }
    GrantsOkAdded(h, h'.term, h'.vote, g0);
    ElectionsKeep(h.peers, h.grants, h'.grants, h.elections);
  }

  /** The election restriction: a log that is at least as up to date as one
      that holds a possibly committed prefix holds that prefix too. */
  lemma UpToDateHolds(h: History, t: nat, k: nat, mine: seq<Entry>, cand: seq<Entry>)
    requires CampaignsOk(h.term, h.campaigns) && LeadersGrown(h.elections, h.leaderLog, h.campaigns)
    requires Complete(h) && Marked(h.leaderLog, t, k) && Choosable(h, t, k)
    requires Good(h.leaderLog, mine) && Good(h.leaderLog, cand)
    requires Agree(h.leaderLog[t], mine, k)
    requires UpToDate(cand, mine)
    ensures Agree(h.leaderLog[t], cand, k)
  {
    assert mine[k - 1].term == t;
    TermsMonotone(h, mine, k - 1, |mine| - 1);
    GoodLast(h.leaderLog, mine);
    LeaderTerms(h, t);
    assert |cand| > 0;
    GoodLast(h.leaderLog, cand);
    var u := LastTerm(cand);
    if u > t {
      assert Holds(h, t, k, h.leaderLog[u]);
      assert cand[|cand| - 1] == h.leaderLog[u][|cand| - 1];
    }
  }

  lemma CastVoteComplete(h: History, v: NodeId, c: NodeId)
    requires Inv(h) && MayVote(h, v, c)
    ensures Retained(CastVote(h, v, c)) && Complete(CastVote(h, v, c)) && GrantsComplete(CastVote(h, v, c))
  {
    var h' := CastVote(h, v, c);
    var cand := h.campaigns[(c, TermOf(h.term, v))];
    forall u: nat, k: nat | Marked(h.leaderLog, u, k) && k <= Acked(h.acks, v, u)
      ensures Holds(h, u, k, cand)
    {
      assert Holds(h, u, k, h.logs[v]);
      if Choosable(h, u, k) {
        UpToDateHolds(h, u, k, h.logs[v], cand);
      }
    }
    GrantAdded(h, h', Grant(v, TermOf(h.term, v), c));
  }

  // ------------------------------------------------------------------
  // Elect
  // ------------------------------------------------------------------

  ghost predicate MayLead(h: History, c: NodeId, q: set<NodeId>) {
    var t := TermOf(h.term, c);
    && c in h.peers
    && c in h.logs
    && t !in h.elections
    && (c, t) in h.campaigns
    && h.campaigns[(c, t)] == h.logs[c]
    && IsQuorum(h.peers, q)
    && forall v :: v in q ==> Grant(v, t, c) in h.grants
  }

  lemma ElectKeeps(h: History, c: NodeId, q: set<NodeId>, at: nat)
    requires Inv(h) && MayLead(h, c, q)
    ensures Inv(Elect(h, c, q, at))
  {
    hide Shape, Retained, Complete, GrantsComplete, CommitsOk, Elect, AcksOk, GrantsOk, CampaignsOk, IsQuorum;
    ShapeParts(h);
    ElectShape(h, c, q, at);
    ElectCompleteHere(h, c, q);
    ElectComplete(h, c, q, at);
    ElectCommits(h, c, q, at);
  }

  lemma ElectCommits(h: History, c: NodeId, q: set<NodeId>, at: nat)
    requires Inv(h) && MayLead(h, c, q)
    ensures var h' := Elect(h, c, q, at); CommitsOk(h'.peers, h'.leaderLog, h'.acks, h'.commits)
  {
    hide Shape, Retained, Complete, GrantsComplete, CommitsOk, AcksOk, GrantsOk, CampaignsOk, IsQuorum;
    var h' := Elect(h, c, q, at);
    ShapeParts(h);
    CommitsKeep(h, h'.leaderLog, h'.acks);
  }

  lemma ElectShape(h: History, c: NodeId, q: set<NodeId>, at: nat)
    requires Shape(h) && MayLead(h, c, q)
    ensures Shape(Elect(h, c, q, at))
  {
    var h' := Elect(h, c, q, at);
    var t := TermOf(h.term, c);
    assert LeadersExtend(h.leaderLog, h'.leaderLog);
    LogsExtend(h, h'.leaderLog);
    AcksExtend(h, h'.leaderLog, h.logs);
    ElectionsAdded(h, t, Election(c, q, at));
    LeaderLogAdded(h.leaderLog, t, h.logs[c]);
    ElectGrown(h, c, q, at);
  }

  lemma ElectGrown(h: History, c: NodeId, q: set<NodeId>, at: nat)
    requires LeadersGrown(h.elections, h.leaderLog, h.campaigns) && MayLead(h, c, q)
    ensures LeadersGrown(Elect(h, c, q, at).elections, Elect(h, c, q, at).leaderLog, h.campaigns)
  {
  }

  lemma LeaderLogAdded(ll: LeaderLogs, t: nat, log: seq<Entry>)
    requires forall u :: u in ll ==> Good(ll[t := log], ll[u]) && Indexed(ll[u])
    requires Good(ll[t := log], log) && Indexed(log)
    ensures LeaderLogsOk(ll[t := log])
  {
  }

  lemma ElectionsAdded(h: History, t: nat, e: Election)
    requires ElectionsOk(h.peers, h.grants, h.elections) && ElectionOk(h.peers, h.grants, t, e)
    ensures ElectionsOk(h.peers, h.grants, h.elections[t := e])
  {
  }

  lemma AcksExtend(h: History, ll': LeaderLogs, logs': map<NodeId, seq<Entry>>)
    requires AcksOk(h.term, h.leaderLog, h.logs, h.acks)
    requires LeadersExtend(h.leaderLog, ll')
    requires forall n :: n in h.logs ==> n in logs' && Agree(h.logs[n], logs'[n], |h.logs[n]|)
    ensures AcksOk(h.term, ll', logs', h.acks)
  {
    forall v, u | (v, u) in h.acks
      ensures AckOk(h.term, ll', logs', v, u, h.acks[(v, u)])
    {
      assert AckOk(h.term, h.leaderLog, h.logs, v, u, h.acks[(v, u)]);
      assert Agree(h.leaderLog[u], ll'[u], |h.leaderLog[u]|);
    }
  }

  /** Every log stays good when leader logs grow. */
  lemma LogsExtend(h: History, ll': LeaderLogs)
    requires CampaignsGood(h.leaderLog, h.campaigns) && LeaderLogsOk(h.leaderLog) && LogsOk(h.leaderLog, h.logs)
    requires LeadersExtend(h.leaderLog, ll')
    ensures CampaignsGood(ll', h.campaigns) && LogsOk(ll', h.logs)
    ensures forall t :: t in h.leaderLog ==> Good(ll', h.leaderLog[t]) && Indexed(h.leaderLog[t])
  {
    forall log | Good(h.leaderLog, log)
      ensures Good(ll', log)
    {
      GoodExtends(h.leaderLog, ll', log);
    }
  }

  /** A winner's log holds whatever an earlier leader may still have committed. */
  lemma ElectCompleteHere(h: History, c: NodeId, q: set<NodeId>)
    requires Inv(h) && MayLead(h, c, q)
    ensures forall t: nat, k: nat :: Marked(h.leaderLog, t, k) && t < TermOf(h.term, c) ==> Holds(h, t, k, h.logs[c])
  {
    forall t: nat, k: nat | Marked(h.leaderLog, t, k) && t < TermOf(h.term, c)
      ensures Holds(h, t, k, h.logs[c])
    {
      forall v | v in q
        ensures TermOf(h.term, v) >= TermOf(h.term, c)
      {
        assert GrantOk(h.term, h.vote, Grant(v, TermOf(h.term, c), c));
      }
      if v :| v in q && Acked(h.acks, v, t) >= k {
        assert Grant(v, TermOf(h.term, c), c) in h.grants;
      } else {
        PassedOver(h, t, k, q);
      }
    }
  }

  lemma ElectComplete(h: History, c: NodeId, q: set<NodeId>, at: nat)
    requires Retained(h) && Complete(h) && GrantsComplete(h)
    requires CampaignsOk(h.term, h.campaigns) && h.elections.Keys == h.leaderLog.Keys
    requires MayLead(h, c, q)
    requires forall t: nat, k: nat :: Marked(h.leaderLog, t, k) && t < TermOf(h.term, c) ==> Holds(h, t, k, h.logs[c])
    ensures Retained(Elect(h, c, q, at)) && Complete(Elect(h, c, q, at)) && GrantsComplete(Elect(h, c, q, at))
  {
    var h' := Elect(h, c, q, at);
    var t0 := TermOf(h.term, c);
    forall t: nat, k: nat | Marked(h'.leaderLog, t, k)
      ensures Marked(h.leaderLog, t, k)
    {
      assert TermsAtMost(h.campaigns[(c, t0)], t0 - 1);
    }
    forall t: nat, k: nat, log | t in h.leaderLog && Holds(h, t, k, log)
      ensures Holds(h', t, k, log)
    {
      if Choosable(h', t, k) {
        ChoosableShrinks(h, h', t, k);
      }
    }
  }

  lemma CommitsKeep(h: History, ll': LeaderLogs, acks': Acks)
    requires CommitsOk(h.peers, h.leaderLog, h.acks, h.commits)
    requires LeadersExtend(h.leaderLog, ll')
    requires forall v, t: nat :: Acked(h.acks, v, t) <= Acked(acks', v, t)
    ensures CommitsOk(h.peers, ll', acks', h.commits)
  {
    forall c | c in h.commits
      ensures CommitOk(h.peers, ll', acks', c)
    {
      assert CommitOk(h.peers, h.leaderLog, h.acks, c);
      SubsetSize(Ackers(h.peers, h.acks, c.term, c.len), Ackers(h.peers, acks', c.term, c.len));
    }
  }

  // ------------------------------------------------------------------
  // Extend
  // ------------------------------------------------------------------

  ghost predicate MayExtend(h: History, c: NodeId, es: seq<Entry>) {
    var t := TermOf(h.term, c);
    && c in h.peers
    && c in h.logs
    && t in h.elections
    && h.elections[t].leader == c
    && t in h.leaderLog
    && h.leaderLog[t] == h.logs[c]
    && forall i :: 0 <= i < |es| ==> es[i].term == t && es[i].index == |h.logs[c]| + i + 1
  }

  lemma ExtendKeeps(h: History, c: NodeId, es: seq<Entry>)
    requires Inv(h) && MayExtend(h, c, es)
    ensures Inv(Extend(h, c, es))
  {
    hide Shape, Retained, Complete, GrantsComplete, CommitsOk, Extend, MayExtend, AcksOk, GrantsOk, CampaignsOk;
    ShapeParts(h);
    ExtendShape(h, c, es);
    ExtendRetained(h, c, es);
    ExtendComplete(h, c, es);
    ExtendGrants(h, c, es);
    ExtendCommits(h, c, es);
  }

  lemma ExtendCommits(h: History, c: NodeId, es: seq<Entry>)
    requires Inv(h) && MayExtend(h, c, es)
    ensures var h' := Extend(h, c, es); CommitsOk(h'.peers, h'.leaderLog, h'.acks, h'.commits)
  {
    hide Shape, Retained, Complete, GrantsComplete, CommitsOk, AcksOk;
    var h' := Extend(h, c, es);
    ShapeParts(h);
    AcksBounded(h);
    CommitsKeep(h, h'.leaderLog, h'.acks);
  }

  lemma ShapeParts(h: History)
    requires Shape(h)
    ensures AcksOk(h.term, h.leaderLog, h.logs, h.acks) && GrantsOk(h.term, h.vote, h.grants)
    ensures CampaignsOk(h.term, h.campaigns) && h.elections.Keys == h.leaderLog.Keys
  {
  }

  lemma AcksBounded(h: History)
    requires AcksOk(h.term, h.leaderLog, h.logs, h.acks)
    ensures forall v, t: nat :: Acked(h.acks, v, t) > 0 ==>
              t in h.leaderLog && Acked(h.acks, v, t) <= |h.leaderLog[t]| && t <= TermOf(h.term, v)
  {
    forall v, t: nat | Acked(h.acks, v, t) > 0
      ensures t in h.leaderLog && Acked(h.acks, v, t) <= |h.leaderLog[t]| && t <= TermOf(h.term, v)
    {
      assert AckOk(h.term, h.leaderLog, h.logs, v, t, h.acks[(v, t)]);
    }
  }

  lemma ExtendShape(h: History, c: NodeId, es: seq<Entry>)
    requires Shape(h) && MayExtend(h, c, es)
    ensures Shape(Extend(h, c, es))
  {
    ExtendLogs(h, c, es);
    ExtendGrown(h, c, es);
    ExtendAcks(h, c, es);
  }

  lemma ExtendLogs(h: History, c: NodeId, es: seq<Entry>)
    requires CampaignsGood(h.leaderLog, h.campaigns) && LeaderLogsOk(h.leaderLog) && LogsOk(h.leaderLog, h.logs)
    requires MayExtend(h, c, es)
    ensures CampaignsGood(Extend(h, c, es).leaderLog, h.campaigns)
    ensures LeaderLogsOk(Extend(h, c, es).leaderLog)
    ensures LogsOk(Extend(h, c, es).leaderLog, Extend(h, c, es).logs)
  {
    var h' := Extend(h, c, es);
    var t := TermOf(h.term, c);
    LogsExtend(h, h'.leaderLog);
    ExtendGood(h.leaderLog, h'.leaderLog, t, es);
    assert Indexed(h'.logs[c]);
    LeaderLogAdded(h.leaderLog, t, h'.logs[c]);
  }

  lemma ExtendAcks(h: History, c: NodeId, es: seq<Entry>)
    requires Domains(h.peers, h.term, h.vote, h.logs) && AcksOk(h.term, h.leaderLog, h.logs, h.acks)
    requires MayExtend(h, c, es)
    ensures AcksOk(h.term, Extend(h, c, es).leaderLog, Extend(h, c, es).logs, Extend(h, c, es).acks)
  {
    var h' := Extend(h, c, es);
    AcksExtend(h, h'.leaderLog, h'.logs);
    assert AckOk(h'.term, h'.leaderLog, h'.logs, c, TermOf(h.term, c), |h'.logs[c]|);
  }

  lemma ExtendGrown(h: History, c: NodeId, es: seq<Entry>)
    requires LeadersGrown(h.elections, h.leaderLog, h.campaigns) && TermBound(h.term, h.logs) && MayExtend(h, c, es)
    ensures LeadersGrown(h.elections, Extend(h, c, es).leaderLog, h.campaigns)
    ensures TermBound(h.term, Extend(h, c, es).logs)
  {
    var h' := Extend(h, c, es);
    forall t | t in h.elections
      ensures Grown(h.campaigns[(h.elections[t].leader, t)], h'.leaderLog[t], t)
    {
      assert Grown(h.campaigns[(h.elections[t].leader, t)], h.leaderLog[t], t);
    }
  }

  lemma ExtendGood(ll: LeaderLogs, ll': LeaderLogs, t: nat, es: seq<Entry>)
    requires t in ll && Good(ll, ll[t]) && ll' == ll[t := ll[t] + es]
    requires forall i :: 0 <= i < |es| ==> es[i].term == t
    ensures Good(ll', ll'[t])
  {
    var log := ll[t] + es;
    forall i | 0 <= i < |log|
      ensures log[i].term in ll' && Agree(log, ll'[log[i].term], i + 1)
    {
      if i < |ll[t]| {
        assert log[i] == ll[t][i];
        assert Agree(ll[t], ll[log[i].term], i + 1);
      }
    }
  }

  lemma HoldsKeeps(h: History, h': History, t: nat, k: nat, log: seq<Entry>, log': seq<Entry>)
    requires OnlyFromTerm(h, h') && LeadersExtend(h.leaderLog, h'.leaderLog)
    requires t in h.leaderLog && k <= |h.leaderLog[t]|
    requires Holds(h, t, k, log) && (k <= |log| ==> Agree(log, log', k))
    ensures Holds(h', t, k, log')
  {
    if Choosable(h', t, k) {
      ChoosableShrinks(h, h', t, k);
    }
  }

  lemma ExtendRetained(h: History, c: NodeId, es: seq<Entry>)
    requires AcksOk(h.term, h.leaderLog, h.logs, h.acks) && Retained(h)
    requires MayExtend(h, c, es)
    ensures Retained(Extend(h, c, es))
  {
    var h' := Extend(h, c, es);
    var t0 := TermOf(h.term, c);
    AcksBounded(h);
    forall v, t: nat, k: nat | v in h'.logs && Marked(h'.leaderLog, t, k) && k <= Acked(h'.acks, v, t)
      ensures Holds(h', t, k, h'.logs[v])
    {
      if v != c || t != t0 {
        assert Marked(h.leaderLog, t, k);
        assert Holds(h, t, k, h.logs[v]);
        HoldsKeeps(h, h', t, k, h.logs[v], h'.logs[v]);
      }
    }
  }

  lemma ExtendComplete(h: History, c: NodeId, es: seq<Entry>)
    requires Inv(h) && MayExtend(h, c, es)
    ensures Complete(Extend(h, c, es))
  {
    var h' := Extend(h, c, es);
    forall u: nat, k: nat | u in h.leaderLog && TermOf(h.term, c) < u && |h.logs[c]| < k
      ensures !Choosable(h', TermOf(h.term, c), k)
    {
      ExtendTooLate(h, c, es, u, k);
    }
    AcksBounded(h);
    ExtendCompleteRest(h, c, es);
  }

  lemma ExtendCompleteRest(h: History, c: NodeId, es: seq<Entry>)
    requires Complete(h) && MayExtend(h, c, es) && OnlyFromTerm(h, Extend(h, c, es))
    requires forall u: nat, k: nat :: u in h.leaderLog && TermOf(h.term, c) < u && |h.logs[c]| < k ==>
                                        !Choosable(Extend(h, c, es), TermOf(h.term, c), k)
    ensures Complete(Extend(h, c, es))
  {
    var h' := Extend(h, c, es);
    forall t: nat, u, k: nat | Marked(h'.leaderLog, t, k) && u in h'.leaderLog && t < u
      ensures Holds(h', t, k, h'.leaderLog[u])
    {
      if k <= |h.leaderLog[t]| {
        assert Marked(h.leaderLog, t, k);
        assert Holds(h, t, k, h.leaderLog[u]);
        HoldsKeeps(h, h', t, k, h.leaderLog[u], h'.leaderLog[u]);
      }
    }
  }

  /** Entries a deposed leader still appends can never be committed. */
  lemma ExtendTooLate(h: History, c: NodeId, es: seq<Entry>, u: nat, k: nat)
    requires Shape(h) && MayExtend(h, c, es)
    requires u in h.leaderLog && TermOf(h.term, c) < u && |h.logs[c]| < k
    ensures !Choosable(Extend(h, c, es), TermOf(h.term, c), k)
  {
    var h' := Extend(h, c, es);
    var q := h.elections[u].voters;
    var t := TermOf(h.term, c);
    assert ElectionOk(h.peers, h.grants, u, h.elections[u]);
    AcksBounded(h);
    forall v | v in q
      ensures TermOf(h'.term, v) > t && Acked(h'.acks, v, t) < k
    {
      VotersInTerm(h, u, v);
    }
    PassedOver(h', t, k, q);
  }

  lemma ExtendGrants(h: History, c: NodeId, es: seq<Entry>)
    requires AcksOk(h.term, h.leaderLog, h.logs, h.acks) && GrantsOk(h.term, h.vote, h.grants) && GrantsComplete(h)
    requires MayExtend(h, c, es)
    ensures GrantsComplete(Extend(h, c, es))
  {
    var h' := Extend(h, c, es);
    AcksBounded(h);
    forall g, t: nat, k: nat | g in h'.grants && (g.cand, g.term) in h'.campaigns && t < g.term
                               && Marked(h'.leaderLog, t, k) && k <= Acked(h'.acks, g.voter, t)
      ensures Holds(h', t, k, h'.campaigns[(g.cand, g.term)])
    {
      var log := h.campaigns[(g.cand, g.term)];
      assert GrantOk(h.term, h.vote, g);
      assert Marked(h.leaderLog, t, k);
      assert Holds(h, t, k, log);
      HoldsKeeps(h, h', t, k, log, log);
    }
  }

  // ------------------------------------------------------------------
  // Accept
  // ------------------------------------------------------------------

  ghost predicate MayAccept(h: History, n: NodeId, len: nat) {
    var t := TermOf(h.term, n);
    && n in h.peers
    && n in h.logs
    && t in h.leaderLog
    && len <= |h.leaderLog[t]|
  }

  lemma AcceptKeeps(h: History, n: NodeId, len: nat)
    requires Inv(h) && MayAccept(h, n, len)
    ensures Inv(Accept(h, n, len))
  {
    var h' := Accept(h, n, len);
    AcceptShape(h, n, len);
    AcceptRetained(h, n, len);
    AcceptComplete(h, n, len);
    CommitsKeep(h, h'.leaderLog, h'.acks);
  }

  /** A node that acknowledged more than `len` entries of its leader keeps them. */
  lemma MergeAgrees(h: History, n: NodeId, len: nat)
    requires Domains(h.peers, h.term, h.vote, h.logs) && AcksOk(h.term, h.leaderLog, h.logs, h.acks)
    requires MayAccept(h, n, len)
    ensures Agree(h.leaderLog[TermOf(h.term, n)], Merge(h.logs[n], h.leaderLog[TermOf(h.term, n)][..len]),
                  Max(Acked(h.acks, n, TermOf(h.term, n)), len))
  {
    var t := TermOf(h.term, n);
    var p := h.leaderLog[t][..len];
    if (n, t) in h.acks {
      assert AckOk(h.term, h.leaderLog, h.logs, n, t, h.acks[(n, t)]);
    }
    if len < Acked(h.acks, n, t) {
      assert p == h.logs[n][..len];
    }
    if p <= h.logs[n] {
      assert forall j :: 0 <= j < len ==> p[j] == h.logs[n][j];
    }
  }

  lemma AcceptShape(h: History, n: NodeId, len: nat)
    requires Shape(h) && MayAccept(h, n, len)
    ensures Shape(Accept(h, n, len))
  {
    hide AcksOk, ElectionsOk, GrantsOk, LeadersGrown, CampaignsOk, CampaignsGood, LeaderLogsOk, LogsOk,
         GrantsCampaign, TermBound;
    AcceptLogs(h, n, len);
    AcceptTerms(h, n, len);
    AcceptAcks(h, n, len);
  }

  lemma AcceptLogs(h: History, n: NodeId, len: nat)
    requires LeaderLogsOk(h.leaderLog) && LogsOk(h.leaderLog, h.logs) && MayAccept(h, n, len)
    ensures LogsOk(h.leaderLog, Accept(h, n, len).logs)
  {
    hide Good;
    GoodPrefix(h.leaderLog, h.leaderLog[TermOf(h.term, n)], len);
  }

  lemma AcceptTerms(h: History, n: NodeId, len: nat)
    requires CampaignsOk(h.term, h.campaigns) && LeadersGrown(h.elections, h.leaderLog, h.campaigns)
    requires TermBound(h.term, h.logs) && MayAccept(h, n, len)
    ensures TermBound(h.term, Accept(h, n, len).logs)
  {
    LeaderTerms(h, TermOf(h.term, n));
  }

  lemma AcceptAcks(h: History, n: NodeId, len: nat)
    requires Domains(h.peers, h.term, h.vote, h.logs) && AcksOk(h.term, h.leaderLog, h.logs, h.acks)
             && MayAccept(h, n, len)
    ensures AcksOk(h.term, h.leaderLog, Accept(h, n, len).logs, Accept(h, n, len).acks)
  {
    var h' := Accept(h, n, len);
    MergeAgrees(h, n, len);
    forall v, u | (v, u) in h'.acks
      ensures AckOk(h'.term, h'.leaderLog, h'.logs, v, u, h'.acks[(v, u)])
    {
      if (v, u) in h.acks {
        assert AckOk(h.term, h.leaderLog, h.logs, v, u, h.acks[(v, u)]);
      }
    }
  }

  /** Taking over a leader's prefix never drops what may be committed. */
  lemma MergeHolds(h: History, n: NodeId, len: nat, t: nat, k: nat)
    requires Complete(h) && MayAccept(h, n, len)
    requires Marked(h.leaderLog, t, k) && t < TermOf(h.term, n)
    requires Holds(h, t, k, h.logs[n])
    ensures Holds(h, t, k, Merge(h.logs[n], h.leaderLog[TermOf(h.term, n)][..len]))
  {
    var p := h.leaderLog[TermOf(h.term, n)][..len];
    assert Holds(h, t, k, h.leaderLog[TermOf(h.term, n)]);
    if Choosable(h, t, k) && len < k {
      assert p == h.logs[n][..len];
    }
  }

  lemma AcceptRetained(h: History, n: NodeId, len: nat)
    requires Domains(h.peers, h.term, h.vote, h.logs) && AcksOk(h.term, h.leaderLog, h.logs, h.acks)
    requires Retained(h) && Complete(h) && MayAccept(h, n, len)
    ensures Retained(Accept(h, n, len))
  {
    var h' := Accept(h, n, len);
    var t0 := TermOf(h.term, n);
    AcksBounded(h);
    forall v, t: nat, k: nat | v in h'.logs && Marked(h'.leaderLog, t, k) && k <= Acked(h'.acks, v, t)
      ensures Holds(h', t, k, h'.logs[v])
    {
      if v == n && t == t0 {
        MergeAgrees(h, n, len);
      } else {
        assert Holds(h, t, k, h.logs[v]);
        if v == n {
          MergeHolds(h, n, len, t, k);
        }
        assert Holds(h, t, k, h'.logs[v]);
        HoldsKeeps(h, h', t, k, h'.logs[v], h'.logs[v]);
      }
    }
  }

  lemma AcceptComplete(h: History, n: NodeId, len: nat)
    requires GrantsOk(h.term, h.vote, h.grants) && Complete(h) && GrantsComplete(h) && MayAccept(h, n, len)
    ensures Complete(Accept(h, n, len)) && GrantsComplete(Accept(h, n, len))
  {
    var h' := Accept(h, n, len);
    forall t: nat, k: nat, log | t in h.leaderLog && Holds(h, t, k, log)
      ensures Holds(h', t, k, log)
    {
      if Choosable(h', t, k) {
        ChoosableShrinks(h, h', t, k);
      }
    }
    forall g, t: nat | g in h'.grants && t < g.term
      ensures Acked(h'.acks, g.voter, t) == Acked(h.acks, g.voter, t)
    {
      assert GrantOk(h.term, h.vote, g);
    }
  }

  // ------------------------------------------------------------------
  // Settle
  // ------------------------------------------------------------------

  lemma SettleKeeps(h: History, c: Commit)
    requires Inv(h) && CommitOk(h.peers, h.leaderLog, h.acks, c)
    ensures Inv(Settle(h, c))
  {
    var h' := Settle(h, c);
    SameLogsKeep(h, h');
  }

  /** The parts of the invariant, by name. */
  lemma InvParts(h: History)
    requires Inv(h)
    ensures Domains(h.peers, h.term, h.vote, h.logs) && GrantsOk(h.term, h.vote, h.grants)
            && GrantsCampaign(h.grants, h.campaigns)
    ensures CampaignsOk(h.term, h.campaigns) && CampaignsGood(h.leaderLog, h.campaigns)
    ensures ElectionsOk(h.peers, h.grants, h.elections) && LeadersGrown(h.elections, h.leaderLog, h.campaigns)
    ensures LeaderLogsOk(h.leaderLog) && LogsOk(h.leaderLog, h.logs) && TermBound(h.term, h.logs)
    ensures AcksOk(h.term, h.leaderLog, h.logs, h.acks)
    ensures Retained(h) && Complete(h) && GrantsComplete(h) && CommitsOk(h.peers, h.leaderLog, h.acks, h.commits)
  {
  }

  lemma ElectionKeys(h: History)
    requires Inv(h)
    ensures h.elections.Keys == h.leaderLog.Keys
  {
  }

  lemma ElectionParts(h: History)
    requires Inv(h)
    ensures GrantsOk(h.term, h.vote, h.grants) && ElectionsOk(h.peers, h.grants, h.elections)
  {
  }

  lemma CommitParts(h: History)
    requires Inv(h)
    ensures Complete(h) && CommitsOk(h.peers, h.leaderLog, h.acks, h.commits)
    ensures LeadersGrown(h.elections, h.leaderLog, h.campaigns) && CampaignsOk(h.term, h.campaigns)
  {
  }

  lemma LogParts(h: History)
    requires Inv(h)
    ensures LeaderLogsOk(h.leaderLog) && LogsOk(h.leaderLog, h.logs) && AcksOk(h.term, h.leaderLog, h.logs, h.acks)
  {
  }
}
