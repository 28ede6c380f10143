/** Election safety, for every run: whatever becomes of the logs, no term has
    two leaders and no term is won twice. Only votes matter, so late snapshots
    are no exception. */
module Votes {
  import opened Types
  import opened Quorum
  import opened LogSpec
  import opened DiskSpec
  import opened Replica
  import opened Cluster

  datatype Vote = Vote(voter: NodeId, term: nat, cand: NodeId)

  datatype Win = Win(leader: NodeId, voters: set<NodeId>)

  type Wins = map<nat, Win>

  // ------------------------------------------------------------------
  // The invariant
  // ------------------------------------------------------------------

  /** Term and vote are on disk before anything else happens. */
  predicate Persisted(s: Node) {
    if s.disk.hs.Some? then s.disk.hs.value == HardState(s.term, s.votedFor) else s.term == 0 && s.votedFor == NO_NODE
  }

  /** A vote binds its voter for the term, and no later one was cast. */
  predicate Bound(s: Node, v: Vote) {
    && v.cand != NO_NODE
    && v.term <= s.term
    && (v.term == s.term ==> v.cand == s.votedFor)
  }

  ghost predicate VoterOk(votes: set<Vote>, wins: Wins, n: NodeId, s: Node) {
    && Persisted(s)
    && (forall v :: v in votes && v.voter == n ==> Bound(s, v))
    && (s.role != Follower ==> Vote(n, s.term, n) in votes)
    && (s.role == Leader ==> s.term in wins && wins[s.term].leader == n)
    && (s.role == Candidate && s.term in wins ==> wins[s.term].leader != n)
  }

  ghost predicate VotesApart(votes: set<Vote>) {
    forall v, w :: v in votes && w in votes && v.voter == w.voter && v.term == w.term ==> v == w
  }

  ghost predicate WinOk(peers: set<NodeId>, votes: set<Vote>, t: nat, w: Win) {
    && IsQuorum(peers, w.voters)
    && w.leader in w.voters
    && forall v :: v in w.voters ==> Vote(v, t, w.leader) in votes
  }

  ghost predicate WinsOk(peers: set<NodeId>, votes: set<Vote>, wins: Wins) {
    forall t :: t in wins ==> WinOk(peers, votes, t, wins[t])
  }

  ghost predicate MailOk(peers: set<NodeId>, votes: set<Vote>, m: Msg) {
    && (m.VoteMsg? ==> m.vote.cand in peers)
    && (m.VoteReply? && m.voteResp.granted ==> Vote(m.from, m.vote.term, m.vote.cand) in votes)
  }

  ghost predicate Tallied(s: Group, votes: set<Vote>, wins: Wins) {
    && s.nodes.Keys == PeerSet(s.peers)
    && NO_NODE !in s.nodes
    && VotesApart(votes)
    && WinsOk(s.nodes.Keys, votes, wins)
    && (forall n :: n in s.nodes ==> VoterOk(votes, wins, n, s.nodes[n]))
    && (forall m :: m in s.net ==> MailOk(s.nodes.Keys, votes, m))
  }

  // ------------------------------------------------------------------
  // Steps that cast no vote and win nothing
  // ------------------------------------------------------------------

  /** The term and the vote in it only move forward, and the role is kept or given up. */
  predicate Steady(s: Node, s': Node) {
    && Persisted(s')
    && s.term <= s'.term
    && (s.term == s'.term ==> s'.votedFor == s.votedFor)
    && (s'.role == Follower || (s'.role == s.role && s'.term == s.term))
  }

  predicate NoBallot(sent: set<Msg>) {
    forall m :: m in sent ==> !m.VoteMsg? && !m.VoteReply?
  }

  lemma SteadyRefl(s: Node)
    requires Persisted(s)
    ensures Steady(s, s)
  {
  }

  lemma {:induction false} WritesKeepHs(d: Disk, es: seq<Entry>)
    ensures AppendEntries(d, es).hs == d.hs
  {
    if |es| > 0 {
      WritesKeepHs(d, es[..|es| - 1]);
    }
  }

  lemma StepDownSteady(s: Node, t: nat, leader: NodeId)
    requires Persisted(s)
    ensures Steady(s, BecomeFollower(s, t, leader).0)
  {
    WritesKeepHs(s.disk.(hs := Some(HardState(t, NO_NODE))), []);
  }

  lemma FollowSteady(s: Node, t: nat, leader: NodeId)
    requires Persisted(s)
    ensures Steady(s, Follow(s, t, leader).0)
  {
    hide BecomeFollower;
    SteadyRefl(s);
    StepDownSteady(s, t, leader);
  }

  /** Whatever is written below the hard state leaves the ballot alone. */
  predicate SameBallot(s: Node, s': Node) {
    s'.term == s.term && s'.votedFor == s.votedFor && s'.role == s.role && s'.disk.hs == s.disk.hs
  }

  lemma SteadyThen(s: Node, s1: Node, s2: Node)
    requires Steady(s, s1) && SameBallot(s1, s2)
    ensures Steady(s, s2)
  {
  }

  lemma AppendBallot(s: Node, req: AppendReq)
    ensures SameBallot(s, AppendSameTerm(s, req).0)
  {
    hide Fresh, FirstIndexOfTerm, TermIn, AppendEntries;
    var skip := Skip(s, req);
    if skip <= |req.entries| {
      WritesKeepHs(s.disk, Fresh(s.log, req.entries[skip..]));
    }
  }

  lemma InstallBallot(s: Node, snap: Snapshot)
    ensures SameBallot(s, InstallSameTerm(s, snap))
  {
  }

  lemma ProposeBallot(cfg: Config, s: Node, batch: seq<(nat, Command)>)
    ensures SameBallot(s, AppendProposals(cfg, s, batch).0)
  {
    hide AppendEntries, ProposalEntries, AddWaiters, CommitCandidate;
    WritesKeepHs(s.disk, ProposalEntries(LastIndex(s.log), s.term, batch));
  }

  lemma ApplierBallot(cfg: Config, s: Node, a: ApplierStep)
    requires ApplierEnabled(s, a)
    ensures SameBallot(s, ApplierDo(cfg, s, a).0)
  {
  }

  lemma BootSteady(w: Machine, s: Node, d: Disk)
    requires Persisted(s) && d.hs == s.disk.hs
    ensures Steady(s, Boot(w, d))
  {
  }

  lemma ReplySteady(cfg: Config, s: Node, peer: NodeId, req: AppendReq, sentAt: nat, resp: AppendResp)
    requires Persisted(s)
    ensures Steady(s, OnAppendReply(cfg, s, peer, req, sentAt, resp).0)
  {
    hide BecomeFollower, BacktrackTo, CommitCandidate;
    StepDownSteady(s, resp.term, NO_NODE);
  }

  lemma SnapReplySteady(cfg: Config, s: Node, peer: NodeId, req: SnapReq, sentAt: nat, t: nat)
    requires Persisted(s)
    ensures Steady(s, OnSnapshotReply(cfg, s, peer, req, sentAt, t).0)
  {
    hide BecomeFollower, CommitCandidate;
    StepDownSteady(s, t, NO_NODE);
  }

  /** What a crash in the middle of an answer leaves has the ballot of the
      part that was done. */
  lemma CutSteady(w: Machine, s: Node, m: Msg, k: nat)
    requires Persisted(s)
    ensures Steady(s, Boot(w, CutDisk(s, m, k)))
  {
    hide BecomeFollower, Follow, ToWrite, AppendEntries, Boot, Steady;
    var s1 := match m
              case VoteMsg(req) => BecomeFollower(s, req.term, NO_NODE).0
              case AppendMsg(_, req, _) => Follow(s, req.term, req.leader).0
              case SnapMsg(_, req, _) => Follow(s, req.term, req.leader).0
              case _ => s;
    assert Steady(s, s1) by {
      match m
      case VoteMsg(req) => StepDownSteady(s, req.term, NO_NODE);
      case AppendMsg(_, req, _) => FollowSteady(s, req.term, req.leader);
      case SnapMsg(_, req, _) => FollowSteady(s, req.term, req.leader);
      case _ => SteadyRefl(s);
    }
    if m.AppendMsg? {
      var news := ToWrite(s1, m.append);
      WritesKeepHs(s1.disk, news[..Min(k, |news|)]);
    }
    SteadyPersisted(s, s1);
    BootSteady(w, s1, CutDisk(s, m, k));
    SteadyTrans(s, s1, Boot(w, CutDisk(s, m, k)));
  }

  lemma SteadyPersisted(s: Node, s': Node)
    requires Steady(s, s')
    ensures Persisted(s')
  {
  }

  lemma SteadyTrans(s: Node, s1: Node, s2: Node)
    requires Steady(s, s1) && Steady(s1, s2)
    ensures Steady(s, s2)
  {
  }

  lemma CutProposeSteady(w: Machine, s: Node, es: seq<Entry>)
    requires Persisted(s)
    ensures Steady(s, Boot(w, Save(s.disk, None, es)))
  {
    hide Boot, Steady;
    WritesKeepHs(s.disk, es);
    BootSteady(w, s, Save(s.disk, None, es));
  }

  predicate CastsBallot(step: Step) {
    step.Campaign? || step.CampaignNow? || step.AnswerVote? || step.WinElection?
  }

  lemma SteadyStep(s: Group, step: Step)
    requires Enabled(s, step) && !step.Transmit? && !CastsBallot(step) && Persisted(s.nodes[Actor(step)])
    ensures Steady(s.nodes[Actor(step)], EffectOf(s, step).node) && NoBallot(EffectOf(s, step).sent)
  {
    hide Boot, BecomeFollower, Follow, AppendSameTerm, InstallSameTerm, OnAppendReply, OnSnapshotReply,
         AppendProposals, ApplierDo, CutDisk, Save, Steady, PrepareAppend, IsQuorum, PreGranted, VoteGranted,
         HandlePreVote, ApplierEnabled;
    var node := s.nodes[Actor(step)];
    SteadyRefl(node);
    match step
    case Crash(n) => BootSteady(s.machine, node, node.disk);
    case CutAnswer(n, m, k) => CutSteady(s.machine, node, m, k);
    case CutPropose(n, batch, k) =>
      CutProposeSteady(s.machine, node, ProposalEntries(LastIndex(node.log), node.term, batch)[..k]);
    case LearnTerm(n, m) => StepDownSteady(node, m.voteResp.term, NO_NODE);
    case CheckQuorum(n, _) => StepDownSteady(node, node.term, NO_NODE);
    case Propose(n, batch) =>
      ProposeBallot(Cfg(s, n), node, batch);
      SteadyThen(node, node, EffectOf(s, step).node);
    case AnswerAppend(n, m) =>
      FollowSteady(node, m.append.term, m.append.leader);
      AppendBallot(Follow(node, m.append.term, m.append.leader).0, m.append);
      AnswerAppendSteady(node, m.append);
    case AnswerSnapshot(n, m) => AnswerSnapshotSteady(node, m.install);
    case TakeAppendReply(n, m) => ReplySteady(Cfg(s, n), node, m.from, m.append, m.sentAt, m.appendResp);
    case TakeSnapshotReply(n, m) => SnapReplySteady(Cfg(s, n), node, m.from, m.install, m.sentAt, m.respTerm);
    case Applier(n, a) =>
      ApplierBallot(Cfg(s, n), node, a);
      SteadyThen(node, node, EffectOf(s, step).node);
    case BeginTransfer(n, target) => SteadyThen(node, node, SetTransfer(node, target));
    case EndTransfer(n) => SteadyThen(node, node, SetTransfer(node, NO_NODE));
    case _ =>
  }

  lemma AnswerAppendSteady(s: Node, req: AppendReq)
    requires Persisted(s)
    ensures Steady(s, HandleAppendEntries(s, req).0)
  {
    hide Follow, AppendSameTerm, Steady;
    SteadyRefl(s);
    var f := Follow(s, req.term, req.leader).0;
    FollowSteady(s, req.term, req.leader);
    AppendBallot(f, req);
    SteadyThen(s, f, AppendSameTerm(f, req).0);
  }

  lemma AnswerSnapshotSteady(s: Node, req: SnapReq)
    requires Persisted(s)
    ensures Steady(s, HandleInstallSnapshot(s, req).0)
  {
    hide Follow, InstallSameTerm, Steady;
    SteadyRefl(s);
    var f := Follow(s, req.term, req.leader).0;
    FollowSteady(s, req.term, req.leader);
    InstallBallot(f, req.snap);
    SteadyThen(s, f, InstallSameTerm(f, req.snap));
  }

  // ------------------------------------------------------------------
  // Frames
  // ------------------------------------------------------------------

  /** Votes and wins of others only grew. */
  ghost predicate Grown(votes: set<Vote>, votes': set<Vote>, wins: Wins, wins': Wins, n: NodeId) {
    && votes <= votes'
    && (forall v :: v in votes' && v !in votes ==> v.voter == n)
    && (forall t :: t in wins ==> t in wins' && wins'[t] == wins[t])
    && (forall t :: t in wins' && t !in wins ==> wins'[t].leader == n)
  }

  lemma VoterFrame(votes: set<Vote>, votes': set<Vote>, wins: Wins, wins': Wins, n: NodeId, m: NodeId, s: Node)
    requires Grown(votes, votes', wins, wins', n) && m != n && VoterOk(votes, wins, m, s)
    ensures VoterOk(votes', wins', m, s)
  {
  }

  lemma TalliedFrame(s: Group, s': Group, n: NodeId, sent: set<Msg>,
                     votes: set<Vote>, votes': set<Vote>, wins: Wins, wins': Wins)
    requires Tallied(s, votes, wins) && Grown(votes, votes', wins, wins', n)
    requires s'.peers == s.peers && n in s.nodes && n in s'.nodes && s'.nodes == s.nodes[n := s'.nodes[n]]
             && s'.net == s.net + sent
    requires VotesApart(votes') && WinsOk(s.nodes.Keys, votes', wins') && VoterOk(votes', wins', n, s'.nodes[n])
    requires forall m :: m in sent ==> MailOk(s.nodes.Keys, votes', m)
    ensures Tallied(s', votes', wins')
  {
    hide VoterOk, VotesApart, WinOk, WinsOk;
    assert s'.nodes.Keys == s.nodes.Keys;
    forall m | m in s'.nodes
      ensures VoterOk(votes', wins', m, s'.nodes[m])
    {
      if m != n {
        VoterFrame(votes, votes', wins, wins', n, m, s.nodes[m]);
      }
    }
  }

  lemma SteadyVoter(votes: set<Vote>, wins: Wins, n: NodeId, s: Node, s': Node)
    requires VoterOk(votes, wins, n, s) && Steady(s, s')
    ensures VoterOk(votes, wins, n, s')
  {
  }

  // ------------------------------------------------------------------
  // Casting votes and winning
  // ------------------------------------------------------------------

  /** A vote for `c` in the term the voter ends the step with. */
  lemma CastApart(votes: set<Vote>, wins: Wins, n: NodeId, s: Node, t: nat, c: NodeId)
    requires VotesApart(votes) && VoterOk(votes, wins, n, s) && s.term <= t
    requires s.term == t ==> s.votedFor == NO_NODE || s.votedFor == c
    ensures VotesApart(votes + {Vote(n, t, c)})
  {
  }

  lemma CastVoter(votes: set<Vote>, wins: Wins, n: NodeId, s: Node, s': Node, c: NodeId)
    requires VoterOk(votes, wins, n, s) && s.term <= s'.term && c != NO_NODE && Persisted(s') && s'.votedFor == c
    requires s.term == s'.term ==> s.votedFor == NO_NODE || s.votedFor == c
    requires s'.role == Follower || (s'.role == s.role && s'.term == s.term)
    ensures VoterOk(votes + {Vote(n, s'.term, c)}, wins, n, s')
  {
  }

  lemma MoreVotes(peers: set<NodeId>, votes: set<Vote>, votes': set<Vote>, wins: Wins)
    requires WinsOk(peers, votes, wins) && votes <= votes'
    ensures WinsOk(peers, votes', wins)
  {
    forall t | t in wins
      ensures WinOk(peers, votes', t, wins[t])
    {
      assert WinOk(peers, votes, t, wins[t]);
    }
  }

  /** The ballot side of answering a vote request. */
  lemma AnswerVoteBallot(s: Node, req: VoteReq)
    requires Persisted(s)
    ensures var r := HandleRequestVote(s, req);
            if r.1.granted then
              && s.term <= r.0.term == req.term && Persisted(r.0) && r.0.votedFor == req.cand
              && (s.term == r.0.term ==> s.votedFor == NO_NODE || s.votedFor == req.cand)
              && (r.0.role == Follower || (r.0.role == s.role && r.0.term == s.term))
            else Steady(s, r.0)
  {
    hide LogUpToDate;
  }

  lemma AnswerVoteTallied(s: Group, step: Step, votes: set<Vote>, wins: Wins) returns (votes': set<Vote>)
    requires Tallied(s, votes, wins) && Enabled(s, step) && step.AnswerVote?
    ensures Tallied(Do(s, step), votes', wins) && votes <= votes'
  {
    hide VoterOk, VotesApart, WinsOk, HandleRequestVote, Steady, Persisted, Do;
    var n, req := step.n, step.m.vote;
    var node := s.nodes[n];
    var r := HandleRequestVote(node, req);
    DoShape(s, step);
    VoterPersisted(votes, wins, n, node);
    AnswerVoteBallot(node, req);
    if r.1.granted {
      votes' := votes + {Vote(n, req.term, req.cand)};
      assert MailOk(s.nodes.Keys, votes, step.m);
      CastApart(votes, wins, n, node, req.term, req.cand);
      CastVoter(votes, wins, n, node, r.0, req.cand);
      MoreVotes(s.nodes.Keys, votes, votes', wins);
    } else {
      votes' := votes;
      SteadyVoter(votes, wins, n, node, r.0);
    }
    TalliedFrame(s, Do(s, step), n, EffectOf(s, step).sent, votes, votes', wins, wins);
  }

  lemma VoterPersisted(votes: set<Vote>, wins: Wins, n: NodeId, s: Node)
    requires VoterOk(votes, wins, n, s)
    ensures Persisted(s)
  {
  }

  lemma CampaignVoter(peers: set<NodeId>, votes: set<Vote>, wins: Wins, cfg: Config, n: NodeId, s: Node)
    requires VoterOk(votes, wins, n, s) && WinsOk(peers, votes, wins) && n != NO_NODE && cfg.id == n
    ensures VoterOk(votes + {Vote(n, s.term + 1, n)}, wins, n, StartElection(cfg, s).0)
  {
    if s.term + 1 in wins {
      WinnerVoted(peers, votes, wins, s.term + 1);
    }
  }

  lemma WinnerVoted(peers: set<NodeId>, votes: set<Vote>, wins: Wins, t: nat)
    requires WinsOk(peers, votes, wins) && t in wins
    ensures Vote(wins[t].leader, t, wins[t].leader) in votes
  {
    assert WinOk(peers, votes, t, wins[t]);
  }

  /** Two wins of a term share a voter, who voted once. */
  lemma SameWinner(peers: set<NodeId>, votes: set<Vote>, t: nat, a: Win, b: Win)
    requires VotesApart(votes) && WinOk(peers, votes, t, a) && WinOk(peers, votes, t, b)
    ensures a.leader == b.leader
  {
    var x := QuorumsIntersect(peers, a.voters, b.voters);
    assert Vote(x, t, a.leader) in votes && Vote(x, t, b.leader) in votes;
  }

  lemma CampaignTallied(s: Group, step: Step, votes: set<Vote>, wins: Wins) returns (votes': set<Vote>)
    requires Tallied(s, votes, wins) && Enabled(s, step) && (step.Campaign? || step.CampaignNow?)
    ensures Tallied(Do(s, step), votes', wins) && votes <= votes'
  {
    hide VoterOk, VotesApart, WinsOk, Do, IsQuorum, PreGranted, Save;
    var n := step.n;
    var node := s.nodes[n];
    votes' := votes + {Vote(n, node.term + 1, n)};
    DoShape(s, step);
    CastApart(votes, wins, n, node, node.term + 1, n);
    CampaignVoter(s.nodes.Keys, votes, wins, Cfg(s, n), n, node);
    MoreVotes(s.nodes.Keys, votes, votes', wins);
    TalliedFrame(s, Do(s, step), n, EffectOf(s, step).sent, votes, votes', wins, wins);
  }

  /** A candidate with a quorum of votes wins a term nobody has won. */
  lemma WinIsFirst(s: Group, n: NodeId, voters: set<NodeId>, votes: set<Vote>, wins: Wins)
    requires Tallied(s, votes, wins) && Enabled(s, WinElection(n, voters))
    ensures s.nodes[n].term !in wins
    ensures WinOk(s.nodes.Keys, votes, s.nodes[n].term, Win(n, voters))
  {
    var t := s.nodes[n].term;
    forall v | v in voters
      ensures Vote(v, t, n) in votes
    {
      if v != n {
        assert VoteGranted(s.net, v, n, t);
        var m :| m in s.net && m.VoteReply? && m.from == v && m.vote.cand == n && m.vote.term == t
            && m.voteResp.granted;
        assert MailOk(s.nodes.Keys, votes, m);
      } else {
        assert VoterOk(votes, wins, n, s.nodes[n]);
      }
    }
    assert VoterOk(votes, wins, n, s.nodes[n]);
    if t in wins {
      SameWinner(s.nodes.Keys, votes, t, wins[t], Win(n, voters));
    }
  }

  lemma LeaderBallot(cfg: Config, s: Node, now: nat)
    requires Persisted(s)
    ensures var s' := BecomeLeader(cfg, s, now);
            s'.role == Leader && s'.term == s.term && s'.votedFor == s.votedFor && Persisted(s')
  {
    hide CommitCandidate;
    WritesKeepHs(s.disk, [Entry(LastIndex(s.log) + 1, s.term, Noop)]);
  }

  lemma WinVoter(votes: set<Vote>, wins: Wins, n: NodeId, s: Node, s': Node, w: Win)
    requires VoterOk(votes, wins, n, s) && s.role == Candidate && w.leader == n
    requires s'.role == Leader && s'.term == s.term && s'.votedFor == s.votedFor && Persisted(s')
    ensures VoterOk(votes, wins[s.term := w], n, s')
  {
  }

  lemma WinTallied(s: Group, n: NodeId, voters: set<NodeId>, votes: set<Vote>, wins: Wins)
    requires Tallied(s, votes, wins) && Enabled(s, WinElection(n, voters))
    ensures s.nodes[n].term !in wins
    ensures Tallied(Do(s, WinElection(n, voters)), votes, wins[s.nodes[n].term := Win(n, voters)])
  {
    hide VoterOk, VotesApart, WinOk, Do, IsQuorum, VoteGranted, BecomeLeader, Persisted;
    var node, step := s.nodes[n], WinElection(n, voters);
    var wins' := wins[node.term := Win(n, voters)];
    DoShape(s, step);
    WinIsFirst(s, n, voters, votes, wins);
    VoterPersisted(votes, wins, n, node);
    LeaderBallot(Cfg(s, n), node, s.now);
    WinVoter(votes, wins, n, node, BecomeLeader(Cfg(s, n), node, s.now), Win(n, voters));
    TalliedFrame(s, Do(s, step), n, EffectOf(s, step).sent, votes, votes, wins, wins');
  }

  // ------------------------------------------------------------------
  // Every step, and runs
  // ------------------------------------------------------------------

  ghost predicate WinsGrow(wins: Wins, wins': Wins) {
    forall t :: t in wins ==> t in wins' && wins'[t] == wins[t]
  }

  lemma StepTallied(s: Group, step: Step, votes: set<Vote>, wins: Wins) returns (votes': set<Vote>, wins': Wins)
    requires Tallied(s, votes, wins) && Enabled(s, step)
    ensures Tallied(Do(s, step), votes', wins') && WinsGrow(wins, wins')
  {
    hide Tallied, Enabled, Do, VoterOk, Steady, Persisted;
    votes', wins' := votes, wins;
    if step.Transmit? {
      TransmitTallied(s, step, votes, wins);
    } else if step.AnswerVote? {
      votes' := AnswerVoteTallied(s, step, votes, wins);
    } else if step.Campaign? || step.CampaignNow? {
      votes' := CampaignTallied(s, step, votes, wins);
    } else if step.WinElection? {
      ActorPresent(s, step);
      WinTallied(s, step.n, step.voters, votes, wins);
      wins' := wins[s.nodes[step.n].term := Win(step.n, step.voters)];
    } else {
      SteadyTallied(s, step, votes, wins);
    }
  }

  lemma SteadyTallied(s: Group, step: Step, votes: set<Vote>, wins: Wins)
    requires Tallied(s, votes, wins) && Enabled(s, step) && !step.Transmit? && !CastsBallot(step)
    ensures Tallied(Do(s, step), votes, wins)
  {
    hide Enabled, Do, EffectOf, VoterOk, Steady, Persisted, VotesApart, WinsOk;
    DoShape(s, step);
    var n := Actor(step);
    VoterPersisted(votes, wins, n, s.nodes[n]);
    SteadyStep(s, step);
    SteadyVoter(votes, wins, n, s.nodes[n], Do(s, step).nodes[n]);
    TalliedFrame(s, Do(s, step), n, EffectOf(s, step).sent, votes, votes, wins, wins);
  }

  lemma TransmitTallied(s: Group, step: Step, votes: set<Vote>, wins: Wins)
    requires Tallied(s, votes, wins) && Enabled(s, step) && step.Transmit?
    ensures Tallied(Do(s, step), votes, wins)
  {
    hide VoterOk, VotesApart, WinsOk;
  }

  ghost predicate Tallies(run: seq<Group>, votes: seq<set<Vote>>, wins: seq<Wins>) {
    && |votes| == |wins| == |run|
    && (forall i :: 0 <= i < |run| ==> Tallied(run[i], votes[i], wins[i]))
    && (forall i, j :: 0 <= i <= j < |run| ==> WinsGrow(wins[i], wins[j]))
  }

  lemma StartTallied(s: Group)
    requires Init(s)
    ensures Tallied(s, {}, map[])
  {
  }

  lemma {:induction false} RunTallied(run: seq<Group>, steps: seq<Step>)
      returns (votes: seq<set<Vote>>, wins: seq<Wins>)
    requires IsRun(run, steps)
    ensures Tallies(run, votes, wins)
  {
    hide Tallied, Enabled, Do, Init;
    if |steps| == 0 {
      StartTallied(run[0]);
      votes, wins := [{}], [map[]];
    } else {
      var k := |steps| - 1;
      var vs, ws := RunTallied(run[..k + 1], steps[..k]);
      var v, w := StepTallied(run[k], steps[k], vs[k], ws[k]);
      votes, wins := vs + [v], ws + [w];
    }
  }

  lemma LeaderWon(s: Group, votes: set<Vote>, wins: Wins, n: NodeId)
    requires Tallied(s, votes, wins) && n in s.nodes && s.nodes[n].role == Leader
    ensures s.nodes[n].term in wins && wins[s.nodes[n].term].leader == n
  {
    assert VoterOk(votes, wins, n, s.nodes[n]);
  }

  /** At most one leader per term, over all states of any run. */
  lemma OneLeaderPerTerm(run: seq<Group>, steps: seq<Step>, i: nat, j: nat, n: NodeId, m: NodeId)
    requires IsRun(run, steps) && i < |run| && j < |run|
    requires n in run[i].nodes && run[i].nodes[n].role == Leader
    requires m in run[j].nodes && run[j].nodes[m].role == Leader
    requires run[i].nodes[n].term == run[j].nodes[m].term
    ensures n == m
  {
    hide IsRun, Tallied;
    var votes, wins := RunTallied(run, steps);
    LeaderWon(run[i], votes[i], wins[i], n);
    LeaderWon(run[j], votes[j], wins[j], m);
    assert WinsGrow(wins[i], wins[|run| - 1]) && WinsGrow(wins[j], wins[|run| - 1]);
  }

  lemma BallotRole(s: Group, step: Step)
    requires Enabled(s, step) && CastsBallot(step) && !step.WinElection?
    ensures var node, node' := s.nodes[Actor(step)], EffectOf(s, step).node;
            node'.role == Leader ==> node.role == Leader && node'.term == node.term
  {
    hide IsQuorum, PreGranted, LogUpToDate, Save;
  }

  /** Only winning an election makes a leader: any other step that leaves one
      found it leading the same term. */
  lemma LedBefore(s: Group, step: Step, votes: set<Vote>, wins: Wins, n: NodeId)
    requires Tallied(s, votes, wins) && Enabled(s, step) && n in Do(s, step).nodes
    requires Do(s, step).nodes[n].role == Leader && !(step.WinElection? && step.n == n)
    ensures n in s.nodes && s.nodes[n].role == Leader && s.nodes[n].term == Do(s, step).nodes[n].term
  {
    hide Enabled, Do, EffectOf, VoterOk, VotesApart, WinsOk, Persisted, NoBallot;
    DoShape(s, step);
    if !step.Transmit? && Actor(step) == n {
      if CastsBallot(step) {
        BallotRole(s, step);
      } else {
        VoterPersisted(votes, wins, n, s.nodes[n]);
        SteadyStep(s, step);
      }
    }
  }

  /** A term of office is held without a break: who leads a term at two moments
      of a run leads it at every moment between. */
  lemma {:induction false} OfficeUnbroken(run: seq<Group>, steps: seq<Step>, i: nat, k: nat, j: nat, n: NodeId)
    requires IsRun(run, steps) && i <= k <= j < |run| && n in run[i].nodes && n in run[j].nodes
    requires run[i].nodes[n].role == Leader && run[j].nodes[n].role == Leader
    requires run[i].nodes[n].term == run[j].nodes[n].term
    ensures n in run[k].nodes && run[k].nodes[n].role == Leader && run[k].nodes[n].term == run[i].nodes[n].term
    decreases j
  {
    hide Tallied, Do, Enabled, Init;
    if k < j {
      var votes, wins := RunTallied(run, steps);
      var s, step := run[j - 1], steps[j - 1];
      LeaderWon(run[i], votes[i], wins[i], n);
      assert WinsGrow(wins[i], wins[j - 1]);
      if step.WinElection? && step.n == n {
        ActorPresent(s, step);
        WinMakesLeader(s, n, step.voters);
        WinTallied(s, n, step.voters, votes[j - 1], wins[j - 1]);
      } else {
        LedBefore(s, step, votes[j - 1], wins[j - 1], n);
        OfficeUnbroken(run, steps, i, k, j - 1, n);
      }
    }
  }

  lemma WinMakesLeader(s: Group, n: NodeId, voters: set<NodeId>)
    requires Enabled(s, WinElection(n, voters))
    ensures var s' := Do(s, WinElection(n, voters));
            n in s'.nodes && s'.nodes[n].role == Leader && s'.nodes[n].term == s.nodes[n].term
  {
    hide IsQuorum, VoteGranted;
  }

  /** No term is won twice in any run, not even by the same node after a crash. */
  lemma NoTermWonTwice(run: seq<Group>, steps: seq<Step>, a: nat, b: nat)
    requires IsRun(run, steps) && a < b < |steps|
    requires steps[a].WinElection? && steps[b].WinElection?
    ensures steps[a].n in run[a].nodes && steps[b].n in run[b].nodes
    ensures run[a].nodes[steps[a].n].term != run[b].nodes[steps[b].n].term
  {
    hide Tallied, Do, Enabled, Init;
    var votes, wins := RunTallied(run, steps);
    ActorPresent(run[a], steps[a]);
    ActorPresent(run[b], steps[b]);
    WinMakesLeader(run[a], steps[a].n, steps[a].voters);
    LeaderWon(run[a + 1], votes[a + 1], wins[a + 1], steps[a].n);
    WinTallied(run[b], steps[b].n, steps[b].voters, votes[b], wins[b]);
    assert WinsGrow(wins[a + 1], wins[b]);
  }
}
