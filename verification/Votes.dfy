/** Resolver sets and ballots: who may vote, how a ballot is recorded, and how ballots are tallied. */
module Voting {
  import opened Types

  function Resolvers(rs: ResolverSet): seq<Address> {
    match rs
    case Single(a) => [a]
    case Multi(members, _) => members
    case Fallback(primary, backup, _) => [primary, backup]
  }

  /** `ResolverSet::contains`: membership, ignoring the fallback deadline. */
  predicate IsResolver(rs: ResolverSet, a: Address) {
    a in Resolvers(rs)
  }

  function Threshold(rs: ResolverSet): u32 {
    match rs
    case Multi(_, quorum) => quorum
    case _ => 1
  }

  /** `ResolverSet::can_resolve_now`. */
  predicate CanResolve(rs: ResolverSet, a: Address, now: u64) {
    match rs
    case Fallback(primary, backup, deadline) => a == primary || (a == backup && now >= deadline)
    case _ => IsResolver(rs, a)
  }

  predicate Distinct<T(==)>(s: seq<T>) {
    forall i, j :: 0 <= i < j < |s| ==> s[i] != s[j]
  }

  /** Threshold between one and the number of distinct resolvers. */
  predicate ResolversValid(rs: ResolverSet) {
    Distinct(Resolvers(rs)) && 1 <= Threshold(rs) <= |Resolvers(rs)|
  }

  // ── Recording and counting ballots ──

  /** The stored ballots after `who` votes `b`: an existing ballot is replaced in place. */
  function Cast(votes: seq<Vote>, who: Address, b: Ballot, now: u64): seq<Vote> {
    if votes == [] then [Vote(who, b, now)]
    else if votes[0].resolver == who then [Vote(who, b, now)] + votes[1..]
    else [votes[0]] + Cast(votes[1..], who, b, now)
  }

  function Tally(votes: seq<Vote>, b: Ballot): nat {
    if votes == [] then 0 else (if votes[0].ballot == b then 1 else 0) + Tally(votes[1..], b)
  }

  /** `tally_votes`: Release is tested first. */
  function Decided(votes: seq<Vote>, threshold: u32): Option<Ballot> {
    if votes == [] then None
    else if Tally(votes, Release) >= threshold then Some(Release)
    else if Tally(votes, Refund) >= threshold then Some(Refund)
    else None
  }

  /** `tally_votes_majority`: a tie refunds. */
  function Majority(votes: seq<Vote>): Ballot {
    if Tally(votes, Release) > Tally(votes, Refund) then Release else Refund
  }

  /** `voter_for`: the first resolver who cast `b`. */
  function VoterFor(votes: seq<Vote>, b: Ballot): Option<Address> {
    if votes == [] then None
    else if votes[0].ballot == b then Some(votes[0].resolver)
    else VoterFor(votes[1..], b)
  }

  predicate DistinctVoters(votes: seq<Vote>) {
    forall i, j :: 0 <= i < j < |votes| ==> votes[i].resolver != votes[j].resolver
  }

  predicate EligibleVoters(rs: ResolverSet, votes: seq<Vote>, now: u64) {
    forall i :: 0 <= i < |votes| ==> CanResolve(rs, votes[i].resolver, now)
  }

  /** Neither side has reached the threshold. */
  predicate Undecided(votes: seq<Vote>, threshold: u32) {
    Tally(votes, Release) < threshold && Tally(votes, Refund) < threshold
  }

  function Other(b: Ballot): Ballot {
    if b == Release then Refund else Release
  }

  // ── What a ballot changes ──

  /** Voters stay distinct, everyone but the caller keeps their ballot, and the caller's is `b`. */
  lemma {:induction false} CastRecords(votes: seq<Vote>, who: Address, b: Ballot, now: u64)
    requires DistinctVoters(votes)
    ensures DistinctVoters(Cast(votes, who, b, now))
    ensures forall v :: v in Cast(votes, who, b, now) <==> v == Vote(who, b, now) || (v in votes && v.resolver != who)
  {
    if votes != [] && votes[0].resolver == who {
      var out := Cast(votes, who, b, now);
      forall v ensures v in out <==> v == Vote(who, b, now) || (v in votes && v.resolver != who) {
        assert v in votes <==> v == votes[0] || v in votes[1..];
      }
    } else if votes != [] {
      CastRecords(votes[1..], who, b, now);
      var tail := Cast(votes[1..], who, b, now);
      assert Cast(votes, who, b, now) == [votes[0]] + tail;
      forall j | 0 <= j < |tail| ensures tail[j].resolver != votes[0].resolver {
        assert tail[j] in tail;
      }
      forall v ensures v in [votes[0]] + tail <==> v == Vote(who, b, now) || (v in votes && v.resolver != who) {
        assert v in votes <==> v == votes[0] || v in votes[1..];
      }
    }
  }

  /** One ballot raises its own side by at most one and never raises the other side. */
  lemma {:induction false} CastTally(votes: seq<Vote>, who: Address, b: Ballot, now: u64)
    ensures Tally(votes, b) <= Tally(Cast(votes, who, b, now), b) <= Tally(votes, b) + 1
    ensures Tally(Cast(votes, who, b, now), Other(b)) <= Tally(votes, Other(b))
    ensures |Cast(votes, who, b, now)| > 0
  {
    if votes != [] && votes[0].resolver != who {
      CastTally(votes[1..], who, b, now);
    }
  }

  /** When a ballot decides an undecided dispute, the outcome is that very ballot: which side is tested first
      never matters. It decides exactly when its own side reaches the threshold. */
  lemma DecidingBallotWins(votes: seq<Vote>, who: Address, b: Ballot, now: u64, threshold: u32)
    requires Undecided(votes, threshold)
    ensures Decided(Cast(votes, who, b, now), threshold)
         == if Tally(Cast(votes, who, b, now), b) >= threshold then Some(b) else None
    ensures Decided(Cast(votes, who, b, now), threshold).None? <==> Undecided(Cast(votes, who, b, now), threshold)
  {
    CastTally(votes, who, b, now);
  }

  lemma {:induction false} TallyTotal(votes: seq<Vote>)
    ensures Tally(votes, Release) + Tally(votes, Refund) == |votes|
  {
    if votes != [] {
      TallyTotal(votes[1..]);
    }
  }

  /** A side with a ballot has a first voter, who cast that ballot. */
  lemma {:induction false} VoterForFinds(votes: seq<Vote>, b: Ballot)
    ensures VoterFor(votes, b).Some? <==> Tally(votes, b) > 0
    ensures VoterFor(votes, b).Some? ==>
            exists i :: 0 <= i < |votes| && votes[i].ballot == b && VoterFor(votes, b).value == votes[i].resolver
  {
    if votes != [] {
      VoterForFinds(votes[1..], b);
      if votes[0].ballot != b && VoterFor(votes[1..], b).Some? {
        var i :| 0 <= i < |votes[1..]| && votes[1..][i].ballot == b
                 && VoterFor(votes[1..], b).value == votes[1..][i].resolver;
        assert votes[i + 1] == votes[1..][i];
      }
    }
  }

  /** The majority side of a non-empty vote always has a backer. */
  lemma MajorityHasBacker(votes: seq<Vote>)
    requires votes != []
    ensures VoterFor(votes, Majority(votes)).Some?
  {
    TallyTotal(votes);
    VoterForFinds(votes, Majority(votes));
  }

  /** Recording in terms of positions: overwrite the caller's ballot, or append. */
  lemma {:induction false} CastAt(votes: seq<Vote>, who: Address, b: Ballot, now: u64, i: nat)
    requires i <= |votes| && forall j :: 0 <= j < i ==> votes[j].resolver != who
    requires i < |votes| ==> votes[i].resolver == who
    ensures Cast(votes, who, b, now)
         == if i < |votes| then votes[i := Vote(who, b, now)] else votes + [Vote(who, b, now)]
  {
    if i > 0 {
      CastAt(votes[1..], who, b, now, i - 1);
    }
  }

  // ── The loops ──

  /** `add_or_update_vote`: the first ballot of the same resolver is overwritten in place. */
  method AddOrUpdateVote(stored: seq<Vote>, who: Address, b: Ballot, now: u64) returns (votes: seq<Vote>)
    ensures votes == Cast(stored, who, b, now)
  {
    for i := 0 to |stored|
      invariant forall j :: 0 <= j < i ==> stored[j].resolver != who
    {
      if stored[i].resolver == who {
        CastAt(stored, who, b, now, i);
        return stored[i := Vote(who, b, now)];
      }
    }
    CastAt(stored, who, b, now, |stored|);
    votes := stored + [Vote(who, b, now)];
  }

  /** `tally_votes`. */
  method TallyVotes(votes: seq<Vote>, threshold: u32) returns (r: Option<Ballot>)
    ensures r == Decided(votes, threshold)
  {
    if votes == [] {
      return None;
    }
    var releases, refunds := CountVotes(votes);
    if releases >= threshold {
      return Some(Release);
    } else if refunds >= threshold {
      return Some(Refund);
    }
    r := None;
  }

  /** `tally_votes_majority`. */
  method TallyVotesMajority(votes: seq<Vote>) returns (b: Ballot)
    ensures b == Majority(votes)
  {
    var releases, refunds := CountVotes(votes);
    b := if releases > refunds then Release else Refund;
  }

  /** The counting loop the two tallies share. */
  method CountVotes(votes: seq<Vote>) returns (releases: nat, refunds: nat)
    ensures releases == Tally(votes, Release) && refunds == Tally(votes, Refund)
  {
    releases, refunds := 0, 0;
    for i := 0 to |votes|
      invariant releases + Tally(votes[i..], Release) == Tally(votes, Release)
      invariant refunds + Tally(votes[i..], Refund) == Tally(votes, Refund)
    {
      assert votes[i..][1..] == votes[i + 1..];
      match votes[i].ballot
      case Release => releases := releases + 1;
      case Refund => refunds := refunds + 1;
    }
  }

  /** `voter_for`. */
  method FindVoter(votes: seq<Vote>, b: Ballot) returns (r: Option<Address>)
    ensures r == VoterFor(votes, b)
  {
    for i := 0 to |votes|
      invariant VoterFor(votes, b) == VoterFor(votes[i..], b)
    {
      assert votes[i..][1..] == votes[i + 1..];
      if votes[i].ballot == b {
        return Some(votes[i].resolver);
      }
    }
    r := None;
  }
}
