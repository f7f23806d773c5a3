/** The pure decision logic of packages/hub/src/ha.ts: who leads, and whose term counts. */
module Election {

  /** The strict lexicographic order of cp ids. */
  predicate LexLess(a: string, b: string) {
    b != "" && (a == "" || a[0] < b[0] || (a[0] == b[0] && LexLess(a[1..], b[1..])))
  }

  lemma {:induction false} LexTotal(a: string, b: string)
    ensures a == b || LexLess(a, b) || LexLess(b, a)
    ensures !(LexLess(a, b) && LexLess(b, a))
    ensures a == b ==> !LexLess(a, b)
  {
    if a != "" && b != "" && a[0] == b[0] {
      LexTotal(a[1..], b[1..]);
      assert a == [a[0]] + a[1..] && b == [b[0]] + b[1..];
    }
  }

  lemma {:induction false} LexTransitive(a: string, b: string, c: string)
    requires LexLess(a, b) && LexLess(b, c)
    ensures LexLess(a, c)
  {
    if a != "" && b != "" && c != "" && a[0] == b[0] && b[0] == c[0] {
      LexTransitive(a[1..], b[1..], c[1..]);
    }
  }

  datatype Candidate = Candidate(cpId: string, priority: int)

  /** The comparison the election sorts by: smaller priority first, ties by smaller id. */
  predicate Before(a: Candidate, b: Candidate) {
    a.priority < b.priority || (a.priority == b.priority && LexLess(a.cpId, b.cpId))
  }

  lemma BeforeTransitive(a: Candidate, b: Candidate, c: Candidate)
    requires !Before(b, a) && !Before(c, b)
    ensures !Before(c, a)
  {
    LexTotal(a.cpId, b.cpId);
    LexTotal(b.cpId, c.cpId);
    LexTotal(a.cpId, c.cpId);
    if Before(c, a) {
      if a.cpId != b.cpId && LexLess(a.cpId, b.cpId) && LexLess(c.cpId, a.cpId) {
        LexTransitive(c.cpId, a.cpId, b.cpId);
      }
      if LexLess(b.cpId, c.cpId) && LexLess(c.cpId, a.cpId) {
        LexTransitive(b.cpId, c.cpId, a.cpId);
      }
    }
  }

  /** The first candidate of the sorted list. */
  function First(candidates: seq<Candidate>): (first: Candidate)
    requires candidates != []
    ensures first in candidates
    ensures forall c :: c in candidates ==> !Before(c, first)
  {
    if |candidates| == 1 then
      LexTotal(candidates[0].cpId, candidates[0].cpId);
      candidates[0]
    else
      var rest := First(candidates[1..]);
      var winner := if Before(rest, candidates[0]) then rest else candidates[0];
      assert forall c :: c in candidates ==> !Before(c, winner) by {
        forall c | c in candidates
          ensures !Before(c, winner)
        {
          LexTotal(candidates[0].cpId, rest.cpId);
          LexTotal(winner.cpId, winner.cpId);
          if c in candidates[1..] && winner == candidates[0] {
            BeforeTransitive(winner, rest, c);
          }
        }
      }
      winner
  }

  /** Deterministic leader election; the empty string when nobody stands. */
  function ElectLeader(candidates: seq<Candidate>): (leader: string)
    ensures candidates == [] ==> leader == ""
    ensures candidates != [] ==>
              exists c :: c in candidates && c.cpId == leader && forall d :: d in candidates ==> !Before(d, c)
  {
    if candidates == [] then "" else First(candidates).cpId
  }

  /** Where two ids first differ, the smaller one has the smaller character, or ends. */
  ghost predicate Smaller(a: string, b: string) {
    exists k: nat :: k <= |a| && k < |b| && a[..k] == b[..k] && (k == |a| || a[k] < b[k])
  }

  lemma SmallerTail(a: string, b: string)
    requires a != "" && b != "" && a[0] == b[0]
    ensures Smaller(a, b) <==> Smaller(a[1..], b[1..])
  {
    if Smaller(a, b) {
      var k: nat :| k <= |a| && k < |b| && a[..k] == b[..k] && (k == |a| || a[k] < b[k]);
      assert k > 0;
      assert a[1..][..k - 1] == a[..k][1..] == b[..k][1..] == b[1..][..k - 1];
    }
    if Smaller(a[1..], b[1..]) {
      var k: nat :| k <= |a[1..]| && k < |b[1..]| && a[1..][..k] == b[1..][..k]
                    && (k == |a[1..]| || a[1..][k] < b[1..][k]);
      assert a[..k + 1] == [a[0]] + a[1..][..k] && b[..k + 1] == [b[0]] + b[1..][..k];
    }
  }

  lemma SmallerHead(a: string, b: string)
    requires b != "" && (a == "" || a[0] != b[0])
    ensures Smaller(a, b) <==> a == "" || a[0] < b[0]
  {
    assert a[..0] == b[..0] == "";
    if Smaller(a, b) && a != "" {
      var k: nat :| k <= |a| && k < |b| && a[..k] == b[..k] && (k == |a| || a[k] < b[k]);
      assert k == 0;
    }
  }

  lemma {:induction false} LexMeans(a: string, b: string)
    ensures LexLess(a, b) <==> Smaller(a, b)
  {
    if b != "" {
      if a == "" || a[0] != b[0] {
        SmallerHead(a, b);
      } else {
        SmallerTail(a, b);
        LexMeans(a[1..], b[1..]);
      }
    }
  }

  /** The winner has the smallest priority, and among those the smallest id. */
  lemma TheSmallestPriorityWins(candidates: seq<Candidate>, c: Candidate)
    requires c in candidates
    requires forall d :: d in candidates && d != c ==>
               c.priority < d.priority || (c.priority == d.priority && Smaller(c.cpId, d.cpId))
    ensures ElectLeader(candidates) == c.cpId
  {
    var first := First(candidates);
    LexMeans(c.cpId, first.cpId);
  }

  /** Both planes elect the same leader however each of them lists the candidates. */
  lemma ElectionIgnoresOrder(mine: seq<Candidate>, theirs: seq<Candidate>)
    requires forall c :: c in mine <==> c in theirs
    ensures ElectLeader(mine) == ElectLeader(theirs)
  {
    if mine != [] {
      assert mine[0] in theirs;
      LexTotal(First(mine).cpId, First(theirs).cpId);
    }
  }

  /** A race of two: the other plane wins exactly when it sorts before us. */
  lemma RaceOfTwo(a: Candidate, b: Candidate)
    requires a.cpId != b.cpId
    ensures ElectLeader([a, b]) == if Before(b, a) then b.cpId else a.cpId
    ensures ElectLeader([a, b]) == ElectLeader([b, a])
    ensures ElectLeader([a]) == a.cpId
  {
    LexTotal(a.cpId, b.cpId);
    assert [a, b][1..] == [b] && [b, a][1..] == [a];
    assert First([a]) == a && First([b]) == b;
  }

  datatype Judgment = AcceptPeer | SplitBrain | Stable

  /** How to react to a peer declaring (peerTerm, peerLeader). */
  function JudgeTerm(term: int, leader: string, peerTerm: int, peerLeader: string): Judgment {
    if peerTerm > term then AcceptPeer
    else if peerTerm < term then Stable
    else if peerLeader == "" || leader == peerLeader then Stable
    else SplitBrain
  }
}
