/** Least-recently-used choice rotates through the free sessions. */
module SessionRotation {
  import opened Common
  import opened SessionPool

  /** One round: lock the session, possibly stamp it again while holding it, release it. */
  function Round(sessions: seq<Session>, s: nat, lockAt: int, stampAt: int): seq<Session>
    requires s < |sessions|
  {
    var locked := Locked(sessions, s, lockAt);
    var stamped := locked[s := locked[s].(lastUsedAt := Some(stampAt))];
    ReleasedOk(stamped, s, stampAt)
  }

  /** A round's pick and its two clock readings. */
  datatype Turn = Turn(s: nat, lockAt: int, stampAt: int)

  /** Rounds one after the other: each locks a session that the database may return
      as least recently used, at a clock reading later than every earlier one. */
  ghost predicate ValidTurns(sessions: seq<Session>, turns: seq<Turn>)
    decreases |turns|
  {
    turns == [] ||
    (var t := turns[0];
     && IsLeastRecentlyUsed(sessions, t.s)
     && t.lockAt <= t.stampAt
     && (forall i :: 0 <= i < |sessions| && sessions[i].lastUsedAt.Some? ==> sessions[i].lastUsedAt.value < t.lockAt)
     && ValidTurns(Round(sessions, t.s, t.lockAt, t.stampAt), turns[1..]))
  }

  /** The free sessions, each used before, from the least to the most recently used. */
  ghost predicate IsOrder(sessions: seq<Session>, order: seq<nat>) {
    && (forall j :: 0 <= j < |order| ==>
          order[j] < |sessions| && Free(sessions[order[j]]) && sessions[order[j]].lastUsedAt.Some?)
    && (forall i, j :: 0 <= i < j < |order| ==>
          sessions[order[i]].lastUsedAt.value < sessions[order[j]].lastUsedAt.value)
    && (forall s :: 0 <= s < |sessions| && Free(sessions[s]) ==> s in order)
  }

  lemma RoundRotates(sessions: seq<Session>, order: seq<nat>, turns: seq<Turn>)
    requires IsOrder(sessions, order) && turns != [] && ValidTurns(sessions, turns)
    ensures order != [] && turns[0].s == order[0]
    ensures IsOrder(Round(sessions, turns[0].s, turns[0].lockAt, turns[0].stampAt), order[1..] + [order[0]])
  {
    var t := turns[0];
    var after := Round(sessions, t.s, t.lockAt, t.stampAt);
    var rotated := order[1..] + [order[0]];
    assert |after| == |sessions|;
    forall i, j | 0 <= i < j < |order| ensures order[i] != order[j] {}
    forall s | 0 <= s < |after| && Free(after[s]) ensures s in rotated {
      var j :| 0 <= j < |order| && order[j] == s;
      assert s == rotated[if j == 0 then |order| - 1 else j - 1];
    }
  }

  lemma RotatedAt(order: seq<nat>, j: nat)
    requires order != []
    ensures (order[1..] + [order[0]])[j % |order|] == order[(j + 1) % |order|]
  {
    NextRemainder(|order|, j);
  }

  lemma NextRemainder(n: nat, j: nat)
    requires 0 < n
    ensures (j + 1) % n == if j % n + 1 == n then 0 else j % n + 1
  {
    var r := if j % n + 1 == n then 0 else j % n + 1;
    var q := if j % n + 1 == n then j / n + 1 else j / n;
    assert n * (j / n + 1) == n * (j / n) + n;
    assert j + 1 == n * q + r;
    RemainderUnique(n, j + 1, q, r);
  }

  lemma RemainderUnique(n: nat, x: nat, q: nat, r: nat)
    requires r < n && x == n * q + r
    ensures x % n == r
  {
    var d := x / n - q;
    assert x == n * (x / n) + x % n;
    assert n * d == n * (x / n) - n * q;
  }

  /** Round j picks the j-th session of the initial order, cyclically, for as many
      rounds as there are. */
  lemma {:induction false} RoundRobin(sessions: seq<Session>, order: seq<nat>, turns: seq<Turn>)
    requires IsOrder(sessions, order) && ValidTurns(sessions, turns)
    ensures turns != [] ==> order != []
    ensures forall j :: 0 <= j < |turns| ==> turns[j].s == order[j % |order|]
    decreases |turns|
  {
    if turns != [] {
      var t := turns[0];
      var rotated := order[1..] + [order[0]];
      RoundRotates(sessions, order, turns);
      RoundRobin(Round(sessions, t.s, t.lockAt, t.stampAt), rotated, turns[1..]);
      forall j | 0 <= j < |turns| ensures turns[j].s == order[j % |order|] {
        if j == 0 {
          RemainderUnique(|order|, 0, 0, 0);
        } else {
          assert turns[j] == turns[1..][j - 1];
          RotatedAt(order, j - 1);
        }
      }
    }
  }

  // ---- The initial order exists ----

  ghost predicate DistinctStamps(sessions: seq<Session>) {
    && (forall s :: 0 <= s < |sessions| && Free(sessions[s]) ==> sessions[s].lastUsedAt.Some?)
    && (forall s, t :: 0 <= s < t < |sessions| && Free(sessions[s]) && Free(sessions[t])
                       ==> sessions[s].lastUsedAt != sessions[t].lastUsedAt)
  }

  lemma {:induction false} Oldest(sessions: seq<Session>, left: set<nat>) returns (s: nat)
    requires left != {} && forall t :: t in left ==> t < |sessions| && sessions[t].lastUsedAt.Some?
    ensures s in left && forall t :: t in left ==> sessions[s].lastUsedAt.value <= sessions[t].lastUsedAt.value
    decreases |left|
  {
    s :| s in left;
    if left != {s} {
      var u := Oldest(sessions, left - {s});
      if sessions[u].lastUsedAt.value < sessions[s].lastUsedAt.value {
        s := u;
      }
    }
  }

  lemma {:induction false} OrderOf(sessions: seq<Session>, left: set<nat>) returns (order: seq<nat>)
    requires DistinctStamps(sessions)
    requires forall t :: t in left ==> t < |sessions| && Free(sessions[t])
    ensures forall s :: s in left <==> s in order
    ensures forall i, j :: 0 <= i < j < |order| ==>
                             order[i] in left && order[j] in left
                             && sessions[order[i]].lastUsedAt.value < sessions[order[j]].lastUsedAt.value
    decreases |left|
  {
    if left == {} {
      order := [];
    } else {
      var s := Oldest(sessions, left);
      var rest := OrderOf(sessions, left - {s});
      order := [s] + rest;
      forall j | 0 <= j < |rest| ensures sessions[s].lastUsedAt.value < sessions[rest[j]].lastUsedAt.value {
        assert rest[j] in left - {s};
      }
    }
  }

  /** n free sessions with distinct stamps are visited in a fixed cyclic order:
      every n rounds in a row visit each of them exactly once, and the order repeats. */
  lemma RotationVisitsEverySession(sessions: seq<Session>, turns: seq<Turn>) returns (order: seq<nat>)
    requires DistinctStamps(sessions) && ValidTurns(sessions, turns)
    ensures |order| == FreeCount(sessions)
    ensures forall s :: 0 <= s < |sessions| && Free(sessions[s]) <==> s in order
    ensures forall i, j :: 0 <= i < j < |order| ==> order[i] != order[j]
    ensures turns != [] ==> order != []
    ensures forall j :: 0 <= j < |turns| ==> turns[j].s == order[j % |order|]
  {
    var free := set s: nat | s < |sessions| && Free(sessions[s]);
    order := OrderOf(sessions, free);
    forall j | 0 <= j < |order|
      ensures order[j] < |sessions| && Free(sessions[order[j]]) && sessions[order[j]].lastUsedAt.Some?
    {
      assert order[j] in free;
    }
    RoundRobin(sessions, order, turns);
    FreeCountIsSize(sessions, free);
    DistinctSize(order, free);
  }

  lemma {:induction false} FreeCountIsSize(sessions: seq<Session>, free: set<nat>)
    requires free == set s: nat | s < |sessions| && Free(sessions[s])
    ensures FreeCount(sessions) == |free|
  {
    if sessions != [] {
      var n := |sessions| - 1;
      var front := set s: nat | s < n && Free(sessions[..n][s]);
      FreeCountIsSize(sessions[..n], front);
      if Free(sessions[n]) {
        assert free == front + {n};
      } else {
        assert free == front;
      }
    }
  }

  lemma {:induction false} DistinctSize(order: seq<nat>, elements: set<nat>)
    requires forall s :: s in order <==> s in elements
    requires forall i, j :: 0 <= i < j < |order| ==> order[i] != order[j]
    ensures |order| == |elements|
  {
    if order != [] {
      var last := order[|order| - 1];
      var front := order[..|order| - 1];
      assert order == front + [last];
      assert last !in front;
      DistinctSize(front, elements - {last});
    } else {
      assert elements == {};
    }
  }
}
