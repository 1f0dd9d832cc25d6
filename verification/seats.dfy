/** `build_seats`: players listed by ascending seat, with a stable sort so
    that players sharing a seat number keep their record order. */
module Seats {
  import opened Text
  import opened Ohh
  import Money

  predicate SortedBySeat(ps: seq<Player>)
  {
    forall i, j :: 0 <= i < j < |ps| ==> ps[i].seat <= ps[j].seat
  }

  /** The players sitting in seat `k`, in the order they appear. */
  function WithSeat(ps: seq<Player>, k: int): seq<Player>
    decreases |ps|
  {
    if |ps| == 0 then []
    else (if ps[0].seat == k then [ps[0]] else []) + WithSeat(ps[1..], k)
  }

  lemma WithSeatCons(p: Player, ps: seq<Player>, k: int)
    ensures WithSeat([p] + ps, k) == (if p.seat == k then [p] else []) + WithSeat(ps, k)
  {
    assert ([p] + ps)[1..] == ps;
  }

  lemma {:induction false} WithSeatAbsent(ps: seq<Player>, k: int)
    requires forall i :: 0 <= i < |ps| ==> ps[i].seat != k
    ensures WithSeat(ps, k) == []
    decreases |ps|
  {
    if |ps| > 0 {
      WithSeatAbsent(ps[1..], k);
    }
  }

  lemma WithSeatHead(ps: seq<Player>)
    requires |ps| > 0
    ensures WithSeat(ps, ps[0].seat) != []
  {
  }

  predicate AllAtLeast(ps: seq<Player>, b: int)
  {
    forall j :: 0 <= j < |ps| ==> ps[j].seat >= b
  }

  /** Places `p` before the first player whose seat is not below its own. */
  function Insert(p: Player, s: seq<Player>): (r: seq<Player>)
    ensures |r| == |s| + 1
    decreases |s|
  {
    if |s| == 0 then [p]
    else if p.seat <= s[0].seat then [p] + s
    else [s[0]] + Insert(p, s[1..])
  }

  lemma {:induction false} InsertAtLeast(p: Player, s: seq<Player>, b: int)
    requires AllAtLeast(s, b) && p.seat >= b
    ensures AllAtLeast(Insert(p, s), b)
    decreases |s|
  {
    if |s| > 0 && p.seat > s[0].seat {
      InsertAtLeast(p, s[1..], b);
    }
  }

  lemma {:induction false} InsertSorted(p: Player, s: seq<Player>)
    requires SortedBySeat(s)
    ensures SortedBySeat(Insert(p, s))
    decreases |s|
  {
    if |s| > 0 && p.seat > s[0].seat {
      InsertSorted(p, s[1..]);
      InsertAtLeast(p, s[1..], s[0].seat);
    }
  }

  lemma {:induction false} InsertMultiset(p: Player, s: seq<Player>)
    ensures multiset(Insert(p, s)) == multiset(s) + multiset{p}
    decreases |s|
  {
    if |s| > 0 && p.seat > s[0].seat {
      InsertMultiset(p, s[1..]);
      assert s == [s[0]] + s[1..];
    }
  }

  /** Inserting `p` adds it in front of the players already in its seat and
      leaves the other seats' sublists alone. */
  lemma {:induction false} InsertWithSeat(p: Player, s: seq<Player>, k: int)
    requires SortedBySeat(s)
    ensures WithSeat(Insert(p, s), k) == (if p.seat == k then [p] else []) + WithSeat(s, k)
    decreases |s|
  {
    if |s| == 0 {
      WithSeatCons(p, [], k);
    } else if p.seat <= s[0].seat {
      WithSeatCons(p, s, k);
    } else {
      assert s == [s[0]] + s[1..];
      InsertWithSeat(p, s[1..], k);
      WithSeatCons(s[0], Insert(p, s[1..]), k);
      WithSeatCons(s[0], s[1..], k);
    }
  }

  /** The stable ascending sort of `players.sort_by_key(|p| p.seat)`:
      sorted, a permutation, and players sharing a seat keep their order. */
  function SortBySeat(ps: seq<Player>): (r: seq<Player>)
    ensures SortedBySeat(r)
    ensures multiset(r) == multiset(ps)
    ensures forall k :: WithSeat(r, k) == WithSeat(ps, k)
    decreases |ps|
  {
    if |ps| == 0 then []
    else
      var t := SortBySeat(ps[1..]);
      assert ps == [ps[0]] + ps[1..];
      InsertSorted(ps[0], t);
      InsertMultiset(ps[0], t);
      assert forall k :: WithSeat(Insert(ps[0], t), k) == WithSeat(ps, k) by {
        forall k
          ensures WithSeat(Insert(ps[0], t), k) == WithSeat(ps, k)
        {
          WithSeatCons(ps[0], ps[1..], k);
          InsertWithSeat(ps[0], t, k);
        }
      }
      Insert(ps[0], t)
  }

  /** A sorted list is determined by its per-seat sublists: so the three
      properties of `SortBySeat` pin down its result completely. */
  lemma {:induction false} SortedUnique(a: seq<Player>, b: seq<Player>)
    requires SortedBySeat(a) && SortedBySeat(b)
    requires forall k :: WithSeat(a, k) == WithSeat(b, k)
    ensures a == b
    decreases |a| + |b|
  {
    if |a| == 0 && |b| == 0 {
    } else if |a| == 0 {
      WithSeatHead(b);
      assert false;
    } else if |b| == 0 {
      WithSeatHead(a);
      assert false;
    } else {
      assert a == [a[0]] + a[1..];
      assert b == [b[0]] + b[1..];
      var ma := a[0].seat;
      var mb := b[0].seat;
      assert ma == mb by {
        WithSeatCons(a[0], a[1..], ma);
        WithSeatCons(b[0], b[1..], mb);
        if ma < mb {
          WithSeatAbsent(b, ma);
        } else if mb < ma {
          WithSeatAbsent(a, mb);
        }
      }
      assert a[0] == b[0] by {
        WithSeatCons(a[0], a[1..], ma);
        WithSeatCons(b[0], b[1..], ma);
        assert WithSeat(a, ma) == WithSeat(b, ma);
        assert WithSeat(a, ma)[0] == a[0];
        assert WithSeat(b, ma)[0] == b[0];
      }
      forall k
        ensures WithSeat(a[1..], k) == WithSeat(b[1..], k)
      {
        WithSeatCons(a[0], a[1..], k);
        WithSeatCons(b[0], b[1..], k);
        var h := if a[0].seat == k then [a[0]] else [];
        assert WithSeat(a, k) == WithSeat(b, k);
        assert WithSeat(a[1..], k) == WithSeat(a, k)[|h|..];
        assert WithSeat(b[1..], k) == WithSeat(b, k)[|h|..];
      }
      SortedUnique(a[1..], b[1..]);
    }
  }

  /** One `Seat <n>: <name> (<stack> in chips)` line. */
  function SeatLine(p: Player): string
  {
    "Seat " + NatToString(p.seat) + ": " + p.name + " (" + Money.FmtMoney(p.startingStack) + " in chips)"
  }

  /** The seat lines in ascending seat order; `build_seats` joins them with
      newlines. */
  function SeatLines(players: seq<Player>): (r: seq<string>)
    ensures |r| == |players|
    ensures forall i :: 0 <= i < |r| ==> r[i] == SeatLine(SortBySeat(players)[i])
  {
    var sorted := SortBySeat(players);
    assert |sorted| == |multiset(sorted)| == |players|;
    seq(|sorted|, i requires 0 <= i < |sorted| => SeatLine(sorted[i]))
  }

  function BuildSeats(players: seq<Player>): string
  {
    Join(SeatLines(players), "\n")
  }
}
