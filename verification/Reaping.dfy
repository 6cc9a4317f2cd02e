/** What the reaper's partition does to the queue, with a clock that moves while it reads. */
module Reaping {
  import opened Protocol

  /** A host is expired exactly when its age at the reading exceeds the limit. A reading before its creation
      counts as age 0. */
  lemma ExpiredByAge(h: Host, age: nat, ttl: nat)
    ensures Expired(h, h.createdAt + age, ttl) <==> age > ttl
    ensures forall now: nat :: now <= h.createdAt ==> !Expired(h, now, ttl)
    ensures forall now: nat :: Expired(h, now, ttl) <==> now > h.createdAt + ttl
  {
  }

  predicate Increasing(at: seq<nat>) {
    forall i, j :: 0 <= i < j < |at| ==> at[i] < at[j]
  }

  /** part consists of the elements of whole at the given positions, in order. */
  predicate Picks<T(==)>(whole: seq<T>, at: seq<nat>, part: seq<T>) {
    && |at| == |part| && Increasing(at)
    && forall k :: 0 <= k < |at| ==> at[k] < |whole| && part[k] == whole[at[k]]
  }

  lemma PicksStill<T>(whole: seq<T>, at: seq<nat>, part: seq<T>)
    requires whole != [] && Picks(whole[..|whole| - 1], at, part)
    ensures Picks(whole, at, part)
  {
  }

  lemma PicksLast<T>(whole: seq<T>, at: seq<nat>, part: seq<T>)
    requires whole != [] && Picks(whole[..|whole| - 1], at, part)
    ensures Picks(whole, at + [|whole| - 1], part + [whole[|whole| - 1]])
  {
  }

  /** Both parts keep the order of the queue and between them use each position exactly once; a host is
      in the first part exactly when it was older than the limit at the moment its own age was read. */
  lemma {:induction false} SiftSplits(hosts: seq<Host>, readings: seq<nat>, ttl: nat)
      returns (gone: seq<nat>, stay: seq<nat>)
    requires |hosts| == |readings|
    ensures var (expired, kept) := Sift(hosts, readings, ttl); Picks(hosts, gone, expired) && Picks(hosts, stay, kept)
    ensures forall i :: 0 <= i < |hosts| ==> (i in gone <==> i !in stay)
    ensures forall i :: 0 <= i < |hosts| ==> (i in gone <==> readings[i] > hosts[i].createdAt + ttl)
  {
    if hosts == [] {
      gone, stay := [], [];
    } else {
      var n := |hosts| - 1;
      var (expired, kept) := Sift(hosts[..n], readings[..n], ttl);
      gone, stay := SiftSplits(hosts[..n], readings[..n], ttl);
      PicksStill(hosts, gone, expired);
      PicksStill(hosts, stay, kept);
      if Expired(hosts[n], readings[n], ttl) {
        PicksLast(hosts, gone, expired);
        gone := gone + [n];
      } else {
        PicksLast(hosts, stay, kept);
        stay := stay + [n];
      }
    }
  }

  /** A host older than the limit when the reaper starts is dropped, however the clock moves; a host that
      stays was no older when it was read, hence not when the reaper started. */
  lemma ReapedIffExpiredWhenRead(hosts: seq<Host>, readings: seq<nat>, ttl: nat, start: nat)
      returns (gone: seq<nat>, stay: seq<nat>)
    requires |hosts| == |readings| && Advancing(readings, start)
    ensures Picks(hosts, gone, Sift(hosts, readings, ttl).0) && Picks(hosts, stay, Sift(hosts, readings, ttl).1)
    ensures forall i :: 0 <= i < |hosts| && start > hosts[i].createdAt + ttl ==> i in gone && i !in stay
    ensures forall i :: 0 <= i < |hosts| && i in stay ==>
                          readings[i] <= hosts[i].createdAt + ttl && start <= hosts[i].createdAt + ttl
  {
    gone, stay := SiftSplits(hosts, readings, ttl);
    forall i | 0 <= i < |hosts| ensures start <= readings[i] { }
  }
}
