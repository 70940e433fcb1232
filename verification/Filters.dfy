/** What filtering a sequence keeps, said by the places it keeps. */
module Filters {

  /** These places, in order, hold what is to be kept, and no others do. */
  ghost predicate Picks<T>(s: seq<T>, keep: T -> bool, places: seq<nat>) {
    && (forall k, l :: 0 <= k < l < |places| ==> places[k] < places[l])
    && (forall k :: 0 <= k < |places| ==> places[k] < |s|)
    && (forall p :: 0 <= p < |s| ==> (p in places <==> keep(s[p])))
  }

  function Shifted(places: seq<nat>): seq<nat> {
    seq(|places|, k requires 0 <= k < |places| => places[k] + 1)
  }

  lemma {:induction false} ShiftedIn(places: seq<nat>, p: nat)
    ensures p in Shifted(places) <==> p > 0 && p - 1 in places
  {
    if p > 0 && p - 1 in places {
      var k :| 0 <= k < |places| && places[k] == p - 1;
      assert Shifted(places)[k] == p;
    }
  }

  /** The places in a sequence, from those in its tail. */
  lemma {:induction false} PicksMore<T>(s: seq<T>, keep: T -> bool, later: seq<nat>)
    requires s != [] && Picks(s[1..], keep, later)
    ensures Picks(s, keep, (if keep(s[0]) then [0] else []) + Shifted(later))
  {
    var places := (if keep(s[0]) then [0] else []) + Shifted(later);
    forall p | 0 <= p < |s| ensures p in places <==> keep(s[p]) {
      ShiftedIn(later, p);
      if p > 0 {
        assert s[1..][p - 1] == s[p];
      }
    }
  }

  /** What is at the places, as the filter shows it. */
  ghost predicate ShowsAt<S, T>(s: seq<S>, places: seq<nat>, shows: (S, T) -> bool, out: seq<T>) {
    |out| == |places| && forall k :: 0 <= k < |places| ==> places[k] < |s| && shows(s[places[k]], out[k])
  }

  lemma {:induction false} ShowsMore<S, T>(s: seq<S>, later: seq<nat>, shows: (S, T) -> bool, out: seq<T>)
    requires s != [] && ShowsAt(s[1..], later, shows, out)
    ensures ShowsAt(s, [] + Shifted(later), shows, [] + out)
    ensures forall x :: shows(s[0], x) ==> ShowsAt(s, [0] + Shifted(later), shows, [x] + out)
  {}

  /** The same from the other end. */
  lemma {:induction false} PicksLast<T>(s: seq<T>, keep: T -> bool, places: seq<nat>)
    requires s != [] && Picks(s[..|s| - 1], keep, places)
    ensures Picks(s, keep, places + if keep(s[|s| - 1]) then [|s| - 1] else [])
  {
    var n := |s| - 1;
    var all := places + if keep(s[n]) then [n] else [];
    forall p | 0 <= p < |s| ensures p in all <==> keep(s[p]) {
      if p < n {
        assert s[..n][p] == s[p];
      }
    }
  }

  lemma {:induction false} ShowsLast<S, T>(s: seq<S>, places: seq<nat>, shows: (S, T) -> bool, out: seq<T>)
    requires s != [] && ShowsAt(s[..|s| - 1], places, shows, out)
    ensures ShowsAt(s, places + [], shows, out + [])
    ensures forall x :: shows(s[|s| - 1], x) ==> ShowsAt(s, places + [|s| - 1], shows, out + [x])
  {}
}
