/** Collision between sprite groups as pygame.sprite.groupcollide performs
    it, with the rect test colliderect: for each sprite of the first group in
    turn, every sprite of the second group that overlaps it is taken (and,
    with dokillb, removed before the next sprite's turn); a sprite of the
    first group that took anything is removed (dokilla). */
module Collide {
  import opened Rects
  import opened GameObject

  /** `a.rect.colliderect(b.rect)`. */
  predicate Hits(a: Body, b: Body) {
    Colliderect(a.Bounds(), b.Bounds())
  }

  /** One entry of the dictionary groupcollide returns: a sprite of the first
      group and the list of the sprites of the second group it took. */
  datatype Claim = Claim(hitter: Body, taken: seq<Body>)

  /** The dictionary (in insertion order) and what is left of both groups. */
  datatype Sweep = Sweep(hits: seq<Claim>, restA: seq<Body>, restB: seq<Body>)

  /** The sprites of `group` whose overlap with `a` is `overlap`, in group
      order: the list spritecollide(a, group) returns when `overlap` holds,
      and what it leaves of the group with dokill when it does not. */
  function Split(a: Body, group: seq<Body>, overlap: bool): seq<Body>
    decreases |group|
  {
    if group == [] then []
    else (if Hits(a, group[0]) == overlap then [group[0]] else []) + Split(a, group[1..], overlap)
  }

  function TakenBy(a: Body, group: seq<Body>): seq<Body> {
    Split(a, group, true)
  }

  function MissedBy(a: Body, group: seq<Body>): seq<Body> {
    Split(a, group, false)
  }

  /** Each sprite of the group is overlapped by `a` or is not, and goes to
      that side and no other. */
  lemma {:induction false} SplitCounts(a: Body, group: seq<Body>)
    ensures multiset(Split(a, group, true)) + multiset(Split(a, group, false)) == multiset(group)
    decreases |group|
  {
    if group != [] {
      var b, tail := group[0], group[1..];
      SplitCounts(a, tail);
      assert group == [b] + tail;
      assert multiset(group) == multiset{b} + multiset(tail);
      if Hits(a, b) {
        assert Split(a, group, true) == [b] + Split(a, tail, true);
        assert Split(a, group, false) == Split(a, tail, false);
      } else {
        assert Split(a, group, true) == Split(a, tail, true);
        assert Split(a, group, false) == [b] + Split(a, tail, false);
      }
    }
  }

  /** A sprite is on a side exactly when it is in the group and on that side
      of the test. */
  lemma {:induction false} SplitIn(a: Body, group: seq<Body>, overlap: bool)
    ensures forall b :: b in Split(a, group, overlap) <==> b in group && Hits(a, b) == overlap
    decreases |group|
  {
    if group != [] {
      var tail := group[1..];
      SplitIn(a, tail, overlap);
      assert group == [group[0]] + tail;
      assert Split(a, group, overlap) ==
        (if Hits(a, group[0]) == overlap then [group[0]] else []) + Split(a, tail, overlap);
    }
  }

  lemma SplitMembers(a: Body, group: seq<Body>)
    ensures multiset(Split(a, group, true)) + multiset(Split(a, group, false)) == multiset(group)
    ensures forall b :: b in Split(a, group, true) <==> b in group && Hits(a, b)
    ensures forall b :: b in Split(a, group, false) <==> b in group && !Hits(a, b)
  {
    SplitCounts(a, group);
    SplitIn(a, group, true);
    SplitIn(a, group, false);
  }

  /** Nothing is left out when nothing overlaps, nothing taken when nothing
      overlaps. */
  lemma {:induction false} SplitNone(a: Body, group: seq<Body>)
    requires forall b :: b in group ==> !Hits(a, b)
    ensures Split(a, group, true) == [] && Split(a, group, false) == group
    decreases |group|
  {
    if group != [] {
      SplitNone(a, group[1..]);
      assert group == [group[0]] + group[1..];
    }
  }

  /** groupcollide(groupA, groupB, True, True). */
  function GroupCollide(groupA: seq<Body>, groupB: seq<Body>): Sweep
    decreases |groupA|
  {
    if groupA == [] then Sweep([], [], groupB)
    else
      var a := groupA[0];
      var taken := TakenBy(a, groupB);
      var rest := GroupCollide(groupA[1..], MissedBy(a, groupB));
      if taken == [] then rest.(restA := [a] + rest.restA)
      else rest.(hits := [Claim(a, taken)] + rest.hits)
  }

  /** All the sprites of the second group the dictionary lists. */
  function AllTaken(hits: seq<Claim>): seq<Body>
    decreases |hits|
  {
    if hits == [] then [] else hits[0].taken + AllTaken(hits[1..])
  }

  /** The keys of the dictionary. */
  function Hitters(hits: seq<Claim>): seq<Body>
    decreases |hits|
  {
    if hits == [] then [] else [hits[0].hitter] + Hitters(hits[1..])
  }

  /** Nothing is lost or counted twice: every sprite of the first group is
      either a key of the dictionary or left over. */
  lemma {:induction false} SweepPartitionsA(groupA: seq<Body>, groupB: seq<Body>)
    ensures var s := GroupCollide(groupA, groupB);
      multiset(Hitters(s.hits)) + multiset(s.restA) == multiset(groupA)
    decreases |groupA|
  {
    if groupA != [] {
      var a, tail := groupA[0], groupA[1..];
      SweepPartitionsA(tail, MissedBy(a, groupB));
      assert groupA == [a] + tail;
    }
  }

  /** Every sprite of the second group either was taken by exactly one key
      or is left over. */
  lemma {:induction false} SweepPartitionsB(groupA: seq<Body>, groupB: seq<Body>)
    ensures var s := GroupCollide(groupA, groupB);
      multiset(AllTaken(s.hits)) + multiset(s.restB) == multiset(groupB)
    decreases |groupA|
  {
    if groupA != [] {
      var a := groupA[0];
      SweepPartitionsB(groupA[1..], MissedBy(a, groupB));
      SplitCounts(a, groupB);
    }
  }

  /** Both partitions together. */
  lemma SweepPartitions(groupA: seq<Body>, groupB: seq<Body>)
    ensures var s := GroupCollide(groupA, groupB);
      && multiset(Hitters(s.hits)) + multiset(s.restA) == multiset(groupA)
      && multiset(AllTaken(s.hits)) + multiset(s.restB) == multiset(groupB)
  {
    SweepPartitionsA(groupA, groupB);
    SweepPartitionsB(groupA, groupB);
  }

  /** What is left of each group was in that group. */
  lemma {:induction false} SweepRestsFromGroups(groupA: seq<Body>, groupB: seq<Body>)
    ensures var s := GroupCollide(groupA, groupB);
      && (forall b :: b in s.restA ==> b in groupA)
      && (forall b :: b in s.restB ==> b in groupB)
    decreases |groupA|
  {
    if groupA != [] {
      var a := groupA[0];
      SweepRestsFromGroups(groupA[1..], MissedBy(a, groupB));
      SplitIn(a, groupB, false);
      assert forall b :: b in groupA[1..] ==> b in groupA;
    }
  }

  /** What is left of the second group overlaps no sprite of the first group
      as it was before the sweep: a later sprite never leaves behind a sprite
      it overlaps, and an earlier one already took all it overlapped. */
  lemma {:induction false} SweepLeavesNoOverlap(groupA: seq<Body>, groupB: seq<Body>)
    ensures var s := GroupCollide(groupA, groupB);
      forall a, b :: a in groupA && b in s.restB ==> !Hits(a, b)
    decreases |groupA|
  {
    if groupA != [] {
      var a := groupA[0];
      var missed := MissedBy(a, groupB);
      var s := GroupCollide(groupA, groupB);
      SweepLeavesNoOverlap(groupA[1..], missed);
      SweepPartitions(groupA[1..], missed);
      SplitMembers(a, groupB);
      forall a', b | a' in groupA && b in s.restB
        ensures !Hits(a', b)
      {
        assert multiset(s.restB) <= multiset(missed);
        assert b in multiset(missed);
        if a' != a {
          assert a' in groupA[1..];
        }
      }
    }
  }

  /** Every key of the dictionary comes from the first group and took at least
      one sprite, and every sprite it took overlaps it. */
  lemma {:induction false} ClaimsAreHits(groupA: seq<Body>, groupB: seq<Body>)
    ensures forall c :: c in GroupCollide(groupA, groupB).hits ==>
      c.hitter in groupA && c.taken != [] && forall b :: b in c.taken ==> b in groupB && Hits(c.hitter, b)
    decreases |groupA|
  {
    if groupA != [] {
      var a := groupA[0];
      var missed := MissedBy(a, groupB);
      ClaimsAreHits(groupA[1..], missed);
      SplitMembers(a, groupB);
    }
  }

  /** Every sprite of the first group that overlaps nothing of the second
      group is left over, and when no pair overlaps the sweep changes nothing. */
  lemma {:induction false} NoOverlapNoChange(groupA: seq<Body>, groupB: seq<Body>)
    requires forall a, b :: a in groupA && b in groupB ==> !Hits(a, b)
    ensures GroupCollide(groupA, groupB) == Sweep([], groupA, groupB)
    decreases |groupA|
  {
    if groupA != [] {
      var a := groupA[0];
      SplitNone(a, groupB);
      NoOverlapNoChange(groupA[1..], groupB);
      assert groupA == [a] + groupA[1..];
    }
  }

  // ---------------------------------------------------------------------
  // A group against the one-sprite player group, dokillb False
  // ---------------------------------------------------------------------

  /** The sprites of `group` that overlap the player (the keys of the
      dictionary groupcollide(group, player_group, True, False) returns). */
  function Touching(group: seq<Body>, player: Body): seq<Body> {
    Split(player, group, true)
  }

  /** What groupcollide(group, player_group, True, False) leaves of `group`. */
  function Clear(group: seq<Body>, player: Body): seq<Body> {
    Split(player, group, false)
  }

  /** The keys of the dictionary are exactly the sprites of the group that
      overlap the player, and exactly the others stay. */
  lemma ContactMembers(group: seq<Body>, player: Body)
    ensures forall b :: b in Touching(group, player) <==> b in group && Hits(b, player)
    ensures forall b :: b in Clear(group, player) <==> b in group && !Hits(b, player)
  {
    SplitIn(player, group, true);
    SplitIn(player, group, false);
  }

  /** The dictionary is non-empty exactly when some sprite overlaps the player,
      and exactly the overlapping sprites are removed. */
  lemma StrikeAgainstPlayer(group: seq<Body>, player: Body)
    ensures Touching(group, player) != [] <==> exists b :: b in group && Hits(b, player)
    ensures forall b :: b in Clear(group, player) <==> b in group && !Hits(b, player)
    ensures multiset(Touching(group, player)) + multiset(Clear(group, player)) == multiset(group)
  {
    SplitMembers(player, group);
    if Touching(group, player) == [] {
      forall b | b in group
        ensures !Hits(b, player)
      {
        assert b !in Touching(group, player);
      }
    } else {
      var b := Touching(group, player)[0];
      assert b in Touching(group, player);
    }
  }
}
