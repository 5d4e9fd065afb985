/**
 * The weekly group partitioner `makePairs`: a Fisher–Yates shuffle of the
 * roster followed by a loop that cuts the shuffled roster into consecutive
 * groups of 2 or 3, choosing each cut from the number of members left.
 *
 * The two random sources are parameters, so every property below holds for
 * every possible outcome of the random draws:
 *   - `js[i]` is the index drawn at shuffle step `i`, which lies in [0, i];
 *   - `coins` holds one coin per loop iteration: coin `k` is the outcome of
 *     the `Math.random() < 0.5` draw made while the k-th group is cut
 *     (true picks 2, false picks 3); a missing coin reads as false.
 */
module Pairing {

  type Name = string
  type Group = seq<Name>

  /**
   * The shuffle draws are in range: the draw of step `i` lies in [0, i].
   * No draw is made at step 0, so the unused `js[0]` is fixed to 0.
   */
  predicate DrawsInRange(js: seq<nat>, n: nat) {
    |js| == n && forall i | 0 <= i < n :: js[i] <= i
  }

  /** Exchange the elements at `i` and `j` (the destructuring swap). */
  function Swap(s: seq<Name>, i: nat, j: nat): (r: seq<Name>)
    requires i < |s| && j < |s|
    ensures |r| == |s|
  {
    s[i := s[j]][j := s[i]]
  }

  /** A swap moves two elements and loses or adds none. */
  lemma SwapPermutes(s: seq<Name>, i: nat, j: nat)
    requires i < |s| && j < |s|
    ensures multiset(Swap(s, i, j)) == multiset(s)
    ensures Swap(s, i, j)[i] == s[j] && Swap(s, i, j)[j] == s[i]
  {
  }

  /** The roster after the shuffle steps for indices i, i - 1, ..., 1. */
  function ShuffleDown(s: seq<Name>, js: seq<nat>, i: nat): (r: seq<Name>)
    requires i < |s| && DrawsInRange(js, |s|)
    ensures |r| == |s|
    decreases i
  {
    if i == 0 then s else ShuffleDown(Swap(s, i, js[i]), js, i - 1)
  }

  /** The whole Fisher–Yates pass, from the last index down to 1. */
  function Shuffle(s: seq<Name>, js: seq<nat>): (r: seq<Name>)
    requires DrawsInRange(js, |s|)
    ensures |r| == |s|
  {
    if |s| == 0 then s else ShuffleDown(s, js, |s| - 1)
  }

  /** The steps i, i - 1, ..., 1 only swap, so they permute the roster. */
  lemma {:induction false} ShuffleDownPermutes(s: seq<Name>, js: seq<nat>, i: nat)
    requires i < |s| && DrawsInRange(js, |s|)
    ensures multiset(ShuffleDown(s, js, i)) == multiset(s)
    decreases i
  {
    if i > 0 {
      SwapPermutes(s, i, js[i]);
      ShuffleDownPermutes(Swap(s, i, js[i]), js, i - 1);
    }
  }

  /** Every step swaps within the roster, so the shuffled roster is a permutation of it. */
  lemma ShufflePermutes(s: seq<Name>, js: seq<nat>)
    requires DrawsInRange(js, |s|)
    ensures multiset(Shuffle(s, js)) == multiset(s)
  {
    if |s| > 0 {
      ShuffleDownPermutes(s, js, |s| - 1);
    }
  }

  /** The shuffle, in place on the copy of the roster. */
  method ShuffleInPlace(a: array<Name>, js: seq<nat>)
    requires DrawsInRange(js, a.Length)
    modifies a
    ensures a[..] == Shuffle(old(a[..]), js)
  {
    if a.Length == 0 {
      return;
    }
    ghost var goal := Shuffle(a[..], js);
    var i := a.Length - 1;
    while i > 0
      invariant 0 <= i < a.Length
      invariant ShuffleDown(a[..], js, i) == goal
    {
      SwapInPlace(a, i, js[i]);
      i := i - 1;
    }
  }

  /** `[users[i], users[j]] = [users[j], users[i]]` on the array. */
  method SwapInPlace(a: array<Name>, i: nat, j: nat)
    requires i < a.Length && j < a.Length
    modifies a
    ensures a[..] == Swap(old(a[..]), i, j)
  {
    a[i], a[j] := a[j], a[i];
  }

  /** The coin of the k-th loop iteration: the given outcome, or false (a cut of 3) past the end. */
  function Coin(coins: seq<bool>, k: nat): (heads: bool)
    ensures k < |coins| ==> heads == coins[k]
    ensures k >= |coins| ==> !heads
  {
    k < |coins| && coins[k]
  }

  /** What one iteration of the grouping loop does. */
  datatype Step = Stop | MergeIntoLast | Cut(size: nat)

  /**
   * The size-selection rule, from the number of members still remaining and
   * whether a group was already emitted. Whenever two or more remain, the cut
   * is 2 or 3 and never leaves exactly one member behind.
   */
  function Decide(remaining: nat, hasGroups: bool, coin: bool): (st: Step)
    ensures st == Stop <==> remaining == 0
    ensures st == MergeIntoLast <==> remaining == 1 && hasGroups
    ensures st.Cut? ==> 1 <= st.size <= remaining
    ensures remaining >= 2 ==> st.Cut? && 2 <= st.size <= 3 && remaining - st.size != 1
    ensures remaining == 4 ==> st == Cut(2)
    ensures remaining >= 7 && remaining % 2 == 1 ==> st == Cut(3)
    ensures remaining >= 6 ==> remaining - st.size >= 3
  {
    if remaining == 0 then Stop
    else if remaining == 1 then (if hasGroups then MergeIntoLast else Cut(1))
    else if remaining == 2 || remaining == 3 then Cut(remaining)
    else if remaining == 4 then Cut(2)
    else if remaining == 5 then Cut(if coin then 2 else 3)
    else if remaining % 2 == 1 then Cut(3)
    else Cut(if coin then 2 else 3)
  }

  /** The members of all groups, in emission order. */
  function Flatten(pairs: seq<Group>): (r: seq<Name>)
    ensures |r| == TotalSize(pairs)
  {
    if pairs == [] then [] else Flatten(pairs[..|pairs| - 1]) + pairs[|pairs| - 1]
  }

  /** The sum of the group sizes. */
  function TotalSize(pairs: seq<Group>): nat {
    if pairs == [] then 0 else TotalSize(pairs[..|pairs| - 1]) + |pairs[|pairs| - 1]|
  }

  /** A member of one of the groups appears in their concatenation. */
  lemma {:induction false} FlattenHas(pairs: seq<Group>, g: Group, u: Name)
    requires g in pairs && u in g
    ensures u in Flatten(pairs)
    decreases |pairs|
  {
    if g != pairs[|pairs| - 1] {
      assert g in pairs[..|pairs| - 1];
      FlattenHas(pairs[..|pairs| - 1], g, u);
    }
  }

  /**
   * The grouping loop run to completion from the state where `users` remain
   * and `pairs` were emitted: the emitted groups followed by the remaining
   * members is always the shuffled roster.
   */
  function Split(users: seq<Name>, coins: seq<bool>, pairs: seq<Group>): (r: seq<Group>)
    ensures Flatten(r) == Flatten(pairs) + users
    decreases |users|
  {
    match Decide(|users|, pairs != [], Coin(coins, |pairs|))
    case Stop => pairs
    case MergeIntoLast => pairs[..|pairs| - 1] + [pairs[|pairs| - 1] + [users[0]]]
    case Cut(size) => Split(users[size..], coins, pairs + [users[..size]])
  }

  /** The groups cut from a shuffled roster: together they are that roster, in order. */
  function Partition(users: seq<Name>, coins: seq<bool>): (r: seq<Group>)
    ensures Flatten(r) == users
    ensures TotalSize(r) == |users|
  {
    Split(users, coins, [])
  }

  /** Groups of two or three. */
  predicate SmallGroups(pairs: seq<Group>) {
    forall g <- pairs :: 2 <= |g| <= 3
  }

  /** From any state with other than one member left, only groups of 2 or 3 are added. */
  lemma {:induction false} SplitKeepsSmallGroups(users: seq<Name>, coins: seq<bool>, pairs: seq<Group>)
    requires |users| != 1 && SmallGroups(pairs)
    ensures SmallGroups(Split(users, coins, pairs))
    decreases |users|
  {
    if |users| >= 2 {
      var size := Decide(|users|, pairs != [], Coin(coins, |pairs|)).size;
      SplitKeepsSmallGroups(users[size..], coins, pairs + [users[..size]]);
    }
  }

  /**
   * The shape of the partition: nothing for an empty roster, one singleton
   * group for one member, and otherwise only groups of 2 or 3.
   */
  lemma PartitionShape(users: seq<Name>, coins: seq<bool>)
    ensures |users| == 0 ==> Partition(users, coins) == []
    ensures |users| == 1 ==> Partition(users, coins) == [users]
    ensures |users| >= 2 ==> SmallGroups(Partition(users, coins))
  {
    if |users| == 1 {
      assert Split(users, coins, []) == Split([], coins, [users[..1]]);
    } else if |users| >= 2 {
      SplitKeepsSmallGroups(users, coins, []);
    }
  }

  /** Four members always give two pairs: the first two and the last two. */
  lemma PartitionOfFour(users: seq<Name>, coins: seq<bool>)
    requires |users| == 4
    ensures Partition(users, coins) == [users[..2], users[2..]]
  {
    var rest := users[2..];
    assert Split(users, coins, []) == Split(rest, coins, [users[..2]]);
    assert Split(rest, coins, [users[..2]]) == Split(rest[2..], coins, [users[..2], rest[..2]]);
    assert rest[..2] == rest;
  }

  /**
   * (users', pairs') is a state the grouping loop reaches from (users, pairs)
   * by cutting groups.
   */
  predicate Reaches(users: seq<Name>, pairs: seq<Group>, coins: seq<bool>, users': seq<Name>, pairs': seq<Group>)
    decreases |users|
  {
    (users' == users && pairs' == pairs) ||
    match Decide(|users|, pairs != [], Coin(coins, |pairs|))
    case Cut(size) => Reaches(users[size..], pairs + [users[..size]], coins, users', pairs')
    case _ => false
  }

  /** Once a group exists, the loop never has exactly one member left. */
  predicate NoStraggler(users: seq<Name>, pairs: seq<Group>) {
    pairs != [] ==> |users| != 1
  }

  /** Cutting a group keeps NoStraggler, because no cut from two or more members leaves one. */
  lemma {:induction false} ReachesKeepsNoStraggler(users: seq<Name>, pairs: seq<Group>, coins: seq<bool>, users': seq<Name>, pairs': seq<Group>)
    requires NoStraggler(users, pairs)
    requires Reaches(users, pairs, coins, users', pairs')
    ensures NoStraggler(users', pairs')
    decreases |users|
  {
    if !(users' == users && pairs' == pairs) {
      var size := Decide(|users|, pairs != [], Coin(coins, |pairs|)).size;
      ReachesKeepsNoStraggler(users[size..], pairs + [users[..size]], coins, users', pairs');
    }
  }

  /** One more cut extends a path of cuts. */
  lemma {:induction false} ReachesStep(users: seq<Name>, pairs: seq<Group>, coins: seq<bool>, users': seq<Name>, pairs': seq<Group>, size: nat)
    requires Reaches(users, pairs, coins, users', pairs')
    requires Decide(|users'|, pairs' != [], Coin(coins, |pairs'|)) == Cut(size)
    ensures Reaches(users, pairs, coins, users'[size..], pairs' + [users'[..size]])
    decreases |users|
  {
    if users' == users && pairs' == pairs {
      assert Reaches(users[size..], pairs + [users[..size]], coins, users'[size..], pairs' + [users'[..size]]);
    } else {
      var s := Decide(|users|, pairs != [], Coin(coins, |pairs|)).size;
      ReachesStep(users[s..], pairs + [users[..s]], coins, users', pairs', size);
    }
  }

  /**
   * The branch that merges a lone last member into the previous group is
   * never taken: no state reached from the start of the loop selects it.
   */
  lemma MergeNeverTaken(start: seq<Name>, coins: seq<bool>, users: seq<Name>, pairs: seq<Group>)
    requires Reaches(start, [], coins, users, pairs)
    ensures Decide(|users|, pairs != [], Coin(coins, |pairs|)) != MergeIntoLast
  {
    ReachesKeepsNoStraggler(start, [], coins, users, pairs);
  }

  /**
   * The grouping loop of makePairs: cut the shuffled roster into groups,
   * `users.splice(0, size)` at a time, until no member is left.
   */
  method CutGroups(shuffled: seq<Name>, coins: seq<bool>) returns (pairs: seq<Group>)
    ensures pairs == Partition(shuffled, coins)
  {
    var users := shuffled;
    pairs := [];
    while |users| > 0
      invariant Split(users, coins, pairs) == Partition(shuffled, coins)
      invariant Reaches(shuffled, [], coins, users, pairs)
      decreases |users|
    {
      // every state of this loop is one MergeNeverTaken speaks about
      ghost var step := Decide(|users|, pairs != [], Coin(coins, |pairs|));
      if step.Cut? {
        ReachesStep(shuffled, [], coins, users, pairs, step.size);
      }
      if |users| == 1 {
        if |pairs| > 0 {
          // the lone member joins the previous group
          pairs := pairs[..|pairs| - 1] + [pairs[|pairs| - 1] + [users[0]]];
          break;
        } else {
          pairs := pairs + [users[..1]];
          users := users[1..];
        }
      } else if |users| == 2 || |users| == 3 {
        pairs := pairs + [users[..|users|]];
        users := users[|users|..];
      } else if |users| == 4 {
        var size := 2;
        pairs := pairs + [users[..size]];
        users := users[size..];
      } else if |users| == 5 {
        var size := if Coin(coins, |pairs|) then 2 else 3;
        pairs := pairs + [users[..size]];
        users := users[size..];
      } else {
        var size;
        if |users| % 2 == 1 {
          size := 3;
        } else {
          size := if Coin(coins, |pairs|) then 2 else 3;
        }
        pairs := pairs + [users[..size]];
        users := users[size..];
      }
    }
  }

  /**
   * makePairs: shuffle a copy of the roster, then cut it into groups. The
   * result is a permutation of the roster cut into pieces whose sizes add up
   * to the roster's length; no group has one member unless the roster does,
   * and four members always give 2 + 2.
   */
  method MakePairs(usernames: seq<Name>, js: seq<nat>, coins: seq<bool>) returns (pairs: seq<Group>)
    requires DrawsInRange(js, |usernames|)
    ensures pairs == Partition(Shuffle(usernames, js), coins)
    ensures multiset(Flatten(pairs)) == multiset(usernames)
    ensures TotalSize(pairs) == |usernames|
    ensures |usernames| == 0 ==> pairs == []
    ensures |usernames| == 1 ==> pairs == [usernames]
    ensures |usernames| >= 2 ==> SmallGroups(pairs)
    ensures |usernames| == 4 ==> |pairs| == 2 && |pairs[0]| == 2 && |pairs[1]| == 2
  {
    var users := new Name[|usernames|](k requires 0 <= k < |usernames| => usernames[k]);
    assert users[..] == usernames;
    ShuffleInPlace(users, js);
    pairs := CutGroups(users[..], coins);
    ShufflePermutes(usernames, js);
    PartitionShape(users[..], coins);
    if |usernames| == 1 {
      assert users[..] == usernames;
    }
    if |usernames| == 4 {
      PartitionOfFour(users[..], coins);
    }
  }
}
