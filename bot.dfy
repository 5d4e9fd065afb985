/**
 * The bot side of the weekly pairing: the roster it groups (every fetched
 * guild member that is not a bot, by username, in fetch order), the same
 * makePairs run on that roster, and the announcement message that numbers
 * the groups.
 */
module PairBot {

  import opened Pairing

  /** A fetched guild member: its username and whether it is a bot account. */
  datatype Member = Member(username: Name, bot: bool)

  /** `members.filter((m) => !m.user.bot).map((m) => m.user.username)` */
  function Roster(members: seq<Member>): (r: seq<Name>)
    ensures |r| <= |members|
  {
    if members == [] then []
    else (if members[0].bot then [] else [members[0].username]) + Roster(members[1..])
  }

  /** The filter keeps fetch order: the roster of a concatenation is the concatenation of the rosters. */
  lemma {:induction false} RosterAppend(a: seq<Member>, b: seq<Member>)
    ensures Roster(a + b) == Roster(a) + Roster(b)
    decreases |a|
  {
    if a == [] {
      assert a + b == b;
    } else {
      assert (a + b)[1..] == a[1..] + b;
      RosterAppend(a[1..], b);
    }
  }

  /** A name is on the roster exactly when some non-bot member has it. */
  lemma {:induction false} RosterMembers(members: seq<Member>, u: Name)
    ensures u in Roster(members) <==> exists m :: m in members && !m.bot && m.username == u
    decreases |members|
  {
    if members != [] {
      RosterMembers(members[1..], u);
      assert forall m :: m in members <==> m == members[0] || m in members[1..];
    }
  }

  /** Without bots the roster is every username; with only bots it is empty. */
  lemma {:induction false} RosterWithoutBots(members: seq<Member>)
    ensures (forall k | 0 <= k < |members| :: !members[k].bot) ==>
      |Roster(members)| == |members| &&
      forall k | 0 <= k < |members| :: Roster(members)[k] == members[k].username
    ensures (forall k | 0 <= k < |members| :: members[k].bot) ==> Roster(members) == []
    decreases |members|
  {
    if members != [] {
      RosterWithoutBots(members[1..]);
    }
  }

  /**
   * makePairs(guild): group the guild's human members. The groups hold
   * exactly the roster, reordered; their sizes add up to the roster's size;
   * an empty roster gives no group, a single member a group of one, and
   * otherwise every group has 2 or 3 members.
   */
  method MakeGuildPairs(members: seq<Member>, js: seq<nat>, coins: seq<bool>) returns (pairs: seq<Group>)
    requires DrawsInRange(js, |Roster(members)|)
    ensures pairs == Partition(Shuffle(Roster(members), js), coins)
    ensures multiset(Flatten(pairs)) == multiset(Roster(members))
    ensures TotalSize(pairs) == |Roster(members)|
    ensures |Roster(members)| == 0 ==> pairs == []
    ensures |Roster(members)| == 1 ==> pairs == [Roster(members)]
    ensures |Roster(members)| >= 2 ==> SmallGroups(pairs)
    ensures forall g <- pairs, u <- g :: exists m :: m in members && !m.bot && m.username == u
  {
    var users := Roster(members);
    pairs := MakePairs(users, js, coins);
    forall g <- pairs, u <- g
      ensures exists m :: m in members && !m.bot && m.username == u
    {
      FlattenHas(pairs, g, u);
      assert u in multiset(Flatten(pairs));
      RosterMembers(members, u);
    }
  }

  /** The six badges, used in turn. */
  const Emojis: seq<string> := ["👥", "🤝", "💪", "✨", "🌟", "🚀"]

  const Header: string := "🎉 이번 주 페어가 정해졌어요!\n\n"
  const Footer: string := "\n💬 오늘까지 꾸문 제출하는 것 잊지마세요~!\n🔥 화이팅입니다!"

  /** The decimal digit for 0..9. */
  function Digit(d: nat): (c: char)
    requires d < 10
    ensures '0' <= c <= '9'
  {
    ('0' as int + d) as char
  }

  /** The value of a decimal digit character. */
  function DigitValue(c: char): (d: nat)
    requires '0' <= c <= '9'
    ensures d < 10 && Digit(d) == c
  {
    (c as int - '0' as int) as nat
  }

  /** How a template literal prints a natural number. */
  function Decimal(n: nat): (s: string)
    ensures |s| >= 1
    ensures forall k | 0 <= k < |s| :: '0' <= s[k] <= '9'
    ensures n > 0 ==> s[0] != '0'
    decreases n
  {
    if n < 10 then [Digit(n)] else Decimal(n / 10) + [Digit(n % 10)]
  }

  /** Reading a string of decimal digits back as a number. */
  function ParseDecimal(s: string): nat
    requires forall k | 0 <= k < |s| :: '0' <= s[k] <= '9'
  {
    if s == [] then 0 else ParseDecimal(s[..|s| - 1]) * 10 + DigitValue(s[|s| - 1])
  }

  /** Decimal loses nothing: the printed number reads back as itself. */
  lemma {:induction false} DecimalRoundTrip(n: nat)
    ensures ParseDecimal(Decimal(n)) == n
    decreases n
  {
    if n >= 10 {
      var q, d := n / 10, n % 10;
      DecimalRoundTrip(q);
      ParseSnoc(Decimal(q), Digit(d));
      assert Decimal(n) == Decimal(q) + [Digit(d)];
      assert DigitValue(Digit(d)) == d;
      assert n == q * 10 + d;
    }
  }

  /** Reading one more digit multiplies by ten and adds it. */
  lemma ParseSnoc(init: string, c: char)
    requires forall k | 0 <= k < |init| :: '0' <= init[k] <= '9'
    requires '0' <= c <= '9'
    ensures ParseDecimal(init + [c]) == ParseDecimal(init) * 10 + DigitValue(c)
  {
    assert (init + [c])[..|init|] == init;
  }

  /** Different numbers print differently, so no two groups share a label. */
  lemma DecimalInjective(m: nat, n: nat)
    requires Decimal(m) == Decimal(n)
    ensures m == n
  {
    DecimalRoundTrip(m);
    DecimalRoundTrip(n);
  }

  /** The number of characters in all the names of a group. */
  function Chars(g: Group): nat {
    if g == [] then 0 else |g[0]| + Chars(g[1..])
  }

  /** `group.join(", ")`: the names, in order, with one separator between neighbours. */
  function Join(g: Group, sep: string): (s: string)
    ensures g == [] ==> s == ""
    ensures g != [] ==> |s| == Chars(g) + (|g| - 1) * |sep|
    ensures g != [] ==> g[0] <= s
  {
    if g == [] then "" else if |g| == 1 then g[0] else g[0] + sep + Join(g[1..], sep)
  }

  /** Each further name follows one separator, after all the names before it. */
  lemma {:induction false} JoinSnoc(g: Group, x: Name, sep: string)
    requires g != []
    ensures Join(g + [x], sep) == Join(g, sep) + sep + x
    decreases |g|
  {
    if |g| == 1 {
      assert (g + [x])[1..] == [x];
    } else {
      assert (g + [x])[1..] == g[1..] + [x];
      JoinSnoc(g[1..], x, sep);
    }
  }

  /** The announcement line of the group at position `i`: its badge, its label i + 1, its size and its names. */
  function Line(i: nat, g: Group): (r: string)
    ensures |r| >= 1 && r[|r| - 1] == '\n'
  {
    Emojis[i % 6] + " **그룹 " + Decimal(i + 1) + "** (" + Decimal(|g|) + "명): " + Join(g, ", ") + "\n"
  }

  /** A line opens with the group's badge, its label i + 1 and its own size, before the names. */
  lemma LineHeading(i: nat, g: Group)
    ensures Emojis[i % 6] + " **그룹 " + Decimal(i + 1) + "** (" + Decimal(|g|) + "명): " <= Line(i, g)
  {
  }

  /** The lines of all groups, in emission order. */
  function Lines(pairs: seq<Group>): (r: string)
    ensures r == "" <==> pairs == []
    ensures pairs != [] ==> r[|r| - 1] == '\n'
  {
    if pairs == [] then "" else Lines(pairs[..|pairs| - 1]) + Line(|pairs| - 1, pairs[|pairs| - 1])
  }

  /**
   * The lines come in emission order: the lines of the first k groups are a
   * prefix of the whole, and the line of group k (labelled k + 1) follows it.
   */
  lemma {:induction false} LinesInOrder(pairs: seq<Group>, k: nat)
    requires k < |pairs|
    ensures Lines(pairs[..k]) + Line(k, pairs[k]) <= Lines(pairs)
    decreases |pairs|
  {
    if k < |pairs| - 1 {
      var init := pairs[..|pairs| - 1];
      assert init[..k] == pairs[..k] && init[k] == pairs[k];
      LinesInOrder(init, k);
    } else {
      assert pairs[..k] == pairs[..|pairs| - 1];
    }
  }

  /** Proof step for Announce: one more group appends its line to the message so far. */
  lemma LinesSnoc(pairs: seq<Group>, i: nat, header: string)
    requires i < |pairs|
    ensures header + Lines(pairs[..i + 1]) == header + Lines(pairs[..i]) + Line(i, pairs[i])
  {
    assert pairs[..i + 1][..i] == pairs[..i];
    var line := Line(i, pairs[i]);
    assert Lines(pairs[..i + 1]) == Lines(pairs[..i]) + line;
    Associative(header, Lines(pairs[..i]), line);
  }

  /** Appending is associative (spelled out for the message loop). */
  lemma Associative(a: string, b: string, c: string)
    ensures a + (b + c) == a + b + c
  {
  }

  /** The weekly announcement, built with `message +=` once per group. */
  method Announce(pairs: seq<Group>) returns (message: string)
    ensures message == Header + Lines(pairs) + Footer
  {
    message := Header;
    for i := 0 to |pairs|
      invariant message == Header + Lines(pairs[..i])
    {
      LinesSnoc(pairs, i, Header);
      message := message + Line(i, pairs[i]);
    }
    assert pairs[..|pairs|] == pairs;
    message := message + Footer;
  }
}
