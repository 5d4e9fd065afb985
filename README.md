# pair-bot: the weekly group partitioner, in Dafny

pair-bot is a Discord bot that splits a guild's human members into weekly
discussion groups of two or three people and announces them. This project
models its core, `makePairs`. It takes a copy of the roster and shuffles it
with Fisher–Yates. It then cuts the shuffled roster into consecutive groups,
sizing each cut by the number of members still left: one member, two or
three, four, five, or six and more split by parity. The model also covers the
bot's roster, which is the usernames of the fetched members that are not bots,
in fetch order. Last comes the weekly announcement, which labels the groups
1, 2, … with their sizes and cycles through six badges.

The random draws are inputs, so every property holds for every outcome:

- `js[i]` is the index drawn at shuffle step `i`. `Math.floor(Math.random() * (i + 1))` lies in `[0, i]`, and `DrawsInRange` requires that for every step. No draw is made at step 0, so the unused `js[0]` is fixed to 0.
- `coins[k]` is the outcome of `Math.random() < 0.5` while group `k` is cut. `true` picks 2 and `false` picks 3; a missing coin reads as `false`.

Files:

- `pairing.dfy`, module `Pairing`: the shuffle, the size rule (`Decide`), the grouping loop, and its reference function (`Split` / `Partition`).
- `bot.dfy`, module `PairBot`: the roster filter, the guild variant of `makePairs`, and the announcement.

`makePairs` appears twice, in `test-pairs.js:6-54` and `index.js:20-68`.
The two versions differ in where the roster comes from. The first copies its
argument (`test-pairs.js:7`). The second fetches the guild's members and drops
the bots (`index.js:21-22`). The shuffle and the grouping loop that follow
are the same (`test-pairs.js:9-53` and `index.js:24-67`). They are modelled
once, in `Pairing.MakePairs`. `PairBot.MakeGuildPairs` runs them on the
filtered roster.

What the proofs settle:

- The `pairs.length > 0` arm of the one-left branch (`test-pairs.js:22-24`),
  which merges a lone member into the previous group, can never run. The
  one-left test itself does run: a one-member roster takes its `else` arm
  (`test-pairs.js:25-28`) and becomes a group of one. Once a group exists,
  exactly one member is never left over: 4 leaves
  2, 5 leaves 2 or 3, an odd count of 7 or more leaves an even count of at
  least 4, and an even count of 6 or more leaves at least 3.
- Consequently no group of four can arise. A roster of two or more gives
  only groups of 2 or 3.
- The model keeps the branch in the loop exactly as written. `CutGroups`
  carries the loop invariant `Reaches(shuffled, [], coins, users, pairs)`, so
  every state of the loop is reachable from the start. `MergeNeverTaken` proves
  that no such state selects the merge. So the `pairs.length > 0` arm of the
  one-left branch (`test-pairs.js:22-24`, and its copy at `index.js:37-39`) is
  dead code.

## Model

| member | source | states |
|---|---|---|
| `Pairing.ShufflePermutes` | test-pairs.js:10-13 | The whole shuffle pass, with every draw in `[0, i]`, yields a permutation of the roster (same multiset of names). |
| `Pairing.ShuffleDownPermutes` | test-pairs.js:10-13 | The steps for indices `i` down to 1 preserve the multiset of names, by induction on `i`. |
| `Pairing.SwapPermutes` | test-pairs.js:12 | The destructuring swap exchanges the two elements and keeps the multiset of names. |
| `Pairing.Swap` | test-pairs.js:12 | The destructuring swap as a value: the body exchanges positions `i` and `j`. The contract states only that the length is kept; the exchange and the multiset are in `SwapPermutes`. |
| `Pairing.ShuffleDown` | test-pairs.js:10-13 | The shuffle steps for indices `i`, `i - 1`, …, 1, each swapping with its draw. The contract states that the length is kept; the permutation is in `ShuffleDownPermutes`. |
| `Pairing.Shuffle` | test-pairs.js:10-13 | The whole Fisher–Yates pass from the last index down to 1, doing nothing on an empty roster. The contract states that the length is kept; the permutation is in `ShufflePermutes`. |
| `Pairing.Coin` | test-pairs.js:38 | The 2-or-3 draw of loop iteration `k` (also test-pairs.js:48). It is the given outcome `coins[k]`, and a missing outcome reads as false, which is a cut of 3. |
| `Pairing.SwapInPlace` | test-pairs.js:12 | The in-place swap leaves the array equal to `Swap` of its old contents. |
| `Pairing.ShuffleInPlace` | test-pairs.js:10-13 | The descending loop over the array leaves it equal to `Shuffle` of its old contents, for the given draws. |
| `Pairing.Decide` | test-pairs.js:20-51 | The size rule. It stops exactly when none remain and merges exactly when one remains after a group exists. With two or more left it cuts 2 or 3 and never leaves exactly one. Four gives 2. An odd count of 7 or more gives 3. Six or more leaves at least 3. |
| `Pairing.Flatten` | test-pairs.js:16-53 | The concatenation of the groups has as many names as the group sizes add up to. |
| `Pairing.FlattenHas` | test-pairs.js:16-53 | A member of any emitted group appears in the concatenation of the groups. |
| `Pairing.Split` | test-pairs.js:17-52 | Running the loop from any state gives groups whose concatenation is the groups already emitted followed by the members still waiting. |
| `Pairing.Partition` | test-pairs.js:15-53 | The groups cut from a shuffled roster concatenate back to exactly that roster, in order, and their sizes add up to its length. |
| `Pairing.SplitKeepsSmallGroups` | test-pairs.js:29-51 | From any state with other than one member left, the loop adds only groups of 2 or 3. |
| `Pairing.PartitionShape` | test-pairs.js:17-31 | An empty roster gives no groups. One member gives a single group of one. Two or more give only groups of size 2 or 3. |
| `Pairing.PartitionOfFour` | test-pairs.js:32-35 | Four members always give two pairs, the first two and the last two, whatever the coins. |
| `Pairing.ReachesKeepsNoStraggler` | test-pairs.js:20-51 | The invariant "once a group exists, exactly one member is never left" holds in every state reachable from a state where it holds. |
| `Pairing.MergeNeverTaken` | test-pairs.js:22-24 | In no state that the loop reaches from the start does the rule take the `pairs.length > 0` arm of the one-left branch, which merges a lone member into the previous group. |
| `Pairing.CutGroups` | test-pairs.js:16-53 | The `while`/`splice` loop, including its merge branch, returns exactly `Partition` of the shuffled roster. Every loop state is reachable from the start (`Reaches`). |
| `Pairing.ReachesStep` | test-pairs.js:17-52 | One more cut of the size the rule chose extends a path of loop states, so the loop's states stay reachable from the start. |
| `Pairing.MakePairs` | test-pairs.js:6-54 | makePairs works on a fresh copy and cuts its shuffle. The groups hold a permutation of the roster, and their sizes add up to its length. Empty gives none, one member gives `[roster]`, two or more give only groups of 2 or 3, and four gives 2 + 2. |
| `PairBot.Roster` | index.js:22 | The roster of human members is never longer than the fetched member list. |
| `PairBot.RosterAppend` | index.js:22 | The filter keeps fetch order: the roster of a concatenation is the concatenation of the rosters. |
| `PairBot.RosterMembers` | index.js:22 | A name is on the roster if and only if some fetched member that is not a bot has that username. |
| `PairBot.RosterWithoutBots` | index.js:22 | With no bots the roster is every username, position by position. With only bots it is empty. |
| `PairBot.MakeGuildPairs` | index.js:20-68 | The guild variant returns exactly `Partition` of the shuffled human roster, so the size rule and the consecutive cuts carry over. It groups a permutation of the human roster, and the sizes add up to its length. Empty gives none and one member gives one group. Two or more give only groups of 2 or 3. Every grouped name is the username of some non-bot member. |
| `PairBot.Digit` | index.js:83 | The character printed for a digit 0..9 is one of '0'..'9'. |
| `PairBot.Decimal` | index.js:83 | A number prints as a nonempty string of decimal digits, with no leading zero unless it is 0. |
| `PairBot.DigitValue` | index.js:83 | Each digit character reads back to the digit value it was printed from. |
| `PairBot.DecimalRoundTrip` | index.js:83 | A printed group number or size reads back as the same number. |
| `PairBot.DecimalInjective` | index.js:81-85 | Different numbers print differently, so no two groups share a label. |
| `PairBot.Join` | index.js:83-85 | Joining an empty group gives the empty string. Otherwise the result's length is the names' total length plus one separator per gap, and it starts with the first name. The order of the later names is in `JoinSnoc`. |
| `PairBot.JoinSnoc` | index.js:83-85 | Joining one more name appends exactly one separator and that name to the join of the names before it. With `Join` this gives the names in order, separated. |
| `PairBot.Line` | index.js:82-85 | The template literal for group `i`: badge `i % 6`, label `i + 1`, the group's own size, then the joined names. The contract states that the line ends with a newline; the opening is in `LineHeading`. |
| `PairBot.LineHeading` | index.js:82-83 | A group's line starts with its badge `i % 6`, its label `i + 1` and its own size, before the names. |
| `PairBot.Lines` | index.js:81-86 | The lines of all groups, in emission order. They are empty exactly when there are no groups, and otherwise end with a newline. |
| `PairBot.LinesInOrder` | index.js:81-86 | The lines come in emission order. The lines of the first `k` groups, followed by the line of group `k` (badge `k % 6`, label `k + 1`, its own size), form a prefix of all the lines. |
| `PairBot.LinesSnoc` | index.js:81-86 | A proof step for `Announce`: appending the line of group `i` to the message built so far gives the message for the first `i + 1` groups. |
| `PairBot.Announce` | index.js:80-88 | The `forEach` loop with `message +=` yields the header, then one line per group in order, then the closing text. |

## Left out

- googleSheets.js is not part of this model. It wraps the Google Sheets API (`appendRow`, `getRows`), which is network I/O with credentials.
- Discord client setup, login and the `ready` handler (index.js:6-18, 94) are left out as external I/O. So are `guild.members.fetch` and `channels.fetch` (index.js:16, 21, 76-77). `MakeGuildPairs` takes the fetched members as a parameter.
- The weekly cron trigger and its time zone (index.js:73-92), and `channel.send` (index.js:89), are left out: a timer and external I/O.
- `Math.random` itself is replaced by the `js` and `coins` inputs. The model therefore says nothing about probability. It does not show that the shuffle is uniform or that five members split 2 + 3 about half the time.
- The simulation harness and console output of test-pairs.js (lines 56-105) only print, so they are left out.
- The Unicode text of the badges and of the fixed message parts is carried as it is. The model does not treat JavaScript strings as UTF-16 code units.
- The fine computation, comment de-duplication and week-start date arithmetic are not in the modelled files, so they are not part of this model. The same holds for the role-filtered strict-pairing variant.
- `Pairing.MakePairs` takes the roster as an immutable sequence. Its array copy is fresh, so the caller's roster cannot change. A caller-owned array that the call must leave untouched is not modelled.
