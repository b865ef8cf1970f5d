/**
 * GitFollow's tracker (lib/gitfollow/tracker.rb): change detection between
 * the latest stored snapshot and freshly fetched lists, the statistics and
 * mutual/non-follower views over the latest snapshot, and the text and
 * markdown reports.
 */
module Tracker {
  import opened Wrappers
  import opened Lists
  import opened Text
  import opened Storage

  /** What `detect_changes` returns. */
  datatype ChangeSet = ChangeSet(
    newFollowers: seq<Account>,
    unfollowed: seq<Account>,
    hasChanges: bool,
    previousCount: nat,
    currentCount: nat,
    netChange: int)

  /** What `check_changes` returns: the first-run notice or the change set. */
  datatype CheckResult = FirstRun(message: string) | Changed(changes: ChangeSet)

  const FirstRunMessage := "No previous data found. Initializing..."

  // ---------------------------------------------------------------------
  // Change detection (keyed by id)
  // ---------------------------------------------------------------------

  /** `accounts.map { |f| f['id'] }`. */
  function Ids(xs: seq<Account>): (r: seq<int>)
    ensures |r| == |xs|
    ensures forall i :: 0 <= i < |xs| ==> r[i] == xs[i].id
    decreases |xs|
  {
    if xs == [] then [] else [xs[0].id] + Ids(xs[1..])
  }

  /** True when some account of `ys` carries the id of `a`. */
  ghost predicate HasIdOf(ys: seq<Account>, a: Account) {
    exists b :: b in ys && b.id == a.id
  }

  lemma InIds(ys: seq<Account>, a: Account)
    ensures a.id in Ids(ys) <==> HasIdOf(ys, a)
  {
    var ids := Ids(ys);
    if a.id in ids {
      var i :| 0 <= i < |ids| && ids[i] == a.id;
      assert ys[i] in ys;
    }
    if HasIdOf(ys, a) {
      var b :| b in ys && b.id == a.id;
      var i :| 0 <= i < |ys| && ys[i] == b;
      assert ids[i] == a.id;
    }
  }

  /** The test of `ids_a - ids_b` on one id. */
  function IntNotAmong(ids: seq<int>): int -> bool {
    (i: int) => i !in ids
  }

  /** `ids_a - ids_b` (Ruby's `Array#-`): the ids of `a` absent from `b`, in order. */
  function Difference(a: seq<int>, b: seq<int>): (r: seq<int>)
    ensures |r| <= |a|
    ensures forall i :: i in r <==> i in a && i !in b
  {
    Filter(a, IntNotAmong(b))
  }

  /** The test `ids.include?(f['id'])`. */
  function IdAmong(ids: seq<int>): Account -> bool {
    (a: Account) => a.id in ids
  }

  function IdNotAmong(ids: seq<int>): Account -> bool {
    (a: Account) => a.id !in ids
  }

  /** Reference definition: the accounts of `xs`, in order, whose id no account
      of `ys` carries. */
  function AbsentFrom(xs: seq<Account>, ys: seq<Account>): (r: seq<Account>)
    ensures |r| <= |xs|
    ensures forall a :: a in r <==> a in xs && !HasIdOf(ys, a)
  {
    var r := Filter(xs, IdNotAmong(Ids(ys)));
    assert forall a :: a in r <==> a in xs && !HasIdOf(ys, a) by {
      forall a
        ensures a in r <==> a in xs && !HasIdOf(ys, a)
      {
        InIds(ys, a);
      }
    }
    r
  }

  /** The two-step computation of the source (difference of the id lists, then
      `select` by membership in that difference) is the one-step reference. */
  lemma SelectByDifference(xs: seq<Account>, ys: seq<Account>)
    ensures Filter(xs, IdAmong(Difference(Ids(xs), Ids(ys)))) == AbsentFrom(xs, ys)
  {
    var diff := Difference(Ids(xs), Ids(ys));
    forall a | a in xs
      ensures IdAmong(diff)(a) == IdNotAmong(Ids(ys))(a)
    {
      InIds(xs, a);
    }
    FilterCongruent(xs, IdAmong(diff), IdNotAmong(Ids(ys)));
  }

  /** Order is kept: the result for a concatenation is the concatenation of the
      results for each part. */
  lemma AbsentFromAppend(xs1: seq<Account>, xs2: seq<Account>, ys: seq<Account>)
    ensures AbsentFrom(xs1 + xs2, ys) == AbsentFrom(xs1, ys) + AbsentFrom(xs2, ys)
  {
    FilterAppend(xs1, xs2, IdNotAmong(Ids(ys)));
  }

  /** `detect_changes`: compare followers by id. `currentFollowing` is accepted
      and ignored, as in the source. */
  function DetectChanges(previous: Snapshot, currentFollowers: seq<Account>, currentFollowing: seq<Account>)
    : (c: ChangeSet)
    ensures c.newFollowers == AbsentFrom(currentFollowers, previous.followers)
    ensures c.unfollowed == AbsentFrom(previous.followers, currentFollowers)
    ensures c.hasChanges <==> c.newFollowers != [] || c.unfollowed != []
    ensures c.previousCount == |previous.followers| && c.currentCount == |currentFollowers|
    ensures c.netChange == |currentFollowers| - |previous.followers|
  {
    var previousFollowers := previous.followers;
    var previousIds := Ids(previousFollowers);
    var currentIds := Ids(currentFollowers);
    var newIds := Difference(currentIds, previousIds);
    var unfollowedIds := Difference(previousIds, currentIds);
    var newFollowers := Filter(currentFollowers, IdAmong(newIds));
    var unfollowed := Filter(previousFollowers, IdAmong(unfollowedIds));
    SelectByDifference(currentFollowers, previousFollowers);
    SelectByDifference(previousFollowers, currentFollowers);
    ChangeSet(
      newFollowers,
      unfollowed,
      newFollowers != [] || unfollowed != [],
      |previousFollowers|,
      |currentFollowers|,
      |currentFollowers| - |previousFollowers|)
  }

  /** No change is reported exactly when every current follower's id was among
      the previous ids and every previous follower's id is among the current ids. */
  lemma NoChangesIffSameIds(previous: Snapshot, current: seq<Account>, following: seq<Account>)
    ensures !DetectChanges(previous, current, following).hasChanges <==>
      (forall a :: a in current ==> HasIdOf(previous.followers, a)) &&
      (forall b :: b in previous.followers ==> HasIdOf(current, b))
  {
    var c := DetectChanges(previous, current, following);
    if c.newFollowers != [] {
      assert c.newFollowers[0] in c.newFollowers;
    }
    if c.unfollowed != [] {
      assert c.unfollowed[0] in c.unfollowed;
    }
  }

  /** Fetching the same followers again reports no change and a net change of 0. */
  lemma UnchangedFollowers(previous: Snapshot, following: seq<Account>)
    ensures var c := DetectChanges(previous, previous.followers, following);
      !c.hasChanges && c.newFollowers == [] && c.unfollowed == [] && c.netChange == 0
  {
    NoChangesIffSameIds(previous, previous.followers, following);
  }

  /** No two accounts of the list share an id. */
  predicate DistinctIds(xs: seq<Account>) {
    forall i, j :: 0 <= i < j < |xs| ==> xs[i].id != xs[j].id
  }

  /** The ids carried by the accounts of `xs`, as a set. */
  function IdSet(xs: seq<Account>): (r: set<int>)
    ensures forall i :: i in r <==> i in Ids(xs)
    decreases |xs|
  {
    if xs == [] then {} else {xs[0].id} + IdSet(xs[1..])
  }

  /** Splitting a list without repeated ids at its head splits its id set. */
  lemma IdSetCons(xs: seq<Account>)
    requires xs != [] && DistinctIds(xs)
    ensures DistinctIds(xs[1..])
    ensures IdSet(xs) == {xs[0].id} + IdSet(xs[1..])
    ensures xs[0].id !in IdSet(xs[1..])
  {
    var rest := xs[1..];
    forall k | 0 <= k < |rest|
      ensures Ids(rest)[k] != xs[0].id
    {
      assert rest[k] == xs[k + 1];
    }
  }

  /** Adding a fresh id to a set adds one shared id exactly when `s` holds it. */
  lemma SharedWithInsert(x: int, r: set<int>, s: set<int>)
    requires x !in r
    ensures |({x} + r) * s| == (if x in s then 1 else 0) + |r * s|
  {
    if x in s {
      assert ({x} + r) * s == {x} + r * s;
    } else {
      assert ({x} + r) * s == r * s;
    }
  }

  /** The ids a list without repeats shares with `s`: the head's id, when in
      `s`, and those the rest shares. */
  lemma SharedIdsCons(xs: seq<Account>, s: set<int>)
    requires xs != [] && DistinctIds(xs)
    ensures |IdSet(xs) * s| == (if xs[0].id in s then 1 else 0) + |IdSet(xs[1..]) * s|
  {
    IdSetCons(xs);
    SharedWithInsert(xs[0].id, IdSet(xs[1..]), s);
  }

  /** On a list without repeated ids, the accounts whose id lies in `s` are as
      many as the ids the list and `s` share. */
  lemma {:induction false} CountIdsIn(xs: seq<Account>, s: set<int>)
    requires DistinctIds(xs)
    ensures |Filter(xs, IdInSet(s))| == |IdSet(xs) * s|
    decreases |xs|
  {
    if xs == [] {
      assert IdSet(xs) == {};
    } else {
      IdSetCons(xs);
      CountIdsIn(xs[1..], s);
      SharedIdsCons(xs, s);
    }
  }

  function IdInSet(s: set<int>): Account -> bool {
    (a: Account) => a.id in s
  }

  function IdNotInSet(s: set<int>): Account -> bool {
    (a: Account) => a.id !in s
  }

  lemma AbsentFromBySet(xs: seq<Account>, ys: seq<Account>)
    ensures AbsentFrom(xs, ys) == Filter(xs, IdNotInSet(IdSet(ys)))
  {
    forall a | a in xs
      ensures IdNotAmong(Ids(ys))(a) == IdNotInSet(IdSet(ys))(a)
    {
      InIds(ys, a);
    }
    FilterCongruent(xs, IdNotAmong(Ids(ys)), IdNotInSet(IdSet(ys)));
  }

  /** When neither list repeats an id, the raw-count net change equals the
      number of new followers minus the number of unfollows. */
  lemma NetChangeWithDistinctIds(previous: Snapshot, current: seq<Account>, following: seq<Account>)
    requires DistinctIds(previous.followers) && DistinctIds(current)
    ensures var c := DetectChanges(previous, current, following);
      c.netChange == |c.newFollowers| - |c.unfollowed|
  {
    var p, q := previous.followers, current;
    AbsentFromBySet(q, p);
    AbsentFromBySet(p, q);
    FilterPartition(q, IdInSet(IdSet(p)), IdNotInSet(IdSet(p)));
    FilterPartition(p, IdInSet(IdSet(q)), IdNotInSet(IdSet(q)));
    CountIdsIn(q, IdSet(p));
    CountIdsIn(p, IdSet(q));
    assert IdSet(q) * IdSet(p) == IdSet(p) * IdSet(q);
  }

  /** With a repeated id the two quantities differ: two previous entries for
      one account against a single current one give no new follower and no
      unfollow, yet a net change of -1. */
  lemma NetChangeWithRepeatedId(a: Account, following: seq<Account>)
    ensures var previous := NewSnapshot("u", "t", [a, a], following);
      var c := DetectChanges(previous, [a], following);
      c.newFollowers == [] && c.unfollowed == [] && !c.hasChanges && c.netChange == -1
  {
    var previous := NewSnapshot("u", "t", [a, a], following);
    NoChangesIffSameIds(previous, [a], following);
  }

  /** One account is reported exactly when its id is absent from `ys`. */
  lemma AbsentFromSingle(a: Account, ys: seq<Account>)
    ensures AbsentFrom([a], ys) == if a.id in Ids(ys) then [] else [a]
  {
    FilterSingle(a, IdNotAmong(Ids(ys)));
  }

  /** Two previous followers A, B against current B, C: C is new, A left, and
      the net change is 0. */
  lemma DetectSwapExample(a: Account, b: Account, c: Account, following: seq<Account>)
    requires a.id != b.id && b.id != c.id && a.id != c.id
    ensures var previous := NewSnapshot("alice", "t", [a, b], following);
      var changes := DetectChanges(previous, [b, c], following);
      changes.newFollowers == [c] && changes.unfollowed == [a] && changes.hasChanges && changes.netChange == 0
  {
    var before, after := [a, b], [b, c];
    assert AbsentFrom(after, before) == [c] by {
      assert Ids(before) == [a.id, b.id];
      assert after == [b] + [c];
      AbsentFromAppend([b], [c], before);
      AbsentFromSingle(b, before);
      AbsentFromSingle(c, before);
    }
    assert AbsentFrom(before, after) == [a] by {
      assert Ids(after) == [b.id, c.id];
      assert before == [a] + [b];
      AbsentFromAppend([a], [b], after);
      AbsentFromSingle(a, after);
      AbsentFromSingle(b, after);
    }
  }

  /** A follower with a new id joins user1 and user2: one new follower, net +1. */
  lemma DetectsNewFollowerExample(following: seq<Account>)
    ensures var user1, user2, newuser := Account("user1", 1), Account("user2", 2), Account("newuser", 999);
      var previous := NewSnapshot("testuser", "t", [user1, user2], following);
      var c := DetectChanges(previous, [user1, user2, newuser], following);
      c.hasChanges && c.newFollowers == [newuser] && c.unfollowed == [] && c.netChange == 1
  {
    var user1, user2, newuser := Account("user1", 1), Account("user2", 2), Account("newuser", 999);
    var before, after := [user1, user2], [user1, user2, newuser];
    assert AbsentFrom(after, before) == [newuser] by {
      assert Ids(before) == [1, 2];
      assert after == before + [newuser];
      assert before == [user1] + [user2];
      AbsentFromAppend(before, [newuser], before);
      AbsentFromAppend([user1], [user2], before);
      AbsentFromSingle(user1, before);
      AbsentFromSingle(user2, before);
      AbsentFromSingle(newuser, before);
    }
    assert AbsentFrom(before, after) == [] by {
      assert Ids(after) == [1, 2, 999];
      assert before == [user1] + [user2];
      AbsentFromAppend([user1], [user2], after);
      AbsentFromSingle(user1, after);
      AbsentFromSingle(user2, after);
    }
  }

  // ---------------------------------------------------------------------
  // Statistics and the mutual / non-follower views (keyed by login)
  // ---------------------------------------------------------------------

  datatype Statistics = Statistics(
    followersCount: nat,
    followingCount: nat,
    mutualCount: nat,
    ratio: real,
    totalNewFollowers: nat,
    totalUnfollows: nat,
    lastUpdated: string)

  /** `calculate_ratio` without the rounding to two places: 0.0 when nobody is
      followed, otherwise the exact quotient. */
  function Ratio(followers: nat, following: nat): (r: real)
    ensures following == 0 ==> r == 0.0
    ensures following > 0 ==> r * following as real == followers as real
  {
    if following == 0 then 0.0 else followers as real / following as real
  }

  /** The test `e['event_type'] == t`. */
  function HasEventType(t: string): HistoryEntry -> bool {
    (e: HistoryEntry) => e.eventType == t
  }

  function LacksEventType(t: string): HistoryEntry -> bool {
    (e: HistoryEntry) => e.eventType != t
  }

  function LoginNotAmong(logins: seq<string>): Account -> bool {
    (a: Account) => a.login !in logins
  }

  /** `non_followers` on one snapshot: the followed accounts whose login no
      follower carries, in following order. */
  function NotFollowingBack(followers: seq<Account>, following: seq<Account>): (r: seq<Account>)
    ensures forall a :: a in r <==> a in following && !FollowsBack(followers, a)
  {
    var r := Filter(following, LoginNotAmong(Logins(followers)));
    assert forall a :: a in r <==> a in following && !FollowsBack(followers, a) by {
      forall a
        ensures a in r <==> a in following && !FollowsBack(followers, a)
      {
        LoginAmongFollowers(followers, a);
      }
    }
    r
  }

  /** `select` keeps following order: the mutual followers of a concatenated
      following list are those of each part, in turn. */
  lemma MutualAppend(followers: seq<Account>, following1: seq<Account>, following2: seq<Account>)
    ensures Mutual(followers, following1 + following2)
         == Mutual(followers, following1) + Mutual(followers, following2)
  {
    FilterAppend(following1, following2, LoginAmong(Logins(followers)));
  }

  /** `reject` keeps following order in the same way. */
  lemma NotFollowingBackAppend(followers: seq<Account>, following1: seq<Account>, following2: seq<Account>)
    ensures NotFollowingBack(followers, following1 + following2)
         == NotFollowingBack(followers, following1) + NotFollowingBack(followers, following2)
  {
    FilterAppend(following1, following2, LoginNotAmong(Logins(followers)));
  }

  /** Mutual followers and non-followers split the following list: each
      followed account lands in exactly one of them, as often as it is listed. */
  lemma MutualPartition(followers: seq<Account>, following: seq<Account>)
    ensures multiset(Mutual(followers, following)) + multiset(NotFollowingBack(followers, following))
      == multiset(following)
    ensures |Mutual(followers, following)| + |NotFollowingBack(followers, following)| == |following|
  {
    var logins := Logins(followers);
    FilterPartition(following, LoginAmong(logins), LoginNotAmong(logins));
  }

  /** The statistics of one snapshot and a history. */
  function ComputeStatistics(latest: Snapshot, history: seq<HistoryEntry>): (s: Statistics)
    ensures s.mutualCount + |NotFollowingBack(latest.followers, latest.following)| == s.followingCount
    ensures s.followingCount == 0 ==> s.ratio == 0.0
    ensures s.totalNewFollowers + s.totalUnfollows <= |history|
  {
    var followers := latest.followers;
    var following := latest.following;
    MutualPartition(followers, following);
    FilterPartition(history, HasEventType("new_follower"), LacksEventType("new_follower"));
    UnfollowsAmongOtherEvents(history);
    Statistics(
      |followers|,
      |following|,
      |Mutual(followers, following)|,
      Ratio(|followers|, |following|),
      Count(history, HasEventType("new_follower")),
      Count(history, HasEventType("unfollowed")),
      latest.timestamp)
  }

  /** Unfollow events are among the entries that are not new-follower events. */
  lemma {:induction false} UnfollowsAmongOtherEvents(h: seq<HistoryEntry>)
    ensures Count(h, HasEventType("unfollowed")) <= Count(h, LacksEventType("new_follower"))
    decreases |h|
  {
    if h != [] {
      UnfollowsAmongOtherEvents(h[1..]);
    }
  }

  /** A snapshot written by the store carries the same counts the statistics
      recompute from its lists. */
  lemma StatisticsMatchFrozenStats(latest: Snapshot, history: seq<HistoryEntry>)
    requires latest.stats == StatsOf(latest.followers, latest.following)
    ensures var s := ComputeStatistics(latest, history);
      s.followersCount == latest.stats.followersCount &&
      s.followingCount == latest.stats.followingCount &&
      s.mutualCount == latest.stats.mutualCount
  {
  }

  /** One account in both lists is the only mutual follower; the followed
      account that does not follow back is the only non-follower. */
  lemma MutualExample()
    ensures var user1, user2, user3, mutual := Account("user1", 1), Account("user2", 2), Account("user3", 3), Account("mutual", 100);
      Mutual([user1, user2, mutual], [user3, mutual]) == [mutual] &&
      NotFollowingBack([user1, user2, mutual], [user3, mutual]) == [user3]
  {
    var user1, user2, user3, mutual := Account("user1", 1), Account("user2", 2), Account("user3", 3), Account("mutual", 100);
    var followers := [user1, user2, mutual];
    var logins := Logins(followers);
    assert logins == ["user1", "user2", "mutual"];
    assert "user3" !in logins && "mutual" in logins;
    assert [user3, mutual] == [user3] + [mutual];
    assert Mutual(followers, [user3, mutual]) == [mutual] by {
      MutualAppend(followers, [user3], [mutual]);
      FilterSingle(user3, LoginAmong(logins));
      FilterSingle(mutual, LoginAmong(logins));
    }
    assert NotFollowingBack(followers, [user3, mutual]) == [user3] by {
      NotFollowingBackAppend(followers, [user3], [mutual]);
      FilterSingle(user3, LoginNotAmong(logins));
      FilterSingle(mutual, LoginNotAmong(logins));
    }
  }

  // ---------------------------------------------------------------------
  // History written by one check
  // ---------------------------------------------------------------------

  /** One history entry of the given kind per account, in order. */
  function EventsFor(username: string, kind: EventKind, accounts: seq<Account>, now: string): (r: seq<HistoryEntry>)
    ensures |r| == |accounts|
    ensures forall i :: 0 <= i < |r| ==>
      r[i] == HistoryEntry(username, EventName(kind), accounts[i], now)
  {
    seq(|accounts|, i requires 0 <= i < |accounts| => HistoryEntry(username, EventName(kind), accounts[i], now))
  }

  /** `save_history_entries`: the new followers first, then the unfollowed. */
  function CheckEvents(username: string, c: ChangeSet, now: string): seq<HistoryEntry> {
    EventsFor(username, NewFollower, c.newFollowers, now) + EventsFor(username, Unfollowed, c.unfollowed, now)
  }

  /** The events of one check: one "new_follower" entry per new follower in
      order, then one "unfollowed" entry per unfollowed account in order. */
  lemma CheckEventsOrder(username: string, c: ChangeSet, now: string)
    ensures var r := CheckEvents(username, c, now);
      && |r| == |c.newFollowers| + |c.unfollowed|
      && (forall i :: 0 <= i < |c.newFollowers| ==>
            r[i] == HistoryEntry(username, "new_follower", c.newFollowers[i], now))
      && (forall j :: 0 <= j < |c.unfollowed| ==>
            r[|c.newFollowers| + j] == HistoryEntry(username, "unfollowed", c.unfollowed[j], now))
  {
    var ns := EventsFor(username, NewFollower, c.newFollowers, now);
    var us := EventsFor(username, Unfollowed, c.unfollowed, now);
    SpliceIndex([], ns, us);
    SpliceIndex(ns, us, []);
    assert CheckEvents(username, c, now) == [] + ns + us == ns + us + [];
  }

  /** After a check, the history holds exactly one more new-follower event per
      new follower and one more unfollow event per unfollowed account. */
  lemma HistoryCountsAfterCheck(history: seq<HistoryEntry>, username: string, c: ChangeSet, now: string)
    ensures var h := history + CheckEvents(username, c, now);
      Count(h, HasEventType("new_follower")) == Count(history, HasEventType("new_follower")) + |c.newFollowers| &&
      Count(h, HasEventType("unfollowed")) == Count(history, HasEventType("unfollowed")) + |c.unfollowed|
  {
    var ns := EventsFor(username, NewFollower, c.newFollowers, now);
    var us := EventsFor(username, Unfollowed, c.unfollowed, now);
    assert history + CheckEvents(username, c, now) == (history + ns) + us;
    EventsCounted(username, NewFollower, c.newFollowers, now, "new_follower");
    EventsCounted(username, Unfollowed, c.unfollowed, now, "new_follower");
    EventsCounted(username, NewFollower, c.newFollowers, now, "unfollowed");
    EventsCounted(username, Unfollowed, c.unfollowed, now, "unfollowed");
    CountAppend(history + ns, us, HasEventType("new_follower"));
    CountAppend(history, ns, HasEventType("new_follower"));
    CountAppend(history + ns, us, HasEventType("unfollowed"));
    CountAppend(history, ns, HasEventType("unfollowed"));
  }

  /** The events of one kind are all counted under their own type and none
      under another. */
  lemma EventsCounted(username: string, kind: EventKind, accounts: seq<Account>, now: string, t: string)
    ensures Count(EventsFor(username, kind, accounts, now), HasEventType(t)) == if t == EventName(kind) then |accounts| else 0
  {
    var es := EventsFor(username, kind, accounts, now);
    if t == EventName(kind) {
      CountAll(es, HasEventType(t));
    } else {
      CountNone(es, HasEventType(t));
    }
  }

  lemma EventsForPrefix(username: string, kind: EventKind, accounts: seq<Account>, now: string, i: nat)
    requires i < |accounts|
    ensures EventsFor(username, kind, accounts[..i + 1], now)
      == EventsFor(username, kind, accounts[..i], now) + [HistoryEntry(username, EventName(kind), accounts[i], now)]
  {
  }

  // ---------------------------------------------------------------------
  // Reports
  // ---------------------------------------------------------------------

  datatype ReportFormat = TextFormat | MarkdownFormat

  /** The closed set of report formats (`:text`, `:markdown`). */
  function ParseReportFormat(name: string): (r: Option<ReportFormat>)
    ensures r == Some(TextFormat) <==> name == "text"
    ensures r == Some(MarkdownFormat) <==> name == "markdown"
    ensures r.None? <==> name != "text" && name != "markdown"
  {
    if name == "text" then Some(TextFormat)
    else if name == "markdown" then Some(MarkdownFormat)
    else None
  }

  /** The conversions the source delegates to Ruby's Time and Float:
      '%Y-%m-%d %H:%M:%S UTC', '%Y-%m-%d %H:%M', and `Float#to_s`. */
  datatype Render = Render(longTime: string -> string, shortTime: string -> string, ratio: real -> string)

  const NoDataMessage := "No data available. Run `gitfollow check` first."

  /** The line for one history entry; any event type other than
      "new_follower" is shown as an unfollow. */
  function ActivityRow(format: ReportFormat, e: HistoryEntry, render: Render): string {
    var timestamp := render.shortTime(e.timestamp);
    var user := "@" + e.user.login;
    match format
    case TextFormat =>
      var event := if e.eventType == "new_follower" then "✅ NEW" else "❌ UNFOLLOW";
      "  [" + timestamp + "] " + event + " " + user
    case MarkdownFormat =>
      var event := if e.eventType == "new_follower" then "✅ New Follower" else "❌ Unfollowed";
      "| " + timestamp + " | " + event + " | " + user + " |"
  }

  /** Every row ends by naming the account of its entry. */
  lemma ActivityRowNamesUser(format: ReportFormat, e: HistoryEntry, render: Render)
    ensures var r, suffix := ActivityRow(format, e, render),
                             "@" + e.user.login + (if format == MarkdownFormat then " |" else "");
      |suffix| <= |r| && r[|r| - |suffix|..] == suffix
  {
  }

  /** A "new_follower" entry and an "unfollowed" entry show different rows, and
      every other event type shows exactly as an unfollow. */
  lemma ActivityRowShowsEvent(format: ReportFormat, e: HistoryEntry, render: Render)
    ensures ActivityRow(format, e.(eventType := "new_follower"), render)
         != ActivityRow(format, e.(eventType := "unfollowed"), render)
    ensures e.eventType != "new_follower" ==>
      ActivityRow(format, e, render) == ActivityRow(format, e.(eventType := "unfollowed"), render)
  {
    var added, gone := ActivityRow(format, e.(eventType := "new_follower"), render),
                       ActivityRow(format, e.(eventType := "unfollowed"), render);
    assert |added| != |gone|;
  }

  /** `history.reverse.each`: one row per entry, newest first. */
  function ActivityRows(format: ReportFormat, history: seq<HistoryEntry>, render: Render): seq<string>
    decreases |history|
  {
    if history == [] then []
    else ActivityRows(format, history[1..], render) + [ActivityRow(format, history[0], render)]
  }

  /** Row `k` shows the entry `k` places from the newest. */
  lemma {:induction false} ActivityRowsNewestFirst(format: ReportFormat, history: seq<HistoryEntry>, render: Render)
    ensures |ActivityRows(format, history, render)| == |history|
    ensures forall k :: 0 <= k < |history| ==>
      ActivityRows(format, history, render)[k] == ActivityRow(format, history[|history| - 1 - k], render)
    decreases |history|
  {
    if history != [] {
      ActivityRowsNewestFirst(format, history[1..], render);
    }
  }

  function TextHeader(username: string, stats: Statistics, render: Render): seq<string> {
    [ "GitFollow Report for @" + username,
      Repeat('=', 50),
      "",
      "Last Updated: " + render.longTime(stats.lastUpdated),
      "",
      "Statistics:",
      "  Followers:         " + NatToString(stats.followersCount),
      "  Following:         " + NatToString(stats.followingCount),
      "  Mutual:            " + NatToString(stats.mutualCount),
      "  Ratio:             " + render.ratio(stats.ratio),
      "  Total New:         " + NatToString(stats.totalNewFollowers),
      "  Total Unfollows:   " + NatToString(stats.totalUnfollows),
      "",
      "Recent Activity:",
      Repeat('-', 50) ]
  }

  /** `generate_text_report`, line by line. */
  function TextReportLines(username: string, stats: Statistics, history: seq<HistoryEntry>, render: Render)
    : seq<string>
  {
    TextHeader(username, stats, render)
    + (if history == [] then ["  No recent activity"] else ActivityRows(TextFormat, history, render))
  }

  function MarkdownHeader(username: string, stats: Statistics, render: Render): seq<string> {
    [ "# GitFollow Report for @" + username,
      "",
      "**Last Updated:** " + render.longTime(stats.lastUpdated),
      "",
      "## Statistics",
      "",
      "- **Followers:** " + NatToString(stats.followersCount),
      "- **Following:** " + NatToString(stats.followingCount),
      "- **Mutual:** " + NatToString(stats.mutualCount),
      "- **Ratio:** " + render.ratio(stats.ratio),
      "- **Total New Followers:** " + NatToString(stats.totalNewFollowers),
      "- **Total Unfollows:** " + NatToString(stats.totalUnfollows),
      "",
      "## Recent Activity",
      "" ]
  }

  const MarkdownTableHead: seq<string> := ["| Timestamp | Event | User |", "|-----------|-------|------|"]

  const MarkdownFooter: seq<string> :=
    ["", "---", "_Generated with [GitFollow](https://github.com/bulletdev/gitfollow)_"]

  /** `generate_markdown_report`, line by line. */
  function MarkdownReportLines(username: string, stats: Statistics, history: seq<HistoryEntry>, render: Render)
    : seq<string>
  {
    MarkdownHeader(username, stats, render)
    + (if history == [] then ["_No recent activity_"]
       else MarkdownTableHead + ActivityRows(MarkdownFormat, history, render))
    + MarkdownFooter
  }

  /** The report's activity section, rows appended newest first as the
      source's loop does. */
  method AppendActivityRows(lines: seq<string>, format: ReportFormat, history: seq<HistoryEntry>, render: Render)
    returns (out: seq<string>)
    ensures out == lines + ActivityRows(format, history, render)
    ensures |out| == |lines| + |history|
    ensures forall k :: |lines| <= k < |out| ==>
      out[k] == ActivityRow(format, history[|lines| + |history| - 1 - k], render)
  {
    out := lines;
    var n := |history|;
    var k := 0;
    while k < n
      invariant 0 <= k <= n
      invariant out == lines + ActivityRows(format, history[n - k..], render)
    {
      var rest := history[n - k - 1..];
      assert rest[1..] == history[n - k..];
      assert rest[0] == history[n - 1 - k];
      out := out + [ActivityRow(format, history[n - 1 - k], render)];
      k := k + 1;
    }
    assert history[n - k..] == history;
    ActivityRowsNewestFirst(format, history, render);
  }

  /** Lines appended one group after another are the groups concatenated. */
  lemma Regroup<T>(a: seq<T>, b: seq<T>, c: seq<T>, d: seq<T>)
    ensures (a + b + c) + d == a + (b + c) + d
  {
  }

  method BuildTextReport(username: string, stats: Statistics, history: seq<HistoryEntry>, render: Render)
    returns (report: string)
    ensures report == Join(TextReportLines(username, stats, history, render), "\n")
  {
    var lines := TextHeader(username, stats, render);
    if history == [] {
      lines := lines + ["  No recent activity"];
    } else {
      lines := AppendActivityRows(lines, TextFormat, history, render);
    }
    report := Join(lines, "\n");
  }

  method BuildMarkdownReport(username: string, stats: Statistics, history: seq<HistoryEntry>, render: Render)
    returns (report: string)
    ensures report == Join(MarkdownReportLines(username, stats, history, render), "\n")
  {
    var header := MarkdownHeader(username, stats, render);
    var lines := header;
    if history == [] {
      lines := lines + ["_No recent activity_"];
    } else {
      lines := AppendActivityRows(lines + MarkdownTableHead, MarkdownFormat, history, render);
      Regroup(header, MarkdownTableHead, ActivityRows(MarkdownFormat, history, render), MarkdownFooter);
    }
    lines := lines + MarkdownFooter;
    report := Join(lines, "\n");
  }

  // ---------------------------------------------------------------------
  // The tracker object
  // ---------------------------------------------------------------------

  class Tracker {
    const username: string
    const store: Store

    constructor(username: string, store: Store)
      ensures this.username == username && this.store == store
    {
      this.username := username;
      this.store := store;
    }

    /** `statistics`: nil without a snapshot; otherwise computed from the latest
        snapshot and the whole history. */
    function Statistics(): (r: Option<Statistics>)
      reads store
      ensures r.None? <==> !store.DataExists(username)
      ensures r.Some? ==>
        var latest := store.LatestSnapshot(username).value;
        var history := store.GetHistory(username, None);
        && r.value.followersCount == |latest.followers|
        && r.value.followingCount == |latest.following|
        && r.value.mutualCount == |Mutual(latest.followers, latest.following)|
        && r.value.ratio == Ratio(|latest.followers|, |latest.following|)
        && r.value.totalNewFollowers == Count(history, HasEventType("new_follower"))
        && r.value.totalUnfollows == Count(history, HasEventType("unfollowed"))
        && r.value.lastUpdated == latest.timestamp
      ensures r.Some? && store.Consistent() ==>
        var frozen := store.LatestSnapshot(username).value.stats;
        && r.value.followersCount == frozen.followersCount
        && r.value.followingCount == frozen.followingCount
        && r.value.mutualCount == frozen.mutualCount
    {
      match store.LatestSnapshot(username)
      case None => None
      case Some(latest) =>
        var history := store.GetHistory(username, None);
        var s := ComputeStatistics(latest, history);
        assert store.Consistent() ==>
          && s.followersCount == latest.stats.followersCount
          && s.followingCount == latest.stats.followingCount
          && s.mutualCount == latest.stats.mutualCount
        by {
          if store.Consistent() {
            assert latest in store.snapshots[username];
            StatisticsMatchFrozenStats(latest, history);
          }
        }
        Some(s)
    }

    function MutualFollowers(): (r: seq<Account>)
      reads store
      ensures !store.DataExists(username) ==> r == []
      ensures store.DataExists(username) ==>
        var latest := store.LatestSnapshot(username).value;
        forall a :: a in r <==> a in latest.following && FollowsBack(latest.followers, a)
    {
      match store.LatestSnapshot(username)
      case None => []
      case Some(latest) => Mutual(latest.followers, latest.following)
    }

    function NonFollowers(): (r: seq<Account>)
      reads store
      ensures !store.DataExists(username) ==> r == []
      ensures store.DataExists(username) ==>
        var latest := store.LatestSnapshot(username).value;
        forall a :: a in r <==> a in latest.following && !FollowsBack(latest.followers, a)
      ensures store.DataExists(username) ==>
        multiset(MutualFollowers()) + multiset(r) == multiset(store.LatestSnapshot(username).value.following)
    {
      match store.LatestSnapshot(username)
      case None => []
      case Some(latest) =>
        MutualPartition(latest.followers, latest.following);
        NotFollowingBack(latest.followers, latest.following)
    }

    method InitialSetup(followers: seq<Account>, following: seq<Account>, now: string) returns (s: Snapshot)
      modifies store
      ensures s == NewSnapshot(username, now, followers, following)
      ensures store.snapshots == Appended(old(store.snapshots), username, [s])
      ensures store.history == old(store.history)
    {
      s := store.SaveSnapshot(username, followers, following, now);
    }

    method SaveHistoryEntries(c: ChangeSet, now: string)
      modifies store
      ensures store.history == Appended(old(store.history), username, CheckEvents(username, c, now))
      ensures store.snapshots == old(store.snapshots)
    {
      var i := 0;
      while i < |c.newFollowers|
        invariant 0 <= i <= |c.newFollowers|
        invariant store.history ==
          Appended(old(store.history), username, EventsFor(username, NewFollower, c.newFollowers[..i], now))
        invariant store.snapshots == old(store.snapshots)
      {
        var e := store.SaveHistoryEntry(username, NewFollower, c.newFollowers[i], now);
        EventsForPrefix(username, NewFollower, c.newFollowers, now, i);
        AppendedTwice(old(store.history), username, EventsFor(username, NewFollower, c.newFollowers[..i], now), [e]);
        i := i + 1;
      }
      assert c.newFollowers[..i] == c.newFollowers;
      ghost var added := EventsFor(username, NewFollower, c.newFollowers, now);
      assert added + EventsFor(username, Unfollowed, c.unfollowed[..0], now) == added;
      var j := 0;
      while j < |c.unfollowed|
        invariant 0 <= j <= |c.unfollowed|
        invariant store.history ==
          Appended(old(store.history), username, added + EventsFor(username, Unfollowed, c.unfollowed[..j], now))
        invariant store.snapshots == old(store.snapshots)
      {
        var e := store.SaveHistoryEntry(username, Unfollowed, c.unfollowed[j], now);
        EventsForPrefix(username, Unfollowed, c.unfollowed, now, j);
        AppendedTwice(old(store.history), username, added + EventsFor(username, Unfollowed, c.unfollowed[..j], now), [e]);
        assert added + EventsFor(username, Unfollowed, c.unfollowed[..j], now) + [e]
          == added + EventsFor(username, Unfollowed, c.unfollowed[..j + 1], now);
        j := j + 1;
      }
      assert c.unfollowed[..j] == c.unfollowed;
    }

    /** `check_changes`: with no previous snapshot nothing is written; otherwise
        one snapshot is appended (even when nothing changed) and then one history
        entry per new follower and per unfollowed account. */
    method CheckChanges(currentFollowers: seq<Account>, currentFollowing: seq<Account>, now: string)
      returns (r: CheckResult)
      modifies store
      ensures old(store.LatestSnapshot(username)).None? ==>
        r == FirstRun(FirstRunMessage) &&
        store.snapshots == old(store.snapshots) && store.history == old(store.history)
      ensures old(store.LatestSnapshot(username)).Some? ==>
        var c := DetectChanges(old(store.LatestSnapshot(username)).value, currentFollowers, currentFollowing);
        && r == Changed(c)
        && store.snapshots ==
             Appended(old(store.snapshots), username, [NewSnapshot(username, now, currentFollowers, currentFollowing)])
        && store.history == Appended(old(store.history), username, CheckEvents(username, c, now))
      ensures old(store.LatestSnapshot(username)).Some? ==>
        && store.LatestSnapshot(username) == Some(NewSnapshot(username, now, currentFollowers, currentFollowing))
        && store.GetHistory(username, None)
             == old(store.GetHistory(username, None)) + CheckEvents(username, r.changes, now)
    {
      var previous := store.LatestSnapshot(username);
      if previous.None? {
        return FirstRun(FirstRunMessage);
      }
      var changes := DetectChanges(previous.value, currentFollowers, currentFollowing);
      var saved := store.SaveSnapshot(username, currentFollowers, currentFollowing, now);
      SaveHistoryEntries(changes, now);
      r := Changed(changes);
    }

    /** `generate_report`: "no data" comes first; then only "text" and
        "markdown" are accepted; the last 20 history entries are shown. */
    method GenerateReport(format: string, render: Render) returns (r: Result<string, string>)
      ensures Statistics().None? ==> r == Ok(NoDataMessage)
      ensures Statistics().Some? && ParseReportFormat(format).None? ==> r == Err("Unsupported format: " + format)
      ensures Statistics().Some? && format == "text" ==>
        r == Ok(Join(TextReportLines(username, Statistics().value, store.GetHistory(username, Some(20)), render), "\n"))
      ensures Statistics().Some? && format == "markdown" ==>
        r == Ok(Join(MarkdownReportLines(username, Statistics().value, store.GetHistory(username, Some(20)), render), "\n"))
    {
      var stats := Statistics();
      if stats.None? {
        return Ok(NoDataMessage);
      }
      var history := store.GetHistory(username, Some(20));
      match ParseReportFormat(format)
      case Some(MarkdownFormat) =>
        var report := BuildMarkdownReport(username, stats.value, history, render);
        r := Ok(report);
      case Some(TextFormat) =>
        var report := BuildTextReport(username, stats.value, history, render);
        r := Ok(report);
      case None =>
        r := Err("Unsupported format: " + format);
    }
  }
}
