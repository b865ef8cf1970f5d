/**
 * GitFollow's per-username store: snapshots of the follower and following
 * lists, and a history of follow/unfollow events, each kept as a map from
 * username to an append-only sequence (the two JSON files of
 * lib/gitfollow/storage.rb).
 */
module Storage {
  import opened Wrappers
  import opened Lists
  import opened Text

  /** A GitHub account as the store keeps it, after key normalisation. */
  datatype Account = Account(login: string, id: int)

  /** The counts frozen into a snapshot when it is written. */
  datatype Stats = Stats(followersCount: nat, followingCount: nat, mutualCount: nat)

  datatype Snapshot = Snapshot(
    username: string,
    timestamp: string,
    followers: seq<Account>,
    following: seq<Account>,
    stats: Stats)

  /** The event symbols the tracker passes to `save_history_entry`. */
  datatype EventKind = NewFollower | Unfollowed

  /** A stored event; `eventType` is the symbol's string form as written to disk. */
  datatype HistoryEntry = HistoryEntry(username: string, eventType: string, user: Account, timestamp: string)

  /** What a store file holds when it is opened: nothing, text that does not
      parse as JSON, or a parsed username-keyed map. */
  datatype StoreFile<T> = Missing | Unparsable | Parsed(data: map<string, seq<T>>)

  /** The string form of an event symbol (`Symbol#to_s`). */
  function EventName(k: EventKind): (s: string)
    ensures s == "new_follower" <==> k == NewFollower
    ensures s == "unfollowed" <==> k == Unfollowed
  {
    match k
    case NewFollower => "new_follower"
    case Unfollowed => "unfollowed"
  }

  /** `accounts.map { |f| f['login'] }`. */
  function Logins(xs: seq<Account>): (r: seq<string>)
    ensures |r| == |xs|
    ensures forall i :: 0 <= i < |xs| ==> r[i] == xs[i].login
    decreases |xs|
  {
    if xs == [] then [] else [xs[0].login] + Logins(xs[1..])
  }

  /** The test `logins.include?(f['login'])`. */
  function LoginAmong(logins: seq<string>): Account -> bool {
    (a: Account) => a.login in logins
  }

  /** True when some follower carries the login of `a`. */
  ghost predicate FollowsBack(followers: seq<Account>, a: Account) {
    exists f :: f in followers && f.login == a.login
  }

  lemma LoginAmongFollowers(followers: seq<Account>, a: Account)
    ensures LoginAmong(Logins(followers))(a) <==> FollowsBack(followers, a)
  {
    var logins := Logins(followers);
    if a.login in logins {
      var i :| 0 <= i < |logins| && logins[i] == a.login;
      assert followers[i] in followers;
    }
    if FollowsBack(followers, a) {
      var f :| f in followers && f.login == a.login;
      var i :| 0 <= i < |followers| && followers[i] == f;
      assert logins[i] == a.login;
    }
  }

  /** `calculate_mutual`: the followed accounts whose login is also a
      follower's login, in following order. */
  function Mutual(followers: seq<Account>, following: seq<Account>): (r: seq<Account>)
    ensures |r| <= |following|
    ensures forall a :: a in r <==> a in following && FollowsBack(followers, a)
  {
    var r := Filter(following, LoginAmong(Logins(followers)));
    assert forall a :: a in r <==> a in following && FollowsBack(followers, a) by {
      forall a
        ensures a in r <==> a in following && FollowsBack(followers, a)
      {
        LoginAmongFollowers(followers, a);
      }
    }
    r
  }

  /** The `stats` record computed by `save_snapshot`. */
  function StatsOf(followers: seq<Account>, following: seq<Account>): (s: Stats)
    ensures s.mutualCount <= s.followingCount
  {
    Stats(|followers|, |following|, |Mutual(followers, following)|)
  }

  /** The record `save_snapshot` writes, stamped with `now`. */
  function NewSnapshot(username: string, now: string, followers: seq<Account>, following: seq<Account>): Snapshot {
    Snapshot(username, now, followers, following, StatsOf(followers, following))
  }

  /** `map[username] || []`. */
  function Entries<T>(m: map<string, seq<T>>, username: string): seq<T> {
    if username in m then m[username] else []
  }

  /** `xs.each { |x| (map[username] ||= []) << x }`: appends to one username
      only, and creates its key only when something is appended. */
  function Appended<T>(m: map<string, seq<T>>, username: string, xs: seq<T>): (r: map<string, seq<T>>)
    ensures Entries(r, username) == Entries(m, username) + xs
    ensures forall v :: v != username ==> Entries(r, v) == Entries(m, v)
    ensures r.Keys == if xs == [] then m.Keys else m.Keys + {username}
  {
    if xs == [] then m else m[username := Entries(m, username) + xs]
  }

  /** Appending twice is appending the concatenation once. */
  lemma AppendedTwice<T>(m: map<string, seq<T>>, username: string, xs: seq<T>, ys: seq<T>)
    ensures Appended(Appended(m, username, xs), username, ys) == Appended(m, username, xs + ys)
  {
    if xs == [] {
      assert xs + ys == ys;
    } else if ys == [] {
      assert xs + ys == xs;
    } else {
      assert Entries(m, username) + xs + ys == Entries(m, username) + (xs + ys);
    }
  }

  /** `Array#last` with `nil` for an empty array. */
  function LastOf<T>(xs: seq<T>): (r: Option<T>)
    ensures r.None? <==> xs == []
    ensures r.Some? ==> xs == xs[..|xs| - 1] + [r.value]
  {
    if xs == [] then None else Some(xs[|xs| - 1])
  }

  /** `Array#last(n)`: the last `n` elements (all of them if there are fewer),
      still in their original order. */
  function LastN<T>(xs: seq<T>, n: nat): (r: seq<T>)
    ensures |r| == if n < |xs| then n else |xs|
    ensures xs == xs[..|xs| - |r|] + r
  {
    if n < |xs| then xs[|xs| - n..] else xs
  }

  /** With three entries, asking for the last two gives the second and third. */
  lemma LastNExample<T>(e1: T, e2: T, e3: T)
    ensures LastN([e1, e2, e3], 2) == [e2, e3]
  {
  }

  /** `load_json`: a missing or unparsable file loads as the empty map, so
      every user then reads as having no records; a parsed file gives each
      user the records stored for them. */
  function Load<T>(f: StoreFile<T>): (m: map<string, seq<T>>)
    ensures !f.Parsed? ==> m == map[]
    ensures forall u :: Entries(m, u) == (if f.Parsed? && u in f.data then f.data[u] else [])
  {
    if f.Parsed? then f.data else map[]
  }

  /** One header row and one row per history entry, as `export_csv` writes them. */
  const CsvHeader: seq<string> := ["Timestamp", "Event Type", "Username", "User ID"]

  function CsvRow(e: HistoryEntry): (row: seq<string>)
    ensures |row| == |CsvHeader|
    ensures row[0] == e.timestamp && row[1] == e.eventType && row[2] == e.user.login
    ensures |row[3]| >= 1 && (row[3][0] == '-' <==> e.user.id < 0)
    ensures IsNumeral(if e.user.id < 0 then row[3][1..] else row[3])
    ensures ParseInt(row[3]) == e.user.id
  {
    ParseIntToString(e.user.id);
    IntToStringNumeral(e.user.id);
    [e.timestamp, e.eventType, e.user.login, IntToString(e.user.id)]
  }

  /** What an export writes to its output file. */
  datatype ExportDoc =
    | JsonDoc(username: string, snapshots: seq<Snapshot>, history: seq<HistoryEntry>)
    | CsvDoc(rows: seq<seq<string>>)

  /** The output path `export` returns, with the document it wrote there. */
  datatype Exported = Exported(path: string, doc: ExportDoc)

  class Store {
    /** Username to snapshots, oldest first (snapshots.json). */
    var snapshots: map<string, seq<Snapshot>>
    /** Username to history entries, oldest first (history.json). */
    var history: map<string, seq<HistoryEntry>>

    /** Every record sits under its own username, every snapshot's counts are
        those of its lists, and every event type is one the tracker writes. */
    ghost predicate Consistent()
      reads this
    {
      && (forall u, s :: u in snapshots && s in snapshots[u] ==>
            s.username == u && s.stats == StatsOf(s.followers, s.following))
      && (forall u, e :: u in history && e in history[u] ==>
            e.username == u && (e.eventType == "new_follower" || e.eventType == "unfollowed"))
    }

    /** Opens the data directory: each file is loaded fail-open. */
    constructor Open(snapshotsFile: StoreFile<Snapshot>, historyFile: StoreFile<HistoryEntry>)
      ensures snapshots == Load(snapshotsFile) && history == Load(historyFile)
      ensures !snapshotsFile.Parsed? ==> snapshots == map[]
      ensures !historyFile.Parsed? ==> history == map[]
      ensures !snapshotsFile.Parsed? && !historyFile.Parsed? ==> Consistent()
    {
      snapshots := Load(snapshotsFile);
      history := Load(historyFile);
    }

    function AllSnapshots(username: string): (r: seq<Snapshot>)
      reads this
      ensures r == [] <==> !DataExists(username)
    {
      Entries(snapshots, username)
    }

    function LatestSnapshot(username: string): (r: Option<Snapshot>)
      reads this
      ensures r.Some? <==> DataExists(username)
      ensures r.Some? ==> r.value == AllSnapshots(username)[|AllSnapshots(username)| - 1]
    {
      LastOf(Entries(snapshots, username))
    }

    function DataExists(username: string): (r: bool)
      reads this
      ensures r <==> |Entries(snapshots, username)| > 0
    {
      username in snapshots && snapshots[username] != []
    }

    function GetHistory(username: string, limit: Option<nat>): (r: seq<HistoryEntry>)
      reads this
      ensures var all := Entries(history, username);
        && |r| == (if limit.Some? && limit.value < |all| then limit.value else |all|)
        && all == all[..|all| - |r|] + r
    {
      var entries := Entries(history, username);
      if limit.Some? then LastN(entries, limit.value) else entries
    }

    method SaveSnapshot(username: string, followers: seq<Account>, following: seq<Account>, now: string)
      returns (s: Snapshot)
      modifies this
      ensures s == NewSnapshot(username, now, followers, following)
      ensures s.stats.followersCount == |followers| && s.stats.followingCount == |following|
      ensures s.stats.mutualCount == |Mutual(followers, following)|
      ensures snapshots == Appended(old(snapshots), username, [s])
      ensures history == old(history)
      ensures LatestSnapshot(username) == Some(s)
      ensures |AllSnapshots(username)| == |old(AllSnapshots(username))| + 1
      ensures forall v :: v != username ==> AllSnapshots(v) == old(AllSnapshots(v))
      ensures old(Consistent()) ==> Consistent()
    {
      s := NewSnapshot(username, now, followers, following);
      ghost var before := snapshots;
      snapshots := snapshots[username := Entries(snapshots, username) + [s]];
      assert snapshots == Appended(before, username, [s]);
      assert old(Consistent()) ==> Consistent() by {
        if old(Consistent()) {
          forall u, t | u in snapshots && t in snapshots[u]
            ensures t.username == u && t.stats == StatsOf(t.followers, t.following)
          {
            if u == username && t !in Entries(before, username) {
              assert t == s;
            }
          }
        }
      }
    }

    method SaveHistoryEntry(username: string, kind: EventKind, user: Account, now: string)
      returns (e: HistoryEntry)
      modifies this
      ensures e == HistoryEntry(username, EventName(kind), user, now)
      ensures history == Appended(old(history), username, [e])
      ensures snapshots == old(snapshots)
      ensures old(Consistent()) ==> Consistent()
    {
      e := HistoryEntry(username, EventName(kind), user, now);
      history := history[username := Entries(history, username) + [e]];
    }

    method ClearData(username: string) returns (ok: bool)
      modifies this
      ensures ok
      ensures snapshots == old(snapshots) - {username}
      ensures history == old(history) - {username}
      ensures !DataExists(username) && AllSnapshots(username) == [] && GetHistory(username, None) == []
      ensures forall v :: v != username ==>
        AllSnapshots(v) == old(AllSnapshots(v)) && GetHistory(v, None) == old(GetHistory(v, None))
      ensures old(Consistent()) ==> Consistent()
    {
      snapshots := snapshots - {username};
      history := history - {username};
      ok := true;
    }

    /** `export(format:)`: only "json" and "csv" are accepted; anything else is
        refused before anything is written. */
    method Export(username: string, format: string, outputFile: string)
      returns (r: Result<Exported, string>)
      ensures format != "json" && format != "csv" ==> r == Err("Unsupported export format: " + format)
      ensures format == "json" ==>
        r == Ok(Exported(outputFile, JsonDoc(username, AllSnapshots(username), GetHistory(username, None))))
      ensures format == "csv" ==>
        var h := GetHistory(username, None);
        && r.Ok? && r.value.path == outputFile && r.value.doc.CsvDoc?
        && |r.value.doc.rows| == |h| + 1
        && r.value.doc.rows[0] == CsvHeader
        && forall i :: 0 <= i < |h| ==> r.value.doc.rows[i + 1] == CsvRow(h[i])
    {
      if format == "json" {
        r := Ok(Exported(outputFile, JsonDoc(username, AllSnapshots(username), GetHistory(username, None))));
      } else if format == "csv" {
        var h := GetHistory(username, None);
        var rows := [CsvHeader];
        var i := 0;
        while i < |h|
          invariant 0 <= i <= |h|
          invariant |rows| == i + 1 && rows[0] == CsvHeader
          invariant forall j :: 0 <= j < i ==> rows[j + 1] == CsvRow(h[j])
        {
          rows := rows + [CsvRow(h[i])];
          i := i + 1;
        }
        r := Ok(Exported(outputFile, CsvDoc(rows)));
      } else {
        r := Err("Unsupported export format: " + format);
      }
    }
  }
}
