/**
 * The uncoloured text formatting of a change set
 * (lib/gitfollow/notifier.rb with `colorize: false`).
 */
module Notifier {
  import opened Text
  import opened Storage
  import opened Tracker
  import opened Lists

  /** `format_net_change(n, false)`: "+n" for a gain, the plain number otherwise. */
  function FormatNetChange(netChange: int): (s: string)
    ensures |s| >= 1
    ensures s[0] == '+' <==> netChange > 0
    ensures s[0] == '-' <==> netChange < 0
    ensures IsNumeral(if netChange != 0 then s[1..] else s)
    ensures ParseInt(s) == netChange
  {
    ParseIntToString(netChange);
    IntToStringNumeral(netChange);
    if netChange > 0 then "+" + IntToString(netChange) else IntToString(netChange)
  }

  /** `summary`: one line naming how many followers came and went. */
  function Summary(username: string, c: ChangeSet): (r: string)
    ensures !c.hasChanges ==> r == "No changes for @" + username
    ensures c.hasChanges && c.newFollowers != [] && c.unfollowed != [] ==>
      r == NatToString(|c.newFollowers|) + " new follower(s), " + NatToString(|c.unfollowed|) + " unfollow(s) for @" + username
    ensures c.hasChanges && c.newFollowers != [] && c.unfollowed == [] ==>
      r == NatToString(|c.newFollowers|) + " new follower(s) for @" + username
    ensures c.hasChanges && c.newFollowers == [] && c.unfollowed != [] ==>
      r == NatToString(|c.unfollowed|) + " unfollow(s) for @" + username
    ensures c.hasChanges && c.newFollowers == [] && c.unfollowed == [] ==>
      r == " for @" + username
  {
    if !c.hasChanges then
      "No changes for @" + username
    else
      var gained := if c.newFollowers != [] then [NatToString(|c.newFollowers|) + " new follower(s)"] else [];
      var lost := if c.unfollowed != [] then [NatToString(|c.unfollowed|) + " unfollow(s)"] else [];
      var parts := gained + lost;
      assert |parts| == 2 ==> parts[0] == gained[0] && parts[1..] == lost;
      Join(parts, ", ") + " for @" + username
  }

  /** For a change set produced by change detection, the summary is the
      no-change line exactly when nothing changed, and otherwise starts with the
      count of the first non-empty list. */
  lemma SummaryOfDetectedChanges(username: string, previous: Snapshot, current: seq<Account>, following: seq<Account>)
    ensures var c := DetectChanges(previous, current, following);
      var r := Summary(username, c);
      && (r == "No changes for @" + username <==> !c.hasChanges)
      && (c.hasChanges ==> IsDigit(r[0]))
  {
    var c := DetectChanges(previous, current, following);
    var r := Summary(username, c);
    if c.hasChanges {
      var n := if c.newFollowers != [] then NatToString(|c.newFollowers|) else NatToString(|c.unfollowed|);
      assert r[0] == n[0];
      assert r[0] != "No changes for @"[0];
    }
  }

  function NewFollowersHeader(count: nat): string {
    "✅ New Followers (" + NatToString(count) + "):"
  }

  function UnfollowedHeader(count: nat): string {
    "❌ Unfollowed (" + NatToString(count) + "):"
  }

  const BulletPrefix := "  • @"

  /** One "  • @login" line per account, in order: every line names its
      account, whatever the keys of the account's hash (see `BulletsAsWritten`
      for the lookup as the source writes it). */
  function Bullets(accounts: seq<Account>): (r: seq<string>)
    ensures |r| == |accounts|
    ensures forall i :: 0 <= i < |r| ==> r[i] == BulletPrefix + accounts[i].login
    ensures forall i :: 0 <= i < |r| ==> r[i][|BulletPrefix|..] == accounts[i].login
  {
    seq(|accounts|, i requires 0 <= i < |accounts| => BulletPrefix + accounts[i].login)
  }

  /** How an account hash is keyed: the client builds `{ login:, id: }` with
      symbol keys, while a hash read back from the JSON store has string keys. */
  datatype KeyStyle = SymbolKeys | StringKeys

  /** `"#{user[:login]}"`: the symbol key only. A string-keyed hash has no
      such key, and the `nil` it yields interpolates as "". */
  function SymbolKeyLogin(a: Account, keys: KeyStyle): string {
    match keys
    case SymbolKeys => a.login
    case StringKeys => ""
  }

  /** The bullet lines as the source writes them, for accounts keyed `keys`. */
  function BulletsAsWritten(accounts: seq<Account>, keys: KeyStyle): (r: seq<string>)
    ensures |r| == |accounts|
    ensures forall i :: 0 <= i < |r| ==> r[i] == BulletPrefix + SymbolKeyLogin(accounts[i], keys)
  {
    seq(|accounts|, i requires 0 <= i < |accounts| => BulletPrefix + SymbolKeyLogin(accounts[i], keys))
  }

  /** For accounts straight from the client the source's lines are the
      corrected ones. */
  lemma BulletsAgreeOnSymbolKeys(accounts: seq<Account>)
    ensures BulletsAsWritten(accounts, SymbolKeys) == Bullets(accounts)
  {
  }

  /** An account that stopped following reaches the formatter from the previous
      snapshot, which `latest_snapshot` parsed from JSON, so its hash has string
      keys: as written its bullet is "  • @" with the login lost, where the
      corrected bullet names it. */
  lemma UnfollowedBulletLosesLogin(a: Account, following: seq<Account>)
    requires a.login != ""
    ensures var previous := NewSnapshot("testuser", "t", [a], following);
      var c := DetectChanges(previous, [], following);
      && c.unfollowed == [a]
      && BulletsAsWritten(c.unfollowed, StringKeys) == ["  • @"]
      && Bullets(c.unfollowed) == ["  • @" + a.login]
      && BulletsAsWritten(c.unfollowed, StringKeys) != Bullets(c.unfollowed)
  {
    var c := DetectChanges(NewSnapshot("testuser", "t", [a], following), [], following);
    AbsentFromSingle(a, []);
    assert c.unfollowed == [a];
    assert BulletsAsWritten([a], StringKeys)[0] == BulletPrefix + "" == "  • @";
    assert Bullets([a])[0] == BulletPrefix + a.login;
    assert |BulletPrefix + a.login| != |BulletPrefix|;
  }

  /** `format_new_followers(accounts, false)`: the header with the count, then
      one bullet per account on lines of their own. */
  function FormatNewFollowers(accounts: seq<Account>): (r: string)
    ensures accounts == [] ==> r == NewFollowersHeader(0)
    ensures accounts != [] ==> r == NewFollowersHeader(|accounts|) + "\n" + Join(Bullets(accounts), "\n")
  {
    var header := NewFollowersHeader(|accounts|);
    if accounts == [] then
      assert [header] + Bullets(accounts) == [header];
      Join([header] + Bullets(accounts), "\n")
    else
      JoinAppend([header], Bullets(accounts), "\n");
      Join([header] + Bullets(accounts), "\n")
  }

  /** `format_unfollowed(accounts, false)`: the header with the count, then
      one bullet per account on lines of their own. */
  function FormatUnfollowed(accounts: seq<Account>): (r: string)
    ensures accounts == [] ==> r == UnfollowedHeader(0)
    ensures accounts != [] ==> r == UnfollowedHeader(|accounts|) + "\n" + Join(Bullets(accounts), "\n")
  {
    var header := UnfollowedHeader(|accounts|);
    if accounts == [] then
      assert [header] + Bullets(accounts) == [header];
      Join([header] + Bullets(accounts), "\n")
    else
      JoinAppend([header], Bullets(accounts), "\n");
      Join([header] + Bullets(accounts), "\n")
  }

  function NetChangeLine(c: ChangeSet): string {
    "Net change: " + FormatNetChange(c.netChange)
  }

  function CountsLine(c: ChangeSet): string {
    "Previous: " + NatToString(c.previousCount) + " → Current: " + NatToString(c.currentCount)
  }

  /** `format_terminal_output(changes, colorize: false)`. */
  function FormatTerminalOutput(username: string, c: ChangeSet): (r: string)
    ensures !c.hasChanges ==> r == "No changes detected for @" + username
  {
    if !c.hasChanges then
      "No changes detected for @" + username
    else
      var output :=
        ["Changes detected for @" + username, ""]
        + (if c.newFollowers != [] then [FormatNewFollowers(c.newFollowers), ""] else [])
        + (if c.unfollowed != [] then [FormatUnfollowed(c.unfollowed), ""] else [])
        + [NetChangeLine(c), CountsLine(c)];
      Join(output, "\n")
  }

  /** The section of one non-empty list: header, one line per account, blank line. */
  function Section(header: string, accounts: seq<Account>): (r: seq<string>)
    ensures accounts == [] ==> r == []
    ensures accounts != [] ==> |r| == |accounts| + 2 && r[0] == header && r[|accounts| + 1] == ""
  {
    if accounts == [] then [] else [header] + Bullets(accounts) + [""]
  }

  /** The terminal output as flat lines: heading, blank line, the new-follower
      section, the unfollowed section, the net change and the counts. */
  function TerminalLines(username: string, c: ChangeSet): (lines: seq<string>)
    ensures |lines| == 4 + |Section(NewFollowersHeader(|c.newFollowers|), c.newFollowers)|
                         + |Section(UnfollowedHeader(|c.unfollowed|), c.unfollowed)|
    ensures lines[0] == "Changes detected for @" + username && lines[1] == ""
    ensures lines[|lines| - 2] == NetChangeLine(c)
    ensures lines[|lines| - 1] == CountsLine(c)
  {
    ["Changes detected for @" + username, ""]
    + Section(NewFollowersHeader(|c.newFollowers|), c.newFollowers)
    + Section(UnfollowedHeader(|c.unfollowed|), c.unfollowed)
    + [NetChangeLine(c), CountsLine(c)]
  }

  /** A section spliced between other lines: its header at the splice point,
      then one bullet per account in order, then the blank line. */
  lemma SectionAt(before: seq<string>, header: string, accounts: seq<Account>, after: seq<string>)
    requires accounts != []
    ensures var lines, k := before + Section(header, accounts) + after, |before|;
      && lines[k] == header
      && (forall i :: k + 1 <= i < k + 1 + |accounts| ==> lines[i] == BulletPrefix + accounts[i - k - 1].login)
      && lines[k + 1 + |accounts|] == ""
  {
    var section := Section(header, accounts);
    var lines, k := before + section + after, |before|;
    var bullets := Bullets(accounts);
    assert section == [header] + bullets + [""];
    SpliceIndex(before, section, after);
    assert lines[k] == section[0];
    assert lines[k + 1 + |accounts|] == section[|accounts| + 1];
    forall i | k + 1 <= i < k + 1 + |accounts|
      ensures lines[i] == BulletPrefix + accounts[i - k - 1].login
    {
      assert lines[i] == section[i - k];
      assert section[i - k] == bullets[i - k - 1];
    }
  }

  /** With new followers, the lines after the heading are their header, one
      bullet per new follower in order, and a blank line. */
  lemma TerminalNewSection(username: string, c: ChangeSet)
    requires c.newFollowers != []
    ensures var lines := TerminalLines(username, c);
      && lines[2] == NewFollowersHeader(|c.newFollowers|)
      && (forall i :: 3 <= i < 3 + |c.newFollowers| ==> lines[i] == BulletPrefix + c.newFollowers[i - 3].login)
      && lines[3 + |c.newFollowers|] == ""
  {
    var head := ["Changes detected for @" + username, ""];
    var rest := Section(UnfollowedHeader(|c.unfollowed|), c.unfollowed) + [NetChangeLine(c), CountsLine(c)];
    assert TerminalLines(username, c) == head + Section(NewFollowersHeader(|c.newFollowers|), c.newFollowers) + rest;
    SectionAt(head, NewFollowersHeader(|c.newFollowers|), c.newFollowers, rest);
  }

  /** With unfollows, the lines after the new-follower section are their header,
      one bullet per unfollowed account in order, and a blank line. */
  lemma TerminalUnfollowedSection(username: string, c: ChangeSet)
    requires c.unfollowed != []
    ensures var lines, k := TerminalLines(username, c), 2 + |Section(NewFollowersHeader(|c.newFollowers|), c.newFollowers)|;
      && lines[k] == UnfollowedHeader(|c.unfollowed|)
      && (forall i :: k + 1 <= i < k + 1 + |c.unfollowed| ==> lines[i] == BulletPrefix + c.unfollowed[i - k - 1].login)
      && lines[k + 1 + |c.unfollowed|] == ""
  {
    var before := ["Changes detected for @" + username, ""] + Section(NewFollowersHeader(|c.newFollowers|), c.newFollowers);
    var tail := [NetChangeLine(c), CountsLine(c)];
    assert TerminalLines(username, c) == before + Section(UnfollowedHeader(|c.unfollowed|), c.unfollowed) + tail;
    SectionAt(before, UnfollowedHeader(|c.unfollowed|), c.unfollowed, tail);
  }

  /** One non-empty group joined on its own and followed by a blank line reads
      the same as its section spliced into the surrounding lines. */
  lemma FlattenSection(before: seq<string>, header: string, accounts: seq<Account>, after: seq<string>)
    requires accounts != []
    ensures Join(before + [Join([header] + Bullets(accounts), "\n"), ""] + after, "\n")
         == Join(before + Section(header, accounts) + after, "\n")
  {
    var part := [header] + Bullets(accounts);
    assert before + [Join(part, "\n"), ""] + after == before + [Join(part, "\n")] + ([""] + after);
    assert before + Section(header, accounts) + after == before + part + ([""] + after);
    JoinFlatten(before, part, [""] + after, "\n");
  }

  /** With changes, the nested joins of the source give exactly the flat lines
      of `TerminalLines` joined by newlines. */
  lemma TerminalOutputLines(username: string, c: ChangeSet)
    requires c.hasChanges
    ensures FormatTerminalOutput(username, c) == Join(TerminalLines(username, c), "\n")
  {
    var head := ["Changes detected for @" + username, ""];
    var tail := [NetChangeLine(c), CountsLine(c)];
    var newHeader, goneHeader := NewFollowersHeader(|c.newFollowers|), UnfollowedHeader(|c.unfollowed|);
    var newLines := Section(newHeader, c.newFollowers);
    var goneLines := Section(goneHeader, c.unfollowed);
    var newJoined := if c.newFollowers != [] then [FormatNewFollowers(c.newFollowers), ""] else [];
    var goneJoined := if c.unfollowed != [] then [FormatUnfollowed(c.unfollowed), ""] else [];
    assert FormatTerminalOutput(username, c) == Join(head + newJoined + goneJoined + tail, "\n");
    assert TerminalLines(username, c) == head + newLines + goneLines + tail;
    // the unfollowed group, flattened inside the rest of the lines
    assert Join(head + newJoined + goneJoined + tail, "\n") == Join(head + newJoined + goneLines + tail, "\n") by {
      if c.unfollowed != [] {
        assert FormatUnfollowed(c.unfollowed) == Join([goneHeader] + Bullets(c.unfollowed), "\n");
        FlattenSection(head + newJoined, goneHeader, c.unfollowed, tail);
      } else {
        assert goneJoined == goneLines;
      }
    }
    // then the new-follower group
    assert Join(head + newJoined + goneLines + tail, "\n") == Join(head + newLines + goneLines + tail, "\n") by {
      if c.newFollowers != [] {
        assert FormatNewFollowers(c.newFollowers) == Join([newHeader] + Bullets(c.newFollowers), "\n");
        assert head + newJoined + goneLines + tail == head + newJoined + (goneLines + tail);
        assert head + newLines + goneLines + tail == head + newLines + (goneLines + tail);
        FlattenSection(head, newHeader, c.newFollowers, goneLines + tail);
      } else {
        assert newJoined == newLines;
      }
    }
  }
}
